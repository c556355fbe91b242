/** Sharing an address space keeps the invariant and gives the child its parent's view. */
module CowShare {
  import opened Pages
  import opened CowSpec

  // ---------- layout ----------

  lemma OwnsFills(p: Proc, pg: nat)
    requires Layout(p) && Owns(p, pg)
    ensures StackPages(p).Has(pg) ==> StackTables(p).Has(Pdx(pg))
    ensures ImagePages(p).Has(pg) ==> ImageTables(p).Has(Pdx(pg))
    ensures Fills(p, Pdx(pg)) && pg < KERN_BASE / PG_SIZE
  {
    var e := p.stack + p.stackSize;
    if StackPages(p).Has(pg) {
      assert PageUp(e) == e / PG_SIZE && Region(e) * PTE_PER_PDE == e / PG_SIZE;
    }
  }

  lemma FillsApart(p: Proc, i: int)
    requires Layout(p)
    ensures !(StackTables(p).Has(i) && ImageTables(p).Has(i))
    ensures Fills(p, i) ==> 0 <= i < Region(KERN_BASE)
  {
  }

  lemma PagesApart(p: Proc, pg: int)
    requires Layout(p)
    ensures !(StackPages(p).Has(pg) && ImagePages(p).Has(pg))
  {
    if StackPages(p).Has(pg) && ImagePages(p).Has(pg) {
      OwnsFills(p, pg);
      FillsApart(p, Pdx(pg));
    }
  }

  // ---------- page tables that lose write permission ----------

  /** `u` is `t` with some entries made read-only. */
  ghost predicate Softened(t: map<nat, seq<Pte>>, u: map<nat, seq<Pte>>) {
    && t.Keys == u.Keys
    && (forall x :: x in t ==> |t[x]| == |u[x]|)
    && forall x, j :: x in t && 0 <= j < |t[x]| ==>
      u[x][j].frame == t[x][j].frame && u[x][j].present == t[x][j].present && (u[x][j].writable ==> t[x][j].writable)
  }

  /** Lookups in a state with the same directory entries and softened tables. */
  lemma SoftLookup(s: State, s': State, d: nat, d': nat, pg: nat)
    requires Softened(s.tables, s'.tables) && Entry(s', d', Pdx(pg)) == Entry(s, d, Pdx(pg))
    ensures FrameOf(s', d', pg) == FrameOf(s, d, pg) && PteOf(s', d', pg).present == PteOf(s, d, pg).present
    ensures PteOf(s', d', pg).writable ==> PteOf(s, d, pg).writable
  {
  }

  /** What sharing pages `lo` to `hi` leaves alone, and the counts it raises. */
  ghost predicate PagesShared(s: State, s': State, d: nat, lo: nat, hi: nat) {
    && s' == s.(tables := s'.tables, refs := s'.refs)
    && Softened(s.tables, s'.tables) && s'.refs.Keys == s.refs.Keys
    && (forall pg: nat :: lo <= pg < hi ==> !PteOf(s', d, pg).writable)
    && forall f :: f in s.refs ==>
      s'.refs[f] == s.refs[f] + if lo <= Home(s, f) < hi && FrameOf(s, d, Home(s, f)) == f then 1 else 0
  }

  /** The pages `lo` to `hi` are mapped, each to a frame that is theirs. */
  ghost predicate PagesMapped(s: State, d: nat, lo: nat, hi: nat) {
    forall pg: nat :: lo <= pg < hi ==> FrameOf(s, d, pg) in s.refs && Home(s, FrameOf(s, d, pg)) == pg
  }

  lemma SetPteSoft(s: State, d: nat, pg: nat)
    ensures var s' := SetPte(s, d, pg, PteOf(s, d, pg).(writable := false));
      s' == s.(tables := s'.tables) && Softened(s.tables, s'.tables) && !PteOf(s', d, pg).writable
  {
    hide Pdx, Ptx;
  }

  lemma SharePageOne(s: State, d: nat, pg: nat)
    requires PagesMapped(s, d, pg, pg + 1)
    ensures PagesShared(s, SharePage(s, d, pg), d, pg, pg + 1)
  {
    var f := FrameOf(s, d, pg);
    assert f in s.refs && Home(s, f) == pg;
    hide Pdx, Ptx, SetPte, FrameOf, PagesMapped, Softened;
    SetPteSoft(s, d, pg);
  }

  /** Sharing pages changes no translation. */
  lemma SharedFrames(s: State, s': State, d: nat, lo: nat, hi: nat)
    requires PagesShared(s, s', d, lo, hi)
    ensures s'.dirs == s.dirs && s'.refs.Keys == s.refs.Keys && s'.home == s.home
    ensures forall e, pg: nat :: FrameOf(s', e, pg) == FrameOf(s, e, pg)
  {
    forall e: nat, pg: nat ensures FrameOf(s', e, pg) == FrameOf(s, e, pg) { SoftLookup(s, s', e, e, pg); }
  }

  lemma MappedStill(s: State, s': State, d: nat, lo: nat, hi: nat, a: nat, b: nat)
    requires PagesShared(s, s', d, lo, hi) && PagesMapped(s, d, a, b)
    ensures PagesMapped(s', d, a, b)
  {
    SharedFrames(s, s', d, lo, hi);
  }

  lemma SharedNone(s: State, d: nat, lo: nat, hi: nat)
    requires hi <= lo
    ensures PagesShared(s, s, d, lo, hi)
  {
  }

  lemma SharedMore(s: State, m: State, s': State, d: nat, lo: nat, hi: nat)
    requires lo < hi && PagesShared(s, m, d, lo, hi - 1) && PagesShared(m, s', d, hi - 1, hi)
    ensures PagesShared(s, s', d, lo, hi)
  {
    SharedFrames(s, m, d, lo, hi - 1);
    forall pg: nat | lo <= pg < hi ensures !PteOf(s', d, pg).writable {
      SoftLookup(m, s', d, d, pg);
    }
  }

  lemma {:induction false} SharePagesFacts(s: State, d: nat, lo: nat, hi: nat)
    requires PagesMapped(s, d, lo, hi)
    ensures PagesShared(s, SharePages(s, d, lo, hi), d, lo, hi)
    decreases hi
  {
    hide PagesShared, SharePage;
    if lo < hi {
      var m := SharePages(s, d, lo, hi - 1);
      assert PagesMapped(s, d, lo, hi - 1) && PagesMapped(s, d, hi - 1, hi);
      hide PagesMapped;
      SharePagesFacts(s, d, lo, hi - 1);
      MappedStill(s, m, d, lo, hi - 1, hi - 1, hi);
      SharePageOne(m, d, hi - 1);
      SharedMore(s, m, SharePage(m, d, hi - 1), d, lo, hi);
    } else {
      SharedNone(s, d, lo, hi);
    }
  }

  // ---------- directory entries ----------

  /** What sharing the tables of entries `lo` to `hi` does, and no more. */
  ghost predicate TablesShared(s: State, s': State, src: nat, d: nat, lo: nat, hi: nat) {
    && d in s'.dirs && s' == s.(dirs := s.dirs[d := s'.dirs[d]], refs := s'.refs)
    && |s'.dirs[d]| == PTE_PER_PDE && s'.refs.Keys == s.refs.Keys
    && (forall i :: 0 <= i < PTE_PER_PDE ==> s'.dirs[d][i] == if lo <= i < hi then Entry(s, src, i) else Entry(s, d, i))
    && forall t :: t in s.refs ==>
      s'.refs[t] == s.refs[t] + if lo <= Slot(s, t) < hi && Entry(s, src, Slot(s, t)) == Table(t) then 1 else 0
  }

  ghost predicate TablesMapped(s: State, src: nat, lo: nat, hi: nat) {
    && hi <= PTE_PER_PDE
    && forall i :: lo <= i < hi ==>
      Entry(s, src, i).Table? && Entry(s, src, i).frame in s.refs && Slot(s, Entry(s, src, i).frame) == i
  }

  predicate DirReady(s: State, d: nat) {
    d in s.dirs && |s.dirs[d]| == PTE_PER_PDE
  }

  lemma ShareTableOne(s: State, src: nat, d: nat, i: nat)
    requires DirReady(s, d) && src != d && TablesMapped(s, src, i, i + 1)
    ensures TablesShared(s, ShareTable(s, src, d, i), src, d, i, i + 1)
  {
    var e := Entry(s, src, i);
    assert e.Table?;
  }

  lemma TablesNone(s: State, src: nat, d: nat, lo: nat, hi: nat)
    requires DirReady(s, d) && hi <= lo
    ensures TablesShared(s, s, src, d, lo, hi)
  {
    assert s.dirs[d := s.dirs[d]] == s.dirs;
  }

  lemma TablesMore(s: State, m: State, s': State, src: nat, d: nat, lo: nat, hi: nat)
    requires src != d && lo < hi && TablesShared(s, m, src, d, lo, hi - 1) && TablesShared(m, s', src, d, hi - 1, hi)
    ensures TablesShared(s, s', src, d, lo, hi)
  {
    assert s.dirs[d := m.dirs[d]][d := s'.dirs[d]] == s.dirs[d := s'.dirs[d]];
    assert forall i :: Entry(m, src, i) == Entry(s, src, i);
  }

  lemma TablesStill(s: State, s': State, src: nat, d: nat, lo: nat, hi: nat, a: nat, b: nat)
    requires src != d && TablesShared(s, s', src, d, lo, hi) && TablesMapped(s, src, a, b)
    ensures DirReady(s', d) && TablesMapped(s', src, a, b)
  {
    assert forall i :: Entry(s', src, i) == Entry(s, src, i);
  }

  lemma {:induction false} ShareTablesFacts(s: State, src: nat, d: nat, lo: nat, hi: nat)
    requires DirReady(s, d) && src != d && TablesMapped(s, src, lo, hi)
    ensures TablesShared(s, ShareTables(s, src, d, lo, hi), src, d, lo, hi)
    decreases hi
  {
    hide TablesShared, ShareTable, DirReady;
    if lo < hi {
      var m := ShareTables(s, src, d, lo, hi - 1);
      assert TablesMapped(s, src, lo, hi - 1) && TablesMapped(s, src, hi - 1, hi);
      hide TablesMapped;
      ShareTablesFacts(s, src, d, lo, hi - 1);
      TablesStill(s, m, src, d, lo, hi - 1, hi - 1, hi);
      ShareTableOne(m, src, d, hi - 1);
      TablesMore(s, m, ShareTable(m, src, d, hi - 1), src, d, lo, hi);
    } else {
      TablesNone(s, src, d, lo, hi);
    }
  }

  // ---------- the whole address space ----------

  ghost predicate Shared(s: State, s': State, p: Proc, d: nat) {
    && d in s'.dirs && s' == s.(dirs := s.dirs[d := s'.dirs[d]], tables := s'.tables, refs := s'.refs)
    && |s'.dirs[d]| == PTE_PER_PDE && Softened(s.tables, s'.tables)
    && s'.refs.Keys == s.refs.Keys + {d} && s'.refs[d] == 1
    && (forall i :: 0 <= i < PTE_PER_PDE ==> s'.dirs[d][i] == if Fills(p, i) then Entry(s, p.dir, i) else NewDir()[i])
    && (forall pg: nat :: Owns(p, pg) ==> !PteOf(s', d, pg).writable)
    && forall f :: f in s.refs ==>
      s'.refs[f] == s.refs[f] + (if Maps(s, p, f) then 1 else 0) + if Uses(s, p, f) then 1 else 0
  }

  /** The tables `ts` and pages `ps` of directory `src` shared into `d`. */
  ghost predicate PartShared(s: State, s': State, src: nat, d: nat, ts: Span, ps: Span) {
    && d in s'.dirs && s' == s.(dirs := s.dirs[d := s'.dirs[d]], tables := s'.tables, refs := s'.refs)
    && |s'.dirs[d]| == PTE_PER_PDE && Softened(s.tables, s'.tables) && s'.refs.Keys == s.refs.Keys
    && (forall i :: 0 <= i < PTE_PER_PDE ==> s'.dirs[d][i] == if ts.Has(i) then Entry(s, src, i) else Entry(s, d, i))
    && (forall pg: nat :: ps.Has(pg) ==> !PteOf(s', d, pg).writable)
    && forall f :: f in s.refs ==>
      s'.refs[f] == s.refs[f] + (if ps.Has(Home(s, f)) && FrameOf(s, src, Home(s, f)) == f then 1 else 0)
                              + if ts.Has(Slot(s, f)) && Entry(s, src, Slot(s, f)) == Table(f) then 1 else 0
  }

  function SharePart(s: State, src: nat, d: nat, ts: Span, ps: Span): State {
    SharePages(ShareTables(s, src, d, ts.lo, ts.hi), d, ps.lo, ps.hi)
  }

  ghost predicate PartReady(s: State, src: nat, d: nat, ts: Span, ps: Span) {
    && DirReady(s, d) && src != d && TablesMapped(s, src, ts.lo, ts.hi) && PagesMapped(s, src, ps.lo, ps.hi)
    && forall pg: nat :: ps.Has(pg) ==> ts.Has(Pdx(pg))
  }

  /** The pages of `src` seen through `d`, once their tables are shared. */
  lemma SeenThrough(s: State, s': State, src: nat, d: nat, ts: Span, ps: Span)
    requires PartReady(s, src, d, ts, ps) && TablesShared(s, s', src, d, ts.lo, ts.hi)
    ensures forall pg: nat :: ps.Has(pg) ==> FrameOf(s', d, pg) == FrameOf(s, src, pg)
    ensures PagesMapped(s', d, ps.lo, ps.hi)
  {
    hide Pdx, Ptx;
    forall pg: nat | ps.Has(pg) ensures FrameOf(s', d, pg) == FrameOf(s, src, pg) {
      assert ts.Has(Pdx(pg)) && Entry(s', d, Pdx(pg)) == Entry(s, src, Pdx(pg));
    }
  }

  lemma SharePartFacts(s: State, src: nat, d: nat, ts: Span, ps: Span)
    requires PartReady(s, src, d, ts, ps)
    ensures PartShared(s, SharePart(s, src, d, ts, ps), src, d, ts, ps)
  {
    var s1 := ShareTables(s, src, d, ts.lo, ts.hi);
    var s2 := SharePages(s1, d, ps.lo, ps.hi);
    ShareTablesFacts(s, src, d, ts.lo, ts.hi);
    SeenThrough(s, s1, src, d, ts, ps);
    SharePagesFacts(s1, d, ps.lo, ps.hi);
    hide FrameOf, Home, Slot, SharePages, ShareTables, PagesMapped, TablesMapped, Softened;
    PartJoin(s, s1, s2, src, d, ts, ps);
  }

  lemma PartJoin(s: State, s1: State, s2: State, src: nat, d: nat, ts: Span, ps: Span)
    requires TablesShared(s, s1, src, d, ts.lo, ts.hi) && PagesShared(s1, s2, d, ps.lo, ps.hi)
    requires forall pg: nat :: ps.Has(pg) ==> FrameOf(s1, d, pg) == FrameOf(s, src, pg)
    ensures PartShared(s, s2, src, d, ts, ps)
  {
    hide FrameOf, Softened, PteOf;
  }

  /** Sharing one part leaves another to be shared. */
  lemma PartStill(s: State, s': State, src: nat, d: nat, ts: Span, ps: Span, ts2: Span, ps2: Span)
    requires PartReady(s, src, d, ts, ps) && PartShared(s, s', src, d, ts, ps)
    requires PartReady(s, src, d, ts2, ps2)
    ensures PartReady(s', src, d, ts2, ps2)
    ensures forall pg: nat :: FrameOf(s', src, pg) == FrameOf(s, src, pg)
    ensures forall i :: Entry(s', src, i) == Entry(s, src, i)
  {
    hide Pdx, Ptx;
    assert forall i :: Entry(s', src, i) == Entry(s, src, i);
    forall pg: nat ensures FrameOf(s', src, pg) == FrameOf(s, src, pg) { SoftLookup(s, s', src, src, pg); }
  }

  /** Two parts that share no table. */
  lemma PartsJoin(s: State, m: State, s': State, src: nat, d: nat, ts: Span, ps: Span, ts2: Span, ps2: Span)
    requires PartReady(s, src, d, ts, ps) && PartShared(s, m, src, d, ts, ps)
    requires PartReady(m, src, d, ts2, ps2) && PartShared(m, s', src, d, ts2, ps2)
    requires forall i :: !(ts.Has(i) && ts2.Has(i))
    ensures s' == s.(dirs := s.dirs[d := s'.dirs[d]], tables := s'.tables, refs := s'.refs)
    ensures d in s'.dirs && |s'.dirs[d]| == PTE_PER_PDE && Softened(s.tables, s'.tables)
    ensures forall pg: nat :: ps.Has(pg) || ps2.Has(pg) ==> !PteOf(s', d, pg).writable
  {
    hide Pdx, Ptx, PagesMapped, TablesMapped, Home, Slot;
    forall pg: nat | ps.Has(pg) ensures !PteOf(s', d, pg).writable {
      assert ts.Has(Pdx(pg)) && !ts2.Has(Pdx(pg));
      SoftLookup(m, s', d, d, pg);
    }
  }

  /** A new directory hides nothing. */
  lemma CreatedLookups(s: State, p: Proc, d: nat)
    requires p.dir != d
    ensures var c := CreateDir(s, d);
      && (forall i :: Entry(c, p.dir, i) == Entry(s, p.dir, i))
      && (forall pg: nat :: FrameOf(c, p.dir, pg) == FrameOf(s, p.dir, pg))
      && c.home == s.home && c.slot == s.slot && c.refs.Keys == s.refs.Keys + {d}
  {
    hide Pdx, Ptx, NewDir;
  }

  lemma SpacePages(s: State, p: Proc)
    requires Kinds(s) && SpaceOk(s, p)
    ensures PagesMapped(s, p.dir, StackPages(p).lo, StackPages(p).hi)
    ensures PagesMapped(s, p.dir, ImagePages(p).lo, ImagePages(p).hi)
    ensures forall pg: nat :: StackPages(p).Has(pg) ==> StackTables(p).Has(Pdx(pg))
    ensures forall pg: nat :: ImagePages(p).Has(pg) ==> ImageTables(p).Has(Pdx(pg))
  {
    assert s.data.Keys <= s.refs.Keys;
    hide PteOf, Layout, EntriesOk, Kinds, Home, Pdx;
    forall pg: nat | Owns(p, pg)
      ensures FrameOf(s, p.dir, pg) in s.refs && Home(s, FrameOf(s, p.dir, pg)) == pg
      ensures StackPages(p).Has(pg) ==> StackTables(p).Has(Pdx(pg))
      ensures ImagePages(p).Has(pg) ==> ImageTables(p).Has(Pdx(pg))
    {
      assert FrameOf(s, p.dir, pg) in s.data.Keys;
      OwnsFills(p, pg);
    }
    hide StackPages, ImagePages, StackTables, ImageTables, FrameOf;
  }

  lemma SpaceTables(s: State, p: Proc)
    requires Kinds(s) && SpaceOk(s, p)
    ensures TablesMapped(s, p.dir, StackTables(p).lo, StackTables(p).hi)
    ensures TablesMapped(s, p.dir, ImageTables(p).lo, ImageTables(p).hi)
  {
    assert s.tables.Keys <= s.refs.Keys;
    hide PagesOk, Kinds, Entry, Slot;
    FillsApart(p, StackTables(p).hi - 1);
    FillsApart(p, ImageTables(p).hi - 1);
    hide Layout;
  }

  lemma SpaceParts(s: State, p: Proc, d: nat)
    requires Kinds(s) && SpaceOk(s, p) && d !in s.refs
    ensures PartReady(CreateDir(s, d), p.dir, d, StackTables(p), StackPages(p))
    ensures PartReady(CreateDir(s, d), p.dir, d, ImageTables(p), ImagePages(p))
    ensures forall i :: Entry(CreateDir(s, d), p.dir, i) == Entry(s, p.dir, i)
    ensures forall pg: nat :: FrameOf(CreateDir(s, d), p.dir, pg) == FrameOf(s, p.dir, pg)
  {
    SpacePages(s, p);
    SpaceTables(s, p);
    assert p.dir in s.dirs && d !in s.dirs;
    CreatedLookups(s, p, d);
    hide StackPages, ImagePages, StackTables, ImageTables, FrameOf, Entry, SpaceOk, Kinds, NewDir, Pdx;
    assert DirReady(CreateDir(s, d), d) by { NewDirReady(s, d); }
    MappedIn(s, CreateDir(s, d), p.dir, StackTables(p), StackPages(p));
    MappedIn(s, CreateDir(s, d), p.dir, ImageTables(p), ImagePages(p));
  }

  lemma NewDirReady(s: State, d: nat)
    ensures DirReady(CreateDir(s, d), d)
  {
  }

  lemma MappedIn(s: State, c: State, d: nat, ts: Span, ps: Span)
    requires TablesMapped(s, d, ts.lo, ts.hi) && PagesMapped(s, d, ps.lo, ps.hi) && s.refs.Keys <= c.refs.Keys
    requires c.home == s.home && c.slot == s.slot && forall i :: Entry(c, d, i) == Entry(s, d, i)
    requires forall pg: nat :: FrameOf(c, d, pg) == FrameOf(s, d, pg)
    ensures TablesMapped(c, d, ts.lo, ts.hi) && PagesMapped(c, d, ps.lo, ps.hi)
  {
    hide Entry, FrameOf;
    assert forall f :: f in s.refs.Keys ==> f in c.refs.Keys;
  }

  ghost predicate Parts(s: State, m: State, s': State, p: Proc, d: nat) {
    var c := CreateDir(s, d);
    && PartShared(c, m, p.dir, d, StackTables(p), StackPages(p))
    && PartShared(m, s', p.dir, d, ImageTables(p), ImagePages(p))
    && (forall i :: Entry(c, p.dir, i) == Entry(s, p.dir, i) == Entry(m, p.dir, i))
    && forall pg: nat :: FrameOf(c, p.dir, pg) == FrameOf(s, p.dir, pg) == FrameOf(m, p.dir, pg)
  }

  /** Everything sharing does to the heap, from its two parts. */
  ghost predicate Outline(s: State, m: State, s': State, p: Proc, d: nat) {
    && Parts(s, m, s', p, d) && d in s'.dirs && |s'.dirs[d]| == PTE_PER_PDE && Softened(s.tables, s'.tables)
    && s' == s.(dirs := s.dirs[d := s'.dirs[d]], tables := s'.tables, refs := s'.refs)
    && forall pg: nat :: Owns(p, pg) ==> !PteOf(s', d, pg).writable
  }

  lemma SharePartsOf(s: State, c: State, m: State, s': State, p: Proc, d: nat)
    requires c == CreateDir(s, d)
    requires forall i :: !(StackTables(p).Has(i) && ImageTables(p).Has(i))
    requires forall i :: Entry(c, p.dir, i) == Entry(s, p.dir, i)
    requires forall pg: nat :: FrameOf(c, p.dir, pg) == FrameOf(s, p.dir, pg)
    requires PartReady(c, p.dir, d, StackTables(p), StackPages(p))
    requires PartShared(c, m, p.dir, d, StackTables(p), StackPages(p))
    requires PartReady(c, p.dir, d, ImageTables(p), ImagePages(p))
    requires PartReady(m, p.dir, d, ImageTables(p), ImagePages(p))
    requires PartShared(m, s', p.dir, d, ImageTables(p), ImagePages(p))
    ensures Outline(s, m, s', p, d)
  {
    hide PartShared, PartReady, Softened, FrameOf, PteOf, Entry, StackTables, StackPages, ImageTables, ImagePages;
    PartStill(c, m, p.dir, d, StackTables(p), StackPages(p), ImageTables(p), ImagePages(p));
    PartsJoin(c, m, s', p.dir, d, StackTables(p), StackPages(p), ImageTables(p), ImagePages(p));
    assert c.dirs[d := s'.dirs[d]] == s.dirs[d := s'.dirs[d]];
  }

  lemma ShareParts(s: State, p: Proc, d: nat) returns (m: State)
    requires Kinds(s) && SpaceOk(s, p) && d !in s.refs
    ensures Outline(s, m, Share(s, p, d), p, d)
  {
    var c := CreateDir(s, d);
    m := SharePart(c, p.dir, d, StackTables(p), StackPages(p));
    var s' := SharePart(m, p.dir, d, ImageTables(p), ImagePages(p));
    assert s' == Share(s, p, d);
    hide SharePart, Share, PartShared, PartReady, Softened, FrameOf, PteOf, Entry, Kinds, Outline;
    SpaceParts(s, p, d);
    SlotsApart(p);
    hide SpaceOk, Layout, StackTables, StackPages, ImageTables, ImagePages;
    SharePartFacts(c, p.dir, d, StackTables(p), StackPages(p));
    PartStill(c, m, p.dir, d, StackTables(p), StackPages(p), ImageTables(p), ImagePages(p));
    SharePartFacts(m, p.dir, d, ImageTables(p), ImagePages(p));
    SharePartsOf(s, c, m, s', p, d);
  }

  lemma SlotsApart(p: Proc)
    requires Layout(p)
    ensures forall i :: !(StackTables(p).Has(i) && ImageTables(p).Has(i))
  {
    forall i ensures !(StackTables(p).Has(i) && ImageTables(p).Has(i)) { FillsApart(p, i); }
  }

  lemma ShareRef(s: State, m: State, s': State, p: Proc, d: nat, f: nat)
    requires Parts(s, m, s', p, d) && d != f && f in s.refs
    requires !(StackTables(p).Has(Slot(s, f)) && ImageTables(p).Has(Slot(s, f)))
    requires !(StackPages(p).Has(Home(s, f)) && ImagePages(p).Has(Home(s, f)))
    ensures f in s'.refs && s'.refs[f] == s.refs[f] + (if Maps(s, p, f) then 1 else 0) + if Uses(s, p, f) then 1 else 0
  {
    hide StackTables, StackPages, ImageTables, ImagePages, FrameOf, PteOf, Entry, Softened;
    var c := CreateDir(s, d);
    assert Home(c, f) == Home(s, f) == Home(m, f) && Slot(c, f) == Slot(s, f) == Slot(m, f);
  }

  lemma ShareRefs(s: State, m: State, s': State, p: Proc, d: nat)
    requires Parts(s, m, s', p, d) && Kinds(s) && Layout(p) && d !in s.refs
    ensures s'.refs.Keys == s.refs.Keys + {d} && s'.refs[d] == 1
    ensures forall f :: f in s.refs ==>
      s'.refs[f] == s.refs[f] + (if Maps(s, p, f) then 1 else 0) + if Uses(s, p, f) then 1 else 0
  {
    hide StackTables, StackPages, ImageTables, ImagePages, FrameOf, PteOf, Entry, Softened, Layout, Maps, Uses, Parts;
    hide Home, Slot;
    ShareRefKeys(s, m, s', p, d);
    forall f | f in s.refs
      ensures s'.refs[f] == s.refs[f] + (if Maps(s, p, f) then 1 else 0) + if Uses(s, p, f) then 1 else 0
    {
      FillsApart(p, Slot(s, f));
      PagesApart(p, Home(s, f));
      ShareRef(s, m, s', p, d, f);
    }
  }

  lemma ShareRefKeys(s: State, m: State, s': State, p: Proc, d: nat)
    requires Parts(s, m, s', p, d) && Kinds(s) && d !in s.refs
    ensures s'.refs.Keys == s.refs.Keys + {d} && s'.refs[d] == 1
  {
    hide StackTables, StackPages, ImageTables, ImagePages, FrameOf, PteOf, Entry, Softened, NewDir;
    var c := CreateDir(s, d);
    NotListed(s, d);
    assert c.refs.Keys == s.refs.Keys + {d} && c.refs[d] == 1;
    assert Home(c, d) == -1 == Home(m, d) && Slot(c, d) == -1 == Slot(m, d);
    hide Kinds;
  }

  lemma NotListed(s: State, d: nat)
    requires Kinds(s) && d !in s.refs
    ensures Home(s, d) == -1 && Slot(s, d) == -1
  {
    assert d !in s.data.Keys && d !in s.tables.Keys;
  }

  lemma ShareEntries(s: State, m: State, s': State, p: Proc, d: nat)
    requires Parts(s, m, s', p, d)
    ensures forall i :: 0 <= i < PTE_PER_PDE ==>
      s'.dirs[d][i] == if Fills(p, i) then Entry(s, p.dir, i) else NewDir()[i]
  {
    hide StackTables, StackPages, ImageTables, ImagePages, FrameOf, PteOf, Softened;
  }

  lemma ShareFacts(s: State, p: Proc, d: nat)
    requires Kinds(s) && SpaceOk(s, p) && d !in s.refs
    ensures Shared(s, Share(s, p, d), p, d)
  {
    hide Parts, Softened, Share, SharePart, Kinds, EntriesOk, PagesOk, FrameOf, PteOf, Layout, Owns, Fills, Maps, Uses;
    var m := ShareParts(s, p, d);
    ShareRefs(s, m, Share(s, p, d), p, d);
    ShareEntries(s, m, Share(s, p, d), p, d);
  }

  // ---------- the invariant ----------

  /** `p'` in `s'` translates its pages as `p` does in `s`, with no more write permission. */
  ghost predicate LooksLike(s: State, p: Proc, s': State, p': Proc) {
    && p' == p.(dir := p'.dir, msg := p'.msg)
    && (forall i :: Entry(s', p'.dir, i) == Entry(s, p.dir, i))
    && forall pg: nat :: Owns(p, pg) ==>
      && FrameOf(s', p'.dir, pg) == FrameOf(s, p.dir, pg)
      && PteOf(s', p'.dir, pg).present == PteOf(s, p.dir, pg).present
      && (PteOf(s', p'.dir, pg).writable ==> PteOf(s, p.dir, pg).writable)
  }

  /** Sharing, with the child in the process table. */
  ghost predicate Forked(s: State, s': State, parent: nat, child: nat, d: nat) {
    && parent in s.procs && child !in s.procs && d !in s.refs && Inv(s)
    && var c := s.procs[parent].(dir := d);
       Shared(s, s'.(procs := s.procs), s.procs[parent], d) && s'.procs == s.procs[child := c]
  }

  lemma LooksSame(s: State, s': State, p: Proc, p': Proc)
    requires Layout(p) && p' == p.(dir := p'.dir, msg := p'.msg) && Softened(s.tables, s'.tables)
    requires forall i :: Entry(s', p'.dir, i) == Entry(s, p.dir, i)
    ensures LooksLike(s, p, s', p')
  {
    hide Fills, Owns, Pdx, Ptx, Layout;
    forall pg: nat | Owns(p, pg)
      ensures FrameOf(s', p'.dir, pg) == FrameOf(s, p.dir, pg)
      ensures PteOf(s', p'.dir, pg).present == PteOf(s, p.dir, pg).present
      ensures PteOf(s', p'.dir, pg).writable ==> PteOf(s, p.dir, pg).writable
    {
      OwnsFills(p, pg);
      SoftLookup(s, s', p.dir, p'.dir, pg);
    }
  }

  /** A process that was there sees its directory as it was. */
  lemma OldLooks(s: State, s': State, parent: nat, child: nat, d: nat, q: nat)
    requires Forked(s, s', parent, child, d) && q in s.procs
    ensures LooksLike(s, s.procs[q], s', s'.procs[q])
  {
    hide Softened, LooksLike, Owns, Fills, Layout, FrameOf, Counted, SoleWriters, PagesOk, PteOf, Maps, Uses;
    assert SpaceOk(s, s.procs[q]);
    assert forall i :: Entry(s', s.procs[q].dir, i) == Entry(s, s.procs[q].dir, i);
    LooksSame(s, s', s.procs[q], s'.procs[q]);
  }

  lemma ChildLooks(s: State, s': State, parent: nat, child: nat, d: nat)
    requires Forked(s, s', parent, child, d)
    ensures LooksLike(s, s.procs[parent], s', s'.procs[child])
    ensures forall pg: nat :: Owns(s.procs[parent], pg) ==> !PteOf(s', d, pg).writable
  {
    hide Softened, LooksLike, Owns, Fills, Layout, FrameOf, Counted, SoleWriters, PagesOk, Maps, Uses;
    var p := s.procs[parent];
    assert SpaceOk(s, p);
    forall i ensures Entry(s', d, i) == Entry(s, p.dir, i) {
      if Fills(p, i) { FillsApart(p, i); }
    }
    LooksSame(s, s', p, s'.procs[child]);
    forall pg: nat | Owns(p, pg) ensures !PteOf(s', d, pg).writable {
      assert PteOf(s'.(procs := s.procs), d, pg) == PteOf(s', d, pg);
    }
  }

  lemma ForkedLooks(s: State, s': State, parent: nat, child: nat, d: nat)
    requires Forked(s, s', parent, child, d)
    ensures forall q :: q in s.procs ==> LooksLike(s, s.procs[q], s', s'.procs[q])
    ensures LooksLike(s, s.procs[parent], s', s'.procs[child])
    ensures forall pg: nat :: Owns(s.procs[parent], pg) ==> !PteOf(s', d, pg).writable
  {
    ForkedHomes(s, s', parent, child, d);
    hide Forked, LooksLike, Owns, PteOf;
    forall q | q in s.procs ensures LooksLike(s, s.procs[q], s', s'.procs[q]) { OldLooks(s, s', parent, child, d, q); }
    ChildLooks(s, s', parent, child, d);
  }

  lemma SameSpans(p: Proc, p': Proc)
    requires p' == p.(dir := p'.dir, msg := p'.msg)
    ensures forall i :: Fills(p', i) == Fills(p, i) && Owns(p', i) == Owns(p, i)
    ensures Layout(p') == Layout(p)
  {
  }

  /** A process that looks the same has the same pages and tables. */
  lemma LooksMaps(s: State, p: Proc, s': State, p': Proc, f: nat)
    requires LooksLike(s, p, s', p') && s'.home == s.home && s'.slot == s.slot
    ensures Maps(s', p', f) == Maps(s, p, f) && Uses(s', p', f) == Uses(s, p, f)
  {
    SameSpans(p, p');
    hide Pdx, Ptx, PteOf, Owns, Fills;
  }

  lemma LooksOk(s: State, p: Proc, s': State, p': Proc)
    requires LooksLike(s, p, s', p') && s'.home == s.home && s'.slot == s.slot && SpaceOk(s, p)
    requires s.tables.Keys <= s'.tables.Keys && s.data.Keys <= s'.data.Keys && p'.dir in s'.dirs
    ensures SpaceOk(s', p')
  {
    SameSpans(p, p');
    hide Pdx, Ptx, PteOf, FrameOf, Owns, Fills;
  }

  /** Who maps a frame, and who points to a table, once the child is there. */
  lemma ForkedMappers(s: State, s': State, parent: nat, child: nat, d: nat, f: nat)
    requires Forked(s, s', parent, child, d)
    ensures Mappers(s', f) == Mappers(s, f) + if Maps(s, s.procs[parent], f) then {child} else {}
    ensures Users(s', f) == Users(s, f) + if Uses(s, s.procs[parent], f) then {child} else {}
    ensures child !in Mappers(s, f) && child !in Users(s, f)
  {
    hide Maps, Uses, LooksLike, Inv, Shared;
    ForkedLooks(s, s', parent, child, d);
    ForkedHomes(s, s', parent, child, d);
    forall q | q in s.procs
      ensures Maps(s', s'.procs[q], f) == Maps(s, s.procs[q], f) && Uses(s', s'.procs[q], f) == Uses(s, s.procs[q], f)
    {
      LooksMaps(s, s.procs[q], s', s'.procs[q], f);
    }
    LooksMaps(s, s.procs[parent], s', s'.procs[child], f);
  }

  lemma ForkedHomes(s: State, s': State, parent: nat, child: nat, d: nat)
    requires Forked(s, s', parent, child, d)
    ensures s'.home == s.home && s'.slot == s.slot && s'.data == s.data && s'.tables.Keys == s.tables.Keys
    ensures s'.procs == s.procs[child := s.procs[parent].(dir := d)]
    ensures d !in s.dirs && s'.dirs.Keys == s.dirs.Keys + {d}
  {
  }

  /** A data frame is no table. */
  lemma NoTable(s: State, f: nat)
    requires Kinds(s) && f in s.data
    ensures forall p :: !Uses(s, p, f)
  {
    forall p ensures !Uses(s, p, f) { assert Slot(s, f) == -1 && !Fills(p, -1); }
  }

  lemma ForkedHas(s: State, s': State, parent: nat, child: nat, d: nat)
    requires Forked(s, s', parent, child, d)
    ensures Kinds(s) && Counted(s) && parent in s.procs && child !in s.procs && d !in s.refs
  {
    hide Kinds, Counted, SoleWriters, SpaceOk, DirsApart, Shared;
  }

  /** Each count rises by what the parent has. */
  lemma ForkedRefs(s: State, s': State, parent: nat, child: nat, d: nat, f: nat)
    requires Forked(s, s', parent, child, d) && f in s.refs
    ensures var p := s.procs[parent];
      Ref(s', f) == Ref(s, f) + (if Maps(s, p, f) then 1 else 0) + if Uses(s, p, f) then 1 else 0
  {
    hide Maps, Uses, Inv, Softened, Owns, Fills, NewDir, PteOf, Entry;
  }

  lemma ForkedCount(s: State, s': State, parent: nat, child: nat, d: nat, f: nat)
    requires Forked(s, s', parent, child, d)
    ensures f in s'.data ==> Ref(s', f) == |Mappers(s', f)| && Ref(s', f) > 0
    ensures f in s'.tables ==> Ref(s', f) >= |Users(s', f)|
  {
    hide Maps, Uses, Forked, Mappers, Users, Ref;
    ForkedHas(s, s', parent, child, d);
    var p := s.procs[parent];
    ForkedHomes(s, s', parent, child, d);
    assert s.data.Keys <= s.refs.Keys && s.tables.Keys <= s.refs.Keys;
    assert f in s.data ==> Ref(s, f) == |Mappers(s, f)| && Ref(s, f) > 0;
    assert f in s.tables.Keys ==> Ref(s, f) >= |Users(s, f)|;
    if f in s.data.Keys { NoTable(s, f); }
    hide Kinds, Counted;
    ForkedMappers(s, s', parent, child, d, f);
    if f in s.data.Keys || f in s.tables.Keys { ForkedRefs(s, s', parent, child, d, f); }
    CardMore(Mappers(s, f), child);
    CardMore(Users(s, f), child);
    assert f in s'.tables.Keys <==> f in s.tables.Keys;
  }

  lemma CardMore(a: set<nat>, x: nat)
    ensures |a + {x}| <= |a| + 1 && (x !in a ==> |a + {x}| == |a| + 1) && a + {} == a
  {
    if x in a { assert a + {x} == a; }
  }

  lemma ForkedCounted(s: State, s': State, parent: nat, child: nat, d: nat)
    requires Forked(s, s', parent, child, d)
    ensures Counted(s')
  {
    hide Forked, Mappers, Users, Ref;
    forall f: nat
      ensures f in s'.data ==> Ref(s', f) == |Mappers(s', f)| && Ref(s', f) > 0
      ensures f in s'.tables ==> Ref(s', f) >= |Users(s', f)|
    {
      ForkedCount(s, s', parent, child, d, f);
    }
  }

  /** A page still writable was writable before, and its frame is not the parent's. */
  lemma ForkedWriters(s: State, s': State, parent: nat, child: nat, d: nat)
    requires Forked(s, s', parent, child, d)
    ensures SoleWriters(s')
  {
    hide Shared, FrameOf, PteOf, Owns, Kinds, DirsApart, Softened;
    ForkedLooks(s, s', parent, child, d);
    ForkedHomes(s, s', parent, child, d);
    var p := s.procs[parent];
    SameSpans(p, p.(dir := d));
    forall q, pg: nat | q in s'.procs && Owns(s'.procs[q], pg) && PteOf(s', s'.procs[q].dir, pg).writable
      ensures Ref(s', FrameOf(s', s'.procs[q].dir, pg)) == 1
    {
      assert q != child;
      assert LooksLike(s, s.procs[q], s', s'.procs[q]) && SpaceOk(s, s.procs[q]);
      var f := FrameOf(s, s.procs[q].dir, pg);
      assert Ref(s, f) == 1 && f in s.data && Home(s, f) == pg;
      if Maps(s, p, f) {
        ForkedParent(s, s', parent, child, d, f);
        assert q == parent by { OneMapper(s, f, q, parent); }
        assert false;
      }
      ForkedRef(s, s', parent, child, d, f);
    }
  }

  lemma OneMapper(s: State, f: nat, q: nat, r: nat)
    requires Counted(s) && f in s.data && Ref(s, f) == 1
    requires q in s.procs && r in s.procs && Maps(s, s.procs[q], f) && Maps(s, s.procs[r], f)
    ensures q == r
  {
    hide Maps;
    if q != r { CardAtLeast(Mappers(s, f), q, r); }
  }

  lemma CardAtLeast(a: set<nat>, x: nat, y: nat)
    requires x in a && y in a && x != y
    ensures |a| >= 2
  {
    assert |a| == |a - {x, y}| + 2;
  }

  /** No page the parent maps stays writable for it. */
  lemma ForkedParent(s: State, s': State, parent: nat, child: nat, d: nat, f: nat)
    requires Forked(s, s', parent, child, d) && Maps(s, s.procs[parent], f)
    ensures !PteOf(s', s.procs[parent].dir, Home(s, f)).writable
  {
    hide Softened, Inv, Pdx, Ptx;
    ForkedEntries(s, s', parent, child, d, Home(s, f));
  }

  lemma ForkedEntries(s: State, s': State, parent: nat, child: nat, d: nat, pg: nat)
    requires Forked(s, s', parent, child, d) && Owns(s.procs[parent], pg)
    ensures PteOf(s', s.procs[parent].dir, pg) == PteOf(s', d, pg) && !PteOf(s', d, pg).writable
  {
    hide Softened, Counted, SoleWriters, EntriesOk, PagesOk, Owns;
    ForkedLooks(s, s', parent, child, d);
    var p := s.procs[parent];
    assert SpaceOk(s, p);
    OwnsFills(p, pg);
    hide Fills, Layout, Pdx, Ptx, LooksLike;
    assert Entry(s', d, Pdx(pg)) == Entry(s, p.dir, Pdx(pg)) == Entry(s', p.dir, Pdx(pg));
  }

  lemma ForkedRef(s: State, s': State, parent: nat, child: nat, d: nat, f: nat)
    requires Forked(s, s', parent, child, d) && f in s.data && !Maps(s, s.procs[parent], f)
    ensures Ref(s', f) == Ref(s, f)
  {
    hide Maps, SoleWriters, SpaceOk, Softened;
    NoTable(s, f);
  }

  lemma ForkedSpace(s: State, s': State, parent: nat, child: nat, d: nat, q: nat)
    requires Forked(s, s', parent, child, d) && q in s'.procs
    ensures SpaceOk(s', s'.procs[q])
  {
    hide Shared, Counted, SoleWriters, LooksLike, EntriesOk, PagesOk, Layout, Kinds, Fills, Entry, DirsApart;
    ForkedHomes(s, s', parent, child, d);
    ForkedLooks(s, s', parent, child, d);
    var was := if q == child then parent else q;
    assert SpaceOk(s, s.procs[was]);
    hide Forked, Inv;
    LooksOk(s, s.procs[was], s', s'.procs[q]);
  }

  lemma ForkedInv(s: State, s': State, parent: nat, child: nat, d: nat)
    requires Forked(s, s', parent, child, d)
    ensures Inv(s')
  {
    hide Forked, Counted, SoleWriters, Kinds, SpaceOk, DirsApart;
    ForkedKinds(s, s', parent, child, d);
    ForkedCounted(s, s', parent, child, d);
    ForkedWriters(s, s', parent, child, d);
    forall q | q in s'.procs ensures SpaceOk(s', s'.procs[q]) { ForkedSpace(s, s', parent, child, d, q); }
  }

  /** The new directory is nobody else's. */
  lemma ForkedApart(s: State, s': State, parent: nat, child: nat, d: nat)
    requires Forked(s, s', parent, child, d)
    ensures DirsApart(s')
  {
    hide Counted, SoleWriters, EntriesOk, PagesOk, Layout, Kinds, Shared;
    ForkedHomes(s, s', parent, child, d);
    forall q | q in s.procs ensures s.procs[q].dir in s.dirs { assert SpaceOk(s, s.procs[q]); }
  }

  lemma ForkedKinds(s: State, s': State, parent: nat, child: nat, d: nat)
    requires Forked(s, s', parent, child, d)
    ensures Kinds(s') && DirsApart(s')
  {
    hide Forked, DirsApart;
    ForkedApart(s, s', parent, child, d);
    ForkedHas(s, s', parent, child, d);
    ForkedHomes(s, s', parent, child, d);
    ForkedLengths(s, s', parent, child, d);
    DirAdded(s.data.Keys, s.tables.Keys, s.dirs.Keys, s.refs.Keys, d);
  }

  lemma ForkedLengths(s: State, s': State, parent: nat, child: nat, d: nat)
    requires Forked(s, s', parent, child, d)
    ensures s'.refs.Keys == s.refs.Keys + {d}
    ensures (forall t :: t in s'.tables ==> |s'.tables[t]| == PTE_PER_PDE)
    ensures forall e :: e in s'.dirs ==> |s'.dirs[e]| == PTE_PER_PDE
  {
    hide Counted, SoleWriters, SpaceOk, Fills, PteOf, Owns, Maps, Uses, Entry, DirsApart, NewDir;
    assert s'.tables.Keys == s.tables.Keys;
  }

  lemma DirAdded(a: set<nat>, b: set<nat>, c: set<nat>, all: set<nat>, d: nat)
    requires a !! b && a !! c && b !! c && all == a + b + c && d !in all
    ensures a !! c + {d} && b !! c + {d} && all + {d} == a + b + (c + {d})
  {
  }

  /** The child sees what its parent sees; nobody else sees a change. */
  lemma ForkedViews(s: State, s': State, parent: nat, child: nat, d: nat)
    requires Forked(s, s', parent, child, d)
    ensures Views(s') == Views(s)[child := View(s, s.procs[parent])]
  {
    hide Shared, Inv;
    ForkedHomes(s, s', parent, child, d);
    ForkedLooks(s, s', parent, child, d);
    forall q | q in s.procs ensures View(s', s'.procs[q]) == View(s, s.procs[q]) {
      LooksView(s, s.procs[q], s', s'.procs[q]);
    }
    LooksView(s, s.procs[parent], s', s'.procs[child]);
  }

  lemma LooksView(s: State, p: Proc, s': State, p': Proc)
    requires LooksLike(s, p, s', p') && s'.data == s.data
    ensures View(s', p') == View(s, p)
  {
    SameSpans(p, p');
    hide Owns, FrameOf;
  }
}
