/** Exit drops one reference of everything the process held, and frees what nobody else holds. */
module CowExit {
  import opened Pages
  import opened CowSpec
  import opened CowShare
  import opened CowFault

  // ---------- dropping references ----------

  /** The frames of `hit` whose last reference goes. */
  function Gone(s: State, hit: set<nat>): set<nat> {
    set f | f in hit && Ref(s, f) == 1
  }

  /** One reference of each frame of `hit` is dropped. The directories are another matter. */
  ghost predicate Dropped(s: State, s': State, hit: set<nat>) {
    && hit <= s.refs.Keys && hit !! s.dirs.Keys && s'.procs == s.procs
    && s'.data == s.data - Gone(s, hit) && s'.tables == s.tables - Gone(s, hit)
    && s'.home == s.home - Gone(s, hit) && s'.slot == s.slot - Gone(s, hit)
    && s'.refs.Keys == s.refs.Keys - Gone(s, hit)
    && forall f :: f in s'.refs ==> s'.refs[f] == s.refs[f] - if f in hit then 1 else 0
  }

  lemma DropRefIs(s: State, f: nat)
    requires f in s.refs && f !in s.dirs
    ensures Dropped(s, DropRef(s, f), {f}) && DropRef(s, f).dirs == s.dirs
  {
    assert Gone(s, {f}) == if Ref(s, f) == 1 then {f} else {};
  }

  lemma DroppedNone(s: State)
    ensures Dropped(s, s, {})
  {
    assert Gone(s, {}) == {};
  }

  lemma DroppedJoin(s: State, m: State, s': State, a: set<nat>, b: set<nat>)
    requires Dropped(s, m, a) && Dropped(m, s', b) && a !! b && b !! s.dirs.Keys
    ensures Dropped(s, s', a + b)
  {
    assert forall f :: f in b ==> f in m.refs.Keys && Ref(m, f) == Ref(s, f);
    assert Gone(s, a + b) == Gone(s, a) + Gone(m, b);
    assert a + b <= s.refs.Keys;
    hide Gone;
  }

  // ---------- pages ----------

  ghost predicate PagesHeld(s: State, d: nat, lo: nat, hi: nat) {
    && s.data.Keys !! s.tables.Keys && s.data.Keys !! s.dirs.Keys && s.data.Keys <= s.refs.Keys
    && forall pg: nat :: lo <= pg < hi ==> FrameOf(s, d, pg) in s.data && Home(s, FrameOf(s, d, pg)) == pg
  }

  function PageHits(s: State, d: nat, lo: nat, hi: nat): set<nat> {
    set pg | lo <= pg < hi :: FrameOf(s, d, pg)
  }

  /** Dropping data frames changes no translation. */
  lemma DroppedLookup(s: State, s': State, hit: set<nat>, d: nat, pg: nat)
    requires Dropped(s, s', hit) && s'.dirs == s.dirs && hit !! s.tables.Keys
    ensures PteOf(s', d, pg) == PteOf(s, d, pg)
  {
    assert s'.tables == s.tables by { assert Gone(s, hit) <= hit; }
  }

  lemma {:induction false} DropPagesFacts(s: State, d: nat, lo: nat, hi: nat)
    requires PagesHeld(s, d, lo, hi)
    ensures var s' := DropPages(s, d, lo, hi);
      Dropped(s, s', PageHits(s, d, lo, hi)) && s'.dirs == s.dirs
    decreases hi
  {
    if lo < hi {
      var m := DropPages(s, d, lo, hi - 1);
      DropPagesFacts(s, d, lo, hi - 1);
      DropPagesStep(s, m, d, lo, hi);
      assert DropPages(s, d, lo, hi) == DropPage(m, d, hi - 1);
    } else {
      assert PageHits(s, d, lo, hi) == {};
      DroppedNone(s);
    }
  }

  lemma DropPagesStep(s: State, m: State, d: nat, lo: nat, hi: nat)
    requires lo < hi && PagesHeld(s, d, lo, hi) && Dropped(s, m, PageHits(s, d, lo, hi - 1)) && m.dirs == s.dirs
    ensures var s' := DropPage(m, d, hi - 1);
      Dropped(s, s', PageHits(s, d, lo, hi)) && s'.dirs == s.dirs
  {
    var f := FrameOf(s, d, hi - 1);
    var hit := PageHits(s, d, lo, hi - 1);
    HitsMore(s, d, lo, hi);
    hide PageHits, PteOf;
    assert hit !! s.tables.Keys;
    DroppedLookup(s, m, hit, d, hi - 1);
    assert f in m.refs.Keys;
    hide Dropped, PagesHeld;
    DropRefIs(m, f);
    DroppedJoin(s, m, DropPage(m, d, hi - 1), hit, {f});
  }

  lemma HitsMore(s: State, d: nat, lo: nat, hi: nat)
    requires lo < hi && PagesHeld(s, d, lo, hi)
    ensures PageHits(s, d, lo, hi) == PageHits(s, d, lo, hi - 1) + {FrameOf(s, d, hi - 1)}
    ensures PageHits(s, d, lo, hi - 1) !! {FrameOf(s, d, hi - 1)}
    ensures PageHits(s, d, lo, hi) <= s.data.Keys && FrameOf(s, d, hi - 1) in s.data && FrameOf(s, d, hi - 1) !in s.dirs
  {
    hide PteOf;
    var h, k := PageHits(s, d, lo, hi), PageHits(s, d, lo, hi - 1);
    forall f | f in h ensures f in k + {FrameOf(s, d, hi - 1)} {
      var pg :| lo <= pg < hi && f == FrameOf(s, d, pg);
      assert pg == hi - 1 || pg < hi - 1;
    }
  }

  // ---------- tables ----------

  ghost predicate TablesHeld(s: State, d: nat, lo: nat, hi: nat) {
    && s.tables.Keys !! s.dirs.Keys && s.tables.Keys <= s.refs.Keys && hi <= PTE_PER_PDE
    && d in s.dirs && |s.dirs[d]| == PTE_PER_PDE
    && forall i :: lo <= i < hi ==>
      Entry(s, d, i).Table? && Entry(s, d, i).frame in s.tables && Slot(s, Entry(s, d, i).frame) == i
  }

  function TableHits(s: State, d: nat, lo: nat, hi: nat): set<nat> {
    set i | lo <= i < hi && Entry(s, d, i).Table? :: Entry(s, d, i).frame
  }

  /** Entries `lo` to `hi` of directory `d` are gone, the rest as it was. */
  ghost predicate Cleared(s: State, s': State, d: nat, lo: nat, hi: nat) {
    && s'.dirs.Keys == s.dirs.Keys && (forall e :: e in s.dirs ==> |s'.dirs[e]| == |s.dirs[e]|)
    && (forall e :: e in s.dirs && e != d ==> s'.dirs[e] == s.dirs[e])
    && forall i :: Entry(s', d, i) == if lo <= i < hi then Absent else Entry(s, d, i)
  }

  lemma {:induction false} DropTablesFacts(s: State, d: nat, lo: nat, hi: nat)
    requires TablesHeld(s, d, lo, hi)
    ensures var s' := DropTables(s, d, lo, hi);
      Dropped(s, s', TableHits(s, d, lo, hi)) && Cleared(s, s', d, lo, hi)
    decreases hi
  {
    hide Cleared, Dropped, TableHits, DropTable, Entry, Slot;
    if lo < hi {
      var m := DropTables(s, d, lo, hi - 1);
      assert TablesHeld(s, d, lo, hi - 1);
      hide TablesHeld;
      DropTablesFacts(s, d, lo, hi - 1);
      DropTablesStep(s, m, d, lo, hi);
      assert DropTables(s, d, lo, hi) == DropTable(m, d, hi - 1);
    } else {
      NoTableHits(s, d, lo, hi);
    }
  }

  lemma NoTableHits(s: State, d: nat, lo: nat, hi: nat)
    requires hi <= lo
    ensures Dropped(s, s, TableHits(s, d, lo, hi)) && Cleared(s, s, d, lo, hi)
  {
    assert TableHits(s, d, lo, hi) == {};
    DroppedNone(s);
  }

  lemma DropTablesStep(s: State, m: State, d: nat, lo: nat, hi: nat)
    requires lo < hi && TablesHeld(s, d, lo, hi)
    requires Dropped(s, m, TableHits(s, d, lo, hi - 1)) && Cleared(s, m, d, lo, hi - 1)
    ensures var s' := DropTable(m, d, hi - 1);
      Dropped(s, s', TableHits(s, d, lo, hi)) && Cleared(s, s', d, lo, hi)
  {
    hide TableHits, Gone, DropTable;
    var hit := TableHits(s, d, lo, hi - 1);
    var t := Entry(s, d, hi - 1).frame;
    assert Entry(s, d, hi - 1).Table? && t in s.tables;
    TableHitsMore(s, d, lo, hi);
    ClearedAt(s, m, d, lo, hi - 1);
    hide Entry, Slot;
    assert t in m.refs && t !in m.dirs by { UnhitTable(s, m, hit, t); }
    hide Dropped, TablesHeld, Cleared;
    DropTableIs(m, d, hi - 1, t);
    ClearedMore(s, m, DropTable(m, d, hi - 1), d, lo, hi);
    DroppedJoin(s, m, DropTable(m, d, hi - 1), hit, {t});
  }

  lemma ClearedAt(s: State, m: State, d: nat, lo: nat, i: nat)
    requires Cleared(s, m, d, lo, i)
    ensures Entry(m, d, i) == Entry(s, d, i) && m.dirs.Keys == s.dirs.Keys
  {
    hide Entry;
  }

  lemma UnhitTable(s: State, m: State, hit: set<nat>, t: nat)
    requires Dropped(s, m, hit) && t in s.refs && t !in hit && t !in s.dirs && m.dirs.Keys == s.dirs.Keys
    ensures t in m.refs && t !in m.dirs
  {
    assert t !in Gone(s, hit);
    hide Gone;
    assert t in m.refs.Keys && t !in m.dirs.Keys;
  }

  lemma ClearedMore(s: State, m: State, s': State, d: nat, lo: nat, hi: nat)
    requires lo < hi && Cleared(s, m, d, lo, hi - 1) && Cleared(m, s', d, hi - 1, hi)
    ensures Cleared(s, s', d, lo, hi)
  {
  }

  lemma DropTableIs(s: State, d: nat, i: nat, t: nat)
    requires Entry(s, d, i) == Table(t) && t in s.refs && t !in s.dirs
    ensures Dropped(s, DropTable(s, d, i), {t}) && Cleared(s, DropTable(s, d, i), d, i, i + 1)
  {
    DropRefIs(s, t);
  }

  lemma TableHitsMore(s: State, d: nat, lo: nat, hi: nat)
    requires lo < hi && TablesHeld(s, d, lo, hi)
    ensures TableHits(s, d, lo, hi) == TableHits(s, d, lo, hi - 1) + {Entry(s, d, hi - 1).frame}
    ensures TableHits(s, d, lo, hi - 1) !! {Entry(s, d, hi - 1).frame}
    ensures TableHits(s, d, lo, hi) <= s.tables.Keys
  {
    hide Entry;
    var h, k := TableHits(s, d, lo, hi), TableHits(s, d, lo, hi - 1);
    forall f | f in h ensures f in k + {Entry(s, d, hi - 1).frame} {
      var i :| lo <= i < hi && Entry(s, d, i).Table? && f == Entry(s, d, i).frame;
      assert i == hi - 1 || i < hi - 1;
    }
  }

  // ---------- a part of the address space: its pages, then its tables ----------

  function DropPart(s: State, d: nat, ps: Span, ts: Span): State {
    DropTables(DropPages(s, d, ps.lo, ps.hi), d, ts.lo, ts.hi)
  }

  function PartHits(s: State, d: nat, ps: Span, ts: Span): set<nat> {
    PageHits(s, d, ps.lo, ps.hi) + TableHits(s, d, ts.lo, ts.hi)
  }

  ghost predicate PartHeld(s: State, d: nat, ps: Span, ts: Span) {
    && PagesHeld(s, d, ps.lo, ps.hi) && TablesHeld(s, d, ts.lo, ts.hi)
    && forall pg: nat :: ps.Has(pg) ==>
      var e := Entry(s, d, Pdx(pg)); e.Table? && e.frame in s.tables && Slot(s, e.frame) == Pdx(pg)
  }

  lemma PageHitsAre(s: State, d: nat, lo: nat, hi: nat)
    requires PagesHeld(s, d, lo, hi)
    ensures PageHits(s, d, lo, hi) <= s.data.Keys
    ensures forall f :: f in PageHits(s, d, lo, hi) ==> lo <= Home(s, f) < hi && FrameOf(s, d, Home(s, f)) == f
  {
    hide PteOf;
  }

  lemma TableHitsAre(s: State, d: nat, lo: nat, hi: nat)
    requires TablesHeld(s, d, lo, hi)
    ensures TableHits(s, d, lo, hi) <= s.tables.Keys
    ensures forall t :: t in TableHits(s, d, lo, hi) ==> lo <= Slot(s, t) < hi && Entry(s, d, Slot(s, t)) == Table(t)
  {
    hide Entry;
  }

  lemma TablesAfterPages(s: State, m: State, d: nat, hit: set<nat>, lo: nat, hi: nat)
    requires TablesHeld(s, d, lo, hi) && Dropped(s, m, hit) && hit !! s.tables.Keys && m.dirs == s.dirs
    ensures TablesHeld(m, d, lo, hi) && TableHits(m, d, lo, hi) == TableHits(s, d, lo, hi)
  {
    assert Gone(s, hit) <= hit;
    assert m.tables == s.tables && forall i :: Entry(m, d, i) == Entry(s, d, i);
    assert forall t :: t in s.tables ==> Slot(m, t) == Slot(s, t);
  }

  lemma DropPartFacts(s: State, d: nat, ps: Span, ts: Span)
    requires PartHeld(s, d, ps, ts)
    ensures var s' := DropPart(s, d, ps, ts);
      Dropped(s, s', PartHits(s, d, ps, ts)) && Cleared(s, s', d, ts.lo, ts.hi)
  {
    var m := DropPages(s, d, ps.lo, ps.hi);
    var a, b := PageHits(s, d, ps.lo, ps.hi), TableHits(s, d, ts.lo, ts.hi);
    DropPagesFacts(s, d, ps.lo, ps.hi);
    PageHitsAre(s, d, ps.lo, ps.hi);
    TableHitsAre(s, d, ts.lo, ts.hi);
    assert a !! s.tables.Keys && a !! b && b !! s.dirs.Keys;
    TablesAfterPages(s, m, d, a, ts.lo, ts.hi);
    DropTablesFacts(m, d, ts.lo, ts.hi);
    hide PageHits, TableHits, DropPages, DropTables, PagesHeld, TablesHeld, Dropped, Cleared, FrameOf, Entry;
    DroppedJoin(s, m, DropPart(s, d, ps, ts), a, b);
    ClearedAfter(s, m, DropPart(s, d, ps, ts), d, ts.lo, ts.hi);
  }

  lemma ClearedAfter(s: State, m: State, s': State, d: nat, lo: nat, hi: nat)
    requires m.dirs == s.dirs && Cleared(m, s', d, lo, hi)
    ensures Cleared(s, s', d, lo, hi)
  {
  }

  /** The part `ps2`, `ts2` shares no page and no table with `ps`, `ts`. */
  ghost predicate Beside(ps: Span, ts: Span, ps2: Span, ts2: Span) {
    && (forall pg: nat :: ps2.Has(pg) ==> !ps.Has(pg) && !ts.Has(Pdx(pg)))
    && forall i :: ts2.Has(i) ==> !ts.Has(i)
  }

  lemma PartHitsAre(s: State, d: nat, ps: Span, ts: Span, f: nat)
    requires PartHeld(s, d, ps, ts) && f in PartHits(s, d, ps, ts)
    ensures if f in s.data then ps.Has(Home(s, f)) else f in s.tables && ts.Has(Slot(s, f))
  {
    PageHitsAre(s, d, ps.lo, ps.hi);
    TableHitsAre(s, d, ts.lo, ts.hi);
    hide PageHits, TableHits, FrameOf, Entry, Home, Slot;
  }

  /** A frame or table outside the hits is as it was, up to its count. */
  lemma Unhit(s: State, s': State, hit: set<nat>, f: nat)
    requires Dropped(s, s', hit) && f !in hit
    ensures f in s.data ==> f in s'.data && Home(s', f) == Home(s, f)
    ensures f in s.tables ==> f in s'.tables && s'.tables[f] == s.tables[f] && Slot(s', f) == Slot(s, f)
    ensures f in s.refs ==> f in s'.refs && Ref(s', f) == Ref(s, f)
  {
    assert f !in Gone(s, hit);
  }

  lemma Shrunk(s: State, s': State, hit: set<nat>)
    requires Dropped(s, s', hit)
    ensures s'.data.Keys <= s.data.Keys && s'.tables.Keys <= s.tables.Keys && s'.refs.Keys <= s.refs.Keys
    ensures s.data.Keys <= s.refs.Keys ==> s'.data.Keys <= s'.refs.Keys
    ensures s.tables.Keys <= s.refs.Keys ==> s'.tables.Keys <= s'.refs.Keys
  {
  }

  lemma PageAfterPart(s: State, s': State, d: nat, ps: Span, ts: Span, pg: nat)
    requires PartHeld(s, d, ps, ts) && Dropped(s, s', PartHits(s, d, ps, ts)) && Cleared(s, s', d, ts.lo, ts.hi)
    requires !ps.Has(pg) && !ts.Has(Pdx(pg)) && FrameOf(s, d, pg) in s.data && Home(s, FrameOf(s, d, pg)) == pg
    requires var e := Entry(s, d, Pdx(pg)); e.Table? && e.frame in s.tables && Slot(s, e.frame) == Pdx(pg)
    ensures PteOf(s', d, pg) == PteOf(s, d, pg) && Entry(s', d, Pdx(pg)) == Entry(s, d, Pdx(pg))
    ensures FrameOf(s, d, pg) in s'.data && Home(s', FrameOf(s, d, pg)) == pg
    ensures FrameOf(s, d, pg) !in PartHits(s, d, ps, ts)
    ensures var t := Entry(s, d, Pdx(pg)).frame; t in s'.tables && Slot(s', t) == Pdx(pg)
  {
    var t, f := Entry(s, d, Pdx(pg)).frame, FrameOf(s, d, pg);
    var hit := PartHits(s, d, ps, ts);
    if t in hit { PartHitsAre(s, d, ps, ts, t); }
    if f in hit { PartHitsAre(s, d, ps, ts, f); }
    Unhit(s, s', hit, t);
    Unhit(s, s', hit, f);
    hide Dropped, PartHits, PartHeld, Pdx, Ptx;
  }

  lemma TableAfterPart(s: State, s': State, d: nat, ps: Span, ts: Span, i: int)
    requires PartHeld(s, d, ps, ts) && Dropped(s, s', PartHits(s, d, ps, ts)) && Cleared(s, s', d, ts.lo, ts.hi)
    requires !ts.Has(i) && Entry(s, d, i).Table? && Entry(s, d, i).frame in s.tables
    requires Slot(s, Entry(s, d, i).frame) == i
    ensures Entry(s', d, i) == Entry(s, d, i) && Entry(s, d, i).frame !in PartHits(s, d, ps, ts)
    ensures var t := Entry(s, d, i).frame; t in s'.tables && Slot(s', t) == i
  {
    var t := Entry(s, d, i).frame;
    var hit := PartHits(s, d, ps, ts);
    if t in hit { PartHitsAre(s, d, ps, ts, t); }
    Unhit(s, s', hit, t);
    hide Dropped, PartHits, PartHeld;
  }

  lemma HeldSizes(s: State, s': State, d: nat, ps: Span, ts: Span, hit: set<nat>, cleared: Span)
    requires PartHeld(s, d, ps, ts) && Dropped(s, s', hit) && Cleared(s, s', d, cleared.lo, cleared.hi)
    ensures s'.data.Keys !! s'.tables.Keys && s'.data.Keys !! s'.dirs.Keys && s'.data.Keys <= s'.refs.Keys
    ensures s'.tables.Keys !! s'.dirs.Keys && s'.tables.Keys <= s'.refs.Keys && ts.hi <= PTE_PER_PDE
    ensures d in s'.dirs && |s'.dirs[d]| == PTE_PER_PDE
  {
    Shrunk(s, s', hit);
    hide Gone, FrameOf, Entry, Home, Slot, Pdx;
  }

  /** Another part is untouched. */
  lemma HeldAfterPart(s: State, s': State, d: nat, ps: Span, ts: Span, ps2: Span, ts2: Span)
    requires PartHeld(s, d, ps, ts) && PartHeld(s, d, ps2, ts2) && Beside(ps, ts, ps2, ts2)
    requires Dropped(s, s', PartHits(s, d, ps, ts)) && Cleared(s, s', d, ts.lo, ts.hi)
    ensures PartHeld(s', d, ps2, ts2) && PartHits(s', d, ps2, ts2) == PartHits(s, d, ps2, ts2)
    ensures PartHits(s, d, ps2, ts2) !! PartHits(s, d, ps, ts)
  {
    var hit := PartHits(s, d, ps, ts);
    HeldSizes(s, s', d, ps2, ts2, hit, ts);
    hide PartHits, Cleared, Dropped;
    forall pg: nat | ps2.Has(pg)
      ensures FrameOf(s', d, pg) == FrameOf(s, d, pg) && Entry(s', d, Pdx(pg)) == Entry(s, d, Pdx(pg))
      ensures FrameOf(s, d, pg) in s'.data && Home(s', FrameOf(s, d, pg)) == pg && FrameOf(s, d, pg) !in hit
      ensures var t := Entry(s, d, Pdx(pg)).frame; t in s'.tables && Slot(s', t) == Pdx(pg)
    {
      PageAfterPart(s, s', d, ps, ts, pg);
    }
    forall i | ts2.Has(i)
      ensures Entry(s', d, i) == Entry(s, d, i) && Entry(s, d, i).frame !in hit
      ensures var t := Entry(s, d, i).frame; t in s'.tables && Slot(s', t) == i
    {
      TableAfterPart(s, s', d, ps, ts, i);
    }
    hide FrameOf, Entry, Home, Slot, Pdx, Beside;
    SamePartHits(s, s', d, ps2, ts2, hit);
  }

  lemma SamePartHits(s: State, s': State, d: nat, ps: Span, ts: Span, hit: set<nat>)
    requires forall pg: nat :: ps.Has(pg) ==> FrameOf(s', d, pg) == FrameOf(s, d, pg) && FrameOf(s, d, pg) !in hit
    requires forall i :: ts.Has(i) ==>
      Entry(s', d, i) == Entry(s, d, i) && Entry(s, d, i).Table? && Entry(s, d, i).frame !in hit
    ensures PartHits(s', d, ps, ts) == PartHits(s, d, ps, ts) && PartHits(s, d, ps, ts) !! hit
  {
    hide FrameOf, Entry;
    assert PageHits(s', d, ps.lo, ps.hi) == PageHits(s, d, ps.lo, ps.hi) by {
      assert forall pg: nat :: ps.lo <= pg < ps.hi ==> ps.Has(pg);
    }
    assert TableHits(s', d, ts.lo, ts.hi) == TableHits(s, d, ts.lo, ts.hi) by {
      assert forall i :: ts.lo <= i < ts.hi ==> ts.Has(i);
    }
  }

  // ---------- the whole exit ----------

  function ExitHits(s: State, p: Proc): set<nat> {
    PartHits(s, p.dir, StackPages(p), StackTables(p)) + PartHits(s, p.dir, ImagePages(p), DroppedTables(p))
  }

  /** A part of a space in order is held. */
  lemma PartOf(s: State, p: Proc, ps: Span, ts: Span)
    requires Kinds(s) && SpaceOk(s, p) && ts.hi <= PTE_PER_PDE
    requires forall pg: nat :: ps.Has(pg) ==> Owns(p, pg)
    requires forall i :: ts.Has(i) ==> Fills(p, i)
    ensures PartHeld(s, p.dir, ps, ts)
  {
    assert s.data.Keys <= s.refs.Keys && s.tables.Keys <= s.refs.Keys && |s.dirs[p.dir]| == PTE_PER_PDE;
    hide PteOf, Owns, Fills, Entry, Home, Slot, Pdx;
    forall pg: nat | Owns(p, pg)
      ensures var e := Entry(s, p.dir, Pdx(pg)); e.Table? && e.frame in s.tables && Slot(s, e.frame) == Pdx(pg)
    {
      OwnsFills(p, pg);
    }
    hide Layout;
  }

  lemma PartsBeside(p: Proc)
    requires Layout(p)
    ensures Beside(StackPages(p), StackTables(p), ImagePages(p), DroppedTables(p))
  {
    forall pg: nat | ImagePages(p).Has(pg) ensures !StackPages(p).Has(pg) && !StackTables(p).Has(Pdx(pg)) {
      OwnsFills(p, pg);
      PagesApart(p, pg);
      FillsApart(p, Pdx(pg));
    }
    forall i | DroppedTables(p).Has(i) ensures !StackTables(p).Has(i) {
      assert ImageTables(p).Has(i);
      FillsApart(p, i);
    }
    hide Layout, StackPages, StackTables, ImagePages, DroppedTables, Pdx;
  }

  lemma SpaceHeld(s: State, p: Proc)
    requires Kinds(s) && SpaceOk(s, p)
    ensures PartHeld(s, p.dir, StackPages(p), StackTables(p)) && PartHeld(s, p.dir, ImagePages(p), DroppedTables(p))
    ensures Beside(StackPages(p), StackTables(p), ImagePages(p), DroppedTables(p))
  {
    PartsBeside(p);
    FillsApart(p, StackTables(p).hi - 1);
    FillsApart(p, DroppedTables(p).hi - 1);
    assert StackTables(p).hi <= PTE_PER_PDE && DroppedTables(p).hi <= PTE_PER_PDE;
    hide Kinds, SpaceOk, PartHeld, Beside, Layout;
    assert forall i :: DroppedTables(p).Has(i) ==> ImageTables(p).Has(i);
    hide StackPages, StackTables, ImagePages, DroppedTables;
    PartOf(s, p, StackPages(p), StackTables(p));
    PartOf(s, p, ImagePages(p), DroppedTables(p));
  }

  /** What exit does, given what it drops: `m` is the heap before the directory goes. */
  ghost predicate Exited(s: State, m: State, s': State, pid: nat, hit: set<nat>) {
    && pid in s.procs && Dropped(s, m, hit)
    && m.dirs.Keys == s.dirs.Keys && (forall e :: e in s.dirs && e != s.procs[pid].dir ==> m.dirs[e] == s.dirs[e])
    && s' == FreeFrame(m, s.procs[pid].dir).(procs := s.procs - {pid})
  }

  lemma ExitIs(s: State, pid: nat) returns (m: State)
    requires Inv(s) && pid in s.procs
    ensures Exited(s, m, Exit(s, pid), pid, ExitHits(s, s.procs[pid]))
  {
    var p := s.procs[pid];
    var s1 := DropPart(s, p.dir, StackPages(p), StackTables(p));
    m := DropPart(s1, p.dir, ImagePages(p), DroppedTables(p));
    assert Exit(s, pid) == FreeFrame(m, p.dir).(procs := s.procs - {pid});
    assert Kinds(s) && SpaceOk(s, p);
    hide Inv, Exit, DropPart, PartHits, Beside, PartHeld, SpaceOk, Kinds;
    SpaceHeld(s, p);
    DropPartFacts(s, p.dir, StackPages(p), StackTables(p));
    HeldAfterPart(s, s1, p.dir, StackPages(p), StackTables(p), ImagePages(p), DroppedTables(p));
    DropPartFacts(s1, p.dir, ImagePages(p), DroppedTables(p));
    hide StackPages, StackTables, ImagePages, DroppedTables, Entry;
    DroppedTwice(s, s1, m, PartHits(s, p.dir, StackPages(p), StackTables(p)),
                 PartHits(s, p.dir, ImagePages(p), DroppedTables(p)));
  }

  lemma DroppedTwice(s: State, m: State, s': State, a: set<nat>, b: set<nat>)
    requires Dropped(s, m, a) && Dropped(m, s', b) && b !! a && m.dirs.Keys == s.dirs.Keys
    ensures Dropped(s, s', a + b)
  {
    assert b !! s.dirs.Keys;
    hide Dropped;
    DroppedJoin(s, m, s', a, b);
  }

  /** The tables exit drops a reference of: those the process points to, but not the table
      of `program_break`. */
  predicate Drops(s: State, p: Proc, t: nat) {
    Uses(s, p, t) && !(p.image.Image? && Slot(s, t) == Region(p.image.end))
  }

  lemma DropsAre(s: State, p: Proc, t: nat)
    requires Layout(p)
    ensures Drops(s, p, t) <==>
      (StackTables(p).Has(Slot(s, t)) || DroppedTables(p).Has(Slot(s, t))) && Entry(s, p.dir, Slot(s, t)) == Table(t)
  {
    hide Entry, Slot;
  }

  /** Exit drops exactly the data frames the process maps, and of the tables it points to
      all but one. */
  lemma HitsMean(s: State, p: Proc, f: nat)
    requires Kinds(s) && SpaceOk(s, p)
    ensures f in s.data ==> (f in ExitHits(s, p) <==> Maps(s, p, f))
    ensures f in s.tables ==> (f in ExitHits(s, p) <==> Drops(s, p, f))
    ensures ExitHits(s, p) <= s.data.Keys + s.tables.Keys
  {
    SpaceHeld(s, p);
    DropsAre(s, p, f);
    HitsPart(s, p.dir, StackPages(p), StackTables(p), f);
    HitsPart(s, p.dir, ImagePages(p), DroppedTables(p), f);
    hide PartHits, PartHeld, FrameOf, Entry, Home, Slot, Drops;
    hide StackPages, StackTables, ImagePages, ImageTables, DroppedTables, Layout, EntriesOk, PagesOk;
  }

  lemma HitsPart(s: State, d: nat, ps: Span, ts: Span, f: nat)
    requires Kinds(s) && PartHeld(s, d, ps, ts)
    ensures PartHits(s, d, ps, ts) <= s.data.Keys + s.tables.Keys
    ensures f in s.data ==>
      (f in PartHits(s, d, ps, ts) <==> ps.Has(Home(s, f)) && FrameOf(s, d, Home(s, f)) == f)
    ensures f in s.tables ==>
      (f in PartHits(s, d, ps, ts) <==> ts.Has(Slot(s, f)) && Entry(s, d, Slot(s, f)) == Table(f))
  {
    PageHitsAre(s, d, ps.lo, ps.hi);
    TableHitsAre(s, d, ts.lo, ts.hi);
    hide PteOf, Entry;
    if f in s.data && ps.Has(Home(s, f)) && FrameOf(s, d, Home(s, f)) == f { assert f in PageHits(s, d, ps.lo, ps.hi); }
    if f in s.tables && ts.Has(Slot(s, f)) && Entry(s, d, Slot(s, f)) == Table(f) {
      assert f in TableHits(s, d, ts.lo, ts.hi);
    }
  }

  // ---------- the invariant ----------

  ghost predicate KeptPage(s: State, s': State, p: Proc, f: nat) {
    && (f in s'.data <==> f in s.data && !(Maps(s, p, f) && Ref(s, f) == 1))
    && (f in s'.data ==> s'.data[f] == s.data[f] && Home(s', f) == Home(s, f))
    && (f in s'.data ==> Ref(s', f) == Ref(s, f) - if Maps(s, p, f) then 1 else 0)
  }

  ghost predicate KeptTable(s: State, s': State, p: Proc, t: nat) {
    && (t in s'.tables <==> t in s.tables && !(Drops(s, p, t) && Ref(s, t) == 1))
    && (t in s'.tables ==> s'.tables[t] == s.tables[t] && Slot(s', t) == Slot(s, t))
    && (t in s'.tables ==> Ref(s', t) == Ref(s, t) - if Drops(s, p, t) then 1 else 0)
  }

  /** Who is left, and what it still holds. */
  ghost predicate Left(s: State, s': State, pid: nat) {
    && pid in s.procs && s'.procs == s.procs - {pid} && Inv(s)
    && s'.dirs.Keys == s.dirs.Keys - {s.procs[pid].dir} && (forall e :: e in s'.dirs ==> s'.dirs[e] == s.dirs[e])
    && (forall f :: KeptPage(s, s', s.procs[pid], f)) && forall t :: KeptTable(s, s', s.procs[pid], t)
  }

  lemma ExitedPage(s: State, m: State, s': State, pid: nat, hit: set<nat>, f: nat)
    requires Exited(s, m, s', pid, hit) && s.procs[pid].dir !in s.data && s.data.Keys <= s.refs.Keys
    requires f in s.data ==> (f in hit <==> Maps(s, s.procs[pid], f))
    ensures KeptPage(s, s', s.procs[pid], f)
  {
    hide Maps;
    assert f in Gone(s, hit) <==> f in hit && Ref(s, f) == 1;
    hide Gone;
  }

  lemma ExitedTable(s: State, m: State, s': State, pid: nat, hit: set<nat>, t: nat)
    requires Exited(s, m, s', pid, hit) && s.procs[pid].dir !in s.tables && s.tables.Keys <= s.refs.Keys
    requires t in s.tables ==> (t in hit <==> Drops(s, s.procs[pid], t))
    ensures KeptTable(s, s', s.procs[pid], t)
  {
    hide Drops;
    assert t in Gone(s, hit) <==> t in hit && Ref(s, t) == 1;
    hide Gone;
  }

  lemma ExitedDirs(s: State, m: State, s': State, pid: nat, hit: set<nat>)
    requires Exited(s, m, s', pid, hit)
    ensures s'.procs == s.procs - {pid}
    ensures s'.dirs.Keys == s.dirs.Keys - {s.procs[pid].dir} && forall e :: e in s'.dirs ==> s'.dirs[e] == s.dirs[e]
  {
    hide Gone;
  }

  lemma ExitedKeys(s: State, m: State, s': State, pid: nat, hit: set<nat>)
    requires Exited(s, m, s', pid, hit) && Kinds(s) && s.procs[pid].dir in s.dirs
    ensures var g := Gone(s, hit);
      && s'.data.Keys == s.data.Keys - g && s'.home.Keys == s.data.Keys - g
      && s'.tables.Keys == s.tables.Keys - g && s'.slot.Keys == s.tables.Keys - g
      && s'.refs.Keys == s.refs.Keys - g - {s.procs[pid].dir}
  {
    hide Gone;
    var g, d := Gone(s, hit), s.procs[pid].dir;
    DirIsNoFrame(s, d);
    assert s.home.Keys == s.data.Keys && s.slot.Keys == s.tables.Keys;
    hide Kinds;
    LessKeys(s.data, g, d);
    LessKeys(s.home, g, d);
    LessKeys(s.tables, g, d);
    LessKeys(s.slot, g, d);
    assert s'.refs.Keys == m.refs.Keys - {d};
  }

  lemma LessKeys<V>(a: map<nat, V>, g: set<nat>, d: nat)
    requires d !in a
    ensures (a - g - {d}).Keys == a.Keys - g
  {
  }

  lemma ExitedKinds(s: State, m: State, s': State, pid: nat, hit: set<nat>)
    requires Exited(s, m, s', pid, hit) && Kinds(s) && s.procs[pid].dir in s.dirs && hit <= s.data.Keys + s.tables.Keys
    requires forall f :: KeptPage(s, s', s.procs[pid], f)
    requires forall t :: KeptTable(s, s', s.procs[pid], t)
    ensures Kinds(s')
  {
    var g, d := Gone(s, hit), s.procs[pid].dir;
    assert g <= hit;
    ExitedKeys(s, m, s', pid, hit);
    ExitedDirs(s, m, s', pid, hit);
    LeftLengths(s, s', s.procs[pid]);
    ShrunkApart(s.data.Keys, s.tables.Keys, s.dirs.Keys, s.refs.Keys, g, {d});
    hide Gone, Exited, KeptPage, KeptTable;
  }

  lemma LeftLengths(s: State, s': State, p: Proc)
    requires Kinds(s)
    requires forall f :: KeptPage(s, s', p, f)
    requires forall t :: KeptTable(s, s', p, t)
    requires s'.dirs.Keys <= s.dirs.Keys && forall e :: e in s'.dirs ==> s'.dirs[e] == s.dirs[e]
    ensures Lengths(s')
  {
    hide Maps, Drops;
    forall f | f in s'.data ensures |s'.data[f]| == PG_SIZE { assert KeptPage(s, s', p, f); }
    forall t | t in s'.tables ensures |s'.tables[t]| == PTE_PER_PDE { assert KeptTable(s, s', p, t); }
  }

  /** Three disjoint sets that make up `all` stay so when they shrink. */
  lemma ShrunkApart(a: set<nat>, b: set<nat>, c: set<nat>, all: set<nat>, g: set<nat>, d: set<nat>)
    requires a !! b && a !! c && b !! c && all == a + b + c && g <= a + b && d <= c
    ensures a - g !! b - g && a - g !! c - d && b - g !! c - d && all - g - d == (a - g) + (b - g) + (c - d)
  {
  }

  lemma DirIsNoFrame(s: State, d: nat)
    requires Kinds(s) && d in s.dirs
    ensures d !in s.data && d !in s.tables && s.data.Keys <= s.refs.Keys && s.tables.Keys <= s.refs.Keys
  {
  }

  /** Exit frees a page the process maps, or a table it drops, just when the count is one, and
      lowers the count by one otherwise; everything else keeps its count. */
  lemma ExitLeaves(s: State, pid: nat)
    requires Inv(s) && pid in s.procs
    ensures Left(s, Exit(s, pid), pid) && Kinds(Exit(s, pid))
  {
    hide Exit, ExitHits, Maps, Drops, FrameOf, Exited, KeptPage, KeptTable, Counted, SoleWriters, DirsApart;
    hide Layout, EntriesOk, PagesOk, Entry;
    var p := s.procs[pid];
    var s' := Exit(s, pid);
    var hit := ExitHits(s, p);
    var m := ExitIs(s, pid);
    assert Kinds(s) && SpaceOk(s, p) && p.dir in s.dirs;
    DirIsNoFrame(s, p.dir);
    hide Inv, SpaceOk, Kinds;
    HitsMean(s, p, 0);
    forall f ensures KeptPage(s, s', p, f) && KeptTable(s, s', p, f) {
      HitsMean(s, p, f);
      ExitedPage(s, m, s', pid, hit, f);
      ExitedTable(s, m, s', pid, hit, f);
    }
    ExitedDirs(s, m, s', pid, hit);
    ExitedKinds(s, m, s', pid, hit);
  }

  /** What another process points to stays. */
  lemma LeftFrame(s: State, s': State, pid: nat, q: nat, f: nat)
    requires Left(s, s', pid) && q in s.procs && q != pid
    ensures f in s.data && Maps(s, s.procs[q], f) ==> f in s'.data && (Ref(s, f) == 1 ==> !Maps(s, s.procs[pid], f))
    ensures f in s.tables && Uses(s, s.procs[q], f) ==> f in s'.tables
  {
    hide Maps, Uses, SoleWriters, SpaceOk, Kinds, DirsApart;
    assert KeptPage(s, s', s.procs[pid], f) && KeptTable(s, s', s.procs[pid], f);
    if f in s.data && Maps(s, s.procs[q], f) && Ref(s, f) == 1 && Maps(s, s.procs[pid], f) { OneMapper(s, f, q, pid); }
    if f in s.tables && Uses(s, s.procs[q], f) && Ref(s, f) == 1 && Uses(s, s.procs[pid], f) { OneUser(s, f, q, pid); }
  }

  lemma LeftEntry(s: State, s': State, pid: nat, q: nat)
    requires Left(s, s', pid) && q in s.procs && q != pid
    ensures s.procs[q].dir in s'.dirs && forall i :: Entry(s', s.procs[q].dir, i) == Entry(s, s.procs[q].dir, i)
  {
    hide Counted, SoleWriters, EntriesOk, PagesOk, Layout, KeptPage, KeptTable, Kinds;
    assert SpaceOk(s, s.procs[q]);
  }

  lemma LeftPage(s: State, s': State, pid: nat, q: nat, pg: nat)
    requires Left(s, s', pid) && q in s.procs && q != pid && Owns(s.procs[q], pg)
    ensures PteOf(s', s.procs[q].dir, pg) == PteOf(s, s.procs[q].dir, pg)
    ensures var f := FrameOf(s, s.procs[q].dir, pg);
      f in s.data && f in s'.data && Home(s, f) == pg == Home(s', f) && PageAt(s', f) == PageAt(s, f)
    ensures var f := FrameOf(s, s.procs[q].dir, pg); Ref(s, f) == 1 ==> Ref(s', f) == 1
  {
    var d := s.procs[q].dir;
    var f, t := FrameOf(s, d, pg), TableOf(s, d, pg);
    assert Ready(s, q, pg) by { hide Owns; }
    ReadyFacts(s, q, pg);
    LeftEntry(s, s', pid, q);
    LeftFrame(s, s', pid, q, f);
    LeftFrame(s, s', pid, q, t);
    assert KeptPage(s, s', s.procs[pid], f) && KeptTable(s, s', s.procs[pid], t);
    hide Inv, Maps, Uses, Owns, Ready, Home, Slot, Pdx, Ptx, Entry;
  }

  lemma LeftSpace(s: State, s': State, pid: nat, q: nat)
    requires Left(s, s', pid) && q in s.procs && q != pid
    ensures SpaceOk(s', s.procs[q]) && View(s', s.procs[q]) == View(s, s.procs[q])
  {
    var p := s.procs[q];
    assert SpaceOk(s, p);
    LeftEntry(s, s', pid, q);
    LeftEntries(s, s', pid, q);
    hide Left, Inv, Owns, Fills, PteOf, Layout, Entry, EntriesOk, PagesOk, View;
    LeftPages(s, s', pid, q);
  }

  lemma LeftPages(s: State, s': State, pid: nat, q: nat)
    requires Left(s, s', pid) && q in s.procs && q != pid && PagesOk(s, s.procs[q])
    ensures PagesOk(s', s.procs[q]) && View(s', s.procs[q]) == View(s, s.procs[q])
  {
    var p := s.procs[q];
    hide Left, Owns, PteOf, Home, PageAt, View;
    forall pg: nat | Owns(p, pg)
      ensures PteOf(s', p.dir, pg) == PteOf(s, p.dir, pg)
      ensures FrameOf(s, p.dir, pg) in s'.data && Home(s', FrameOf(s, p.dir, pg)) == pg
      ensures PageAt(s', FrameOf(s, p.dir, pg)) == PageAt(s, FrameOf(s, p.dir, pg))
    {
      LeftPage(s, s', pid, q, pg);
    }
    SameView(s, s', p);
  }

  lemma SameView(s: State, s': State, p: Proc)
    requires forall pg: nat :: Owns(p, pg) ==> PteOf(s', p.dir, pg) == PteOf(s, p.dir, pg)
    requires forall pg: nat :: Owns(p, pg) ==> PageAt(s', FrameOf(s, p.dir, pg)) == PageAt(s, FrameOf(s, p.dir, pg))
    ensures View(s', p) == View(s, p)
  {
    hide Owns, PteOf, PageAt;
  }

  lemma LeftEntries(s: State, s': State, pid: nat, q: nat)
    requires Left(s, s', pid) && q in s.procs && q != pid
    ensures EntriesOk(s', s.procs[q])
  {
    var p := s.procs[q];
    LeftEntry(s, s', pid, q);
    assert SpaceOk(s, p);
    hide Counted, SoleWriters, Kinds, PagesOk, Layout, Fills, Entry, KeptPage, DirsApart, Slot;
    forall i | Fills(p, i)
      ensures var e := Entry(s', p.dir, i); e.Table? && e.frame in s'.tables && Slot(s', e.frame) == i
    {
      var t := Entry(s, p.dir, i).frame;
      LeftFrame(s, s', pid, q, t);
      assert KeptTable(s, s', s.procs[pid], t);
    }
  }

  lemma LeftMaps(s: State, s': State, pid: nat, q: nat, f: nat)
    requires Left(s, s', pid) && q in s.procs && q != pid
    ensures f in s'.data ==> Maps(s', s.procs[q], f) == Maps(s, s.procs[q], f)
    ensures f in s'.tables ==> Uses(s', s.procs[q], f) == Uses(s, s.procs[q], f)
  {
    var h := Home(s, f);
    if Owns(s.procs[q], h) { LeftPage(s, s', pid, q, h); }
    LeftEntry(s, s', pid, q);
    assert KeptPage(s, s', s.procs[pid], f) && KeptTable(s, s', s.procs[pid], f);
    hide Inv, Owns, Fills, Home, Slot, PteOf, Entry;
  }

  lemma LeftMappers(s: State, s': State, pid: nat, f: nat)
    requires Left(s, s', pid)
    ensures f in s'.data ==> Mappers(s', f) == Mappers(s, f) - {pid}
    ensures f in s'.tables ==> Users(s', f) == Users(s, f) - {pid}
  {
    assert s'.procs == s.procs - {pid};
    hide Left, Maps, Uses;
    forall q | q in s.procs && q != pid
      ensures f in s'.data ==> Maps(s', s.procs[q], f) == Maps(s, s.procs[q], f)
      ensures f in s'.tables ==> Uses(s', s.procs[q], f) == Uses(s, s.procs[q], f)
    {
      LeftMaps(s, s', pid, q, f);
    }
  }

  lemma LeftCounted(s: State, s': State, pid: nat)
    requires Left(s, s', pid)
    ensures Counted(s')
  {
    hide Mappers, Users, Maps, Uses, SoleWriters, Kinds, SpaceOk, DirsApart;
    forall f | f in s'.data ensures Ref(s', f) == |Mappers(s', f)| && Ref(s', f) > 0 {
      LeftMappers(s, s', pid, f);
      InMappers(s, pid, f);
      assert KeptPage(s, s', s.procs[pid], f);
    }
    forall t | t in s'.tables ensures Ref(s', t) >= |Users(s', t)| {
      LeftMappers(s, s', pid, t);
      InMappers(s, pid, t);
      assert KeptTable(s, s', s.procs[pid], t);
    }
  }

  lemma LeftWriters(s: State, s': State, pid: nat)
    requires Left(s, s', pid)
    ensures SoleWriters(s')
  {
    hide Counted, Kinds, SpaceOk, KeptPage, KeptTable, PteOf, Owns, DirsApart;
    forall q, pg: nat | q in s'.procs && Owns(s'.procs[q], pg) && PteOf(s', s'.procs[q].dir, pg).writable
      ensures Ref(s', FrameOf(s', s'.procs[q].dir, pg)) == 1
    {
      LeftPage(s, s', pid, q, pg);
    }
  }

  /** Exit takes the process away, changes nobody else's view, frees a page exactly when nobody
      else maps it, and frees a table exactly when it drops the last reference counted. */
  lemma ExitRefines(s: State, pid: nat)
    requires Inv(s) && pid in s.procs
    ensures var s' := Exit(s, pid);
      && Inv(s') && s'.procs == s.procs - {pid} && Views(s') == Views(s) - {pid}
      && (forall f :: f in s.data ==> (f !in s'.data <==> Mappers(s, f) <= {pid}))
      && forall t :: t in s.tables ==>
        && (t !in s'.tables <==> Drops(s, s.procs[pid], t) && Ref(s, t) == 1)
        && (t in s'.tables ==> Ref(s', t) == Ref(s, t) - if Drops(s, s.procs[pid], t) then 1 else 0)
  {
    var s' := Exit(s, pid);
    ExitLeaves(s, pid);
    assert s'.procs == s.procs - {pid} && DirsApart(s) && DirsApart(s');
    hide Exit, Left, Inv, Kinds, Counted, SoleWriters, SpaceOk, View, Views, Mappers, DirsApart, KeptTable, Drops;
    LeftCounted(s, s', pid);
    LeftWriters(s, s', pid);
    forall q | q in s.procs && q != pid
      ensures SpaceOk(s', s.procs[q]) && View(s', s.procs[q]) == View(s, s.procs[q])
    {
      LeftSpace(s, s', pid, q);
    }
    forall f | f in s.data ensures f !in s'.data <==> Mappers(s, f) <= {pid} { FreedExactly(s, s', pid, f); }
    forall t | t in s.tables
      ensures t !in s'.tables <==> Drops(s, s.procs[pid], t) && Ref(s, t) == 1
      ensures t in s'.tables ==> Ref(s', t) == Ref(s, t) - if Drops(s, s.procs[pid], t) then 1 else 0
    {
      LeftTable(s, s', pid, t);
    }
    InvIs(s');
    LeftViews(s, s', pid);
  }

  lemma LeftTable(s: State, s': State, pid: nat, t: nat)
    requires Left(s, s', pid) && t in s.tables
    ensures t !in s'.tables <==> Drops(s, s.procs[pid], t) && Ref(s, t) == 1
    ensures t in s'.tables ==> Ref(s', t) == Ref(s, t) - if Drops(s, s.procs[pid], t) then 1 else 0
  {
    hide KeptPage, Inv, Drops;
    assert KeptTable(s, s', s.procs[pid], t);
  }

  lemma LeftViews(s: State, s': State, pid: nat)
    requires s'.procs == s.procs - {pid}
    requires forall q :: q in s.procs && q != pid ==> View(s', s.procs[q]) == View(s, s.procs[q])
    ensures Views(s') == Views(s) - {pid}
  {
    hide View;
  }

  lemma OneOrNone(a: set<nat>, x: nat)
    requires a <= {x}
    ensures a == {} || a == {x}
  {
  }

  lemma FreedExactly(s: State, s': State, pid: nat, f: nat)
    requires Left(s, s', pid) && f in s.data
    ensures f !in s'.data <==> Mappers(s, f) <= {pid}
  {
    hide Maps, SoleWriters, Kinds, SpaceOk, DirsApart;
    assert KeptPage(s, s', s.procs[pid], f);
    InMappers(s, pid, f);
    if f !in s'.data {
      forall q | q in Mappers(s, f) ensures q == pid { OneMapper(s, f, q, pid); }
    } else if Mappers(s, f) <= {pid} {
      OneOrNone(Mappers(s, f), pid);
    }
  }
}
