/** A write fault, and fork's private message page, keep the invariant and every view. */
module CowFault {
  import opened Pages
  import opened CowSpec
  import opened CowShare

  /** Page `pg` of process `pid` has the entry `e` now; no other page of anybody changed. */
  ghost predicate Repointed(s: State, s': State, pid: nat, pg: nat, e: Pte) {
    && s'.procs == s.procs
    && forall q, x: nat :: q in s.procs && Owns(s.procs[q], x) ==>
      PteOf(s', s.procs[q].dir, x) == if q == pid && x == pg then e else PteOf(s, s.procs[q].dir, x)
  }

  ghost predicate Ready(s: State, pid: nat, pg: nat) {
    Inv(s) && pid in s.procs && Owns(s.procs[pid], pg)
  }

  lemma ReadyKinds(s: State, pid: nat, pg: nat)
    requires Ready(s, pid, pg)
    ensures Kinds(s)
  {
  }

  /** What `Ready` says of the page. */
  lemma ReadyFacts(s: State, pid: nat, pg: nat)
    requires Ready(s, pid, pg)
    ensures var d := s.procs[pid].dir;
      && d in s.dirs && |s.dirs[d]| == PTE_PER_PDE && Pdx(pg) < PTE_PER_PDE
      && Entry(s, d, Pdx(pg)) == Table(TableOf(s, d, pg))
      && TableOf(s, d, pg) in s.tables && |s.tables[TableOf(s, d, pg)]| == PTE_PER_PDE
      && Slot(s, TableOf(s, d, pg)) == Pdx(pg)
      && PteOf(s, d, pg).present && FrameOf(s, d, pg) in s.data && Home(s, FrameOf(s, d, pg)) == pg
      && Maps(s, s.procs[pid], FrameOf(s, d, pg)) && Uses(s, s.procs[pid], TableOf(s, d, pg))
      && FrameOf(s, d, pg) in s.refs && TableOf(s, d, pg) in s.refs && FrameOf(s, d, pg) != TableOf(s, d, pg)
      && FrameOf(s, d, pg) != d && TableOf(s, d, pg) != d
  {
    hide SoleWriters, Counted, Owns, DirsApart;
    assert SpaceOk(s, s.procs[pid]);
    OwnsFills(s.procs[pid], pg);
    FillsApart(s.procs[pid], Pdx(pg));
  }

  // ---------- a page copied ----------

  /** The data side of a copy: frame `f` is a copy of the page's old frame. */
  ghost predicate Copied(s: State, s': State, pid: nat, pg: nat, f: nat) {
    && Ready(s, pid, pg) && f !in s.refs && Repointed(s, s', pid, pg, Pte(true, true, f))
    && var x := FrameOf(s, s.procs[pid].dir, pg);
       x in s.data && s'.data == s.data[f := s.data[x]] && s'.home == s.home[f := pg]
  }

  lemma CopiedFrame(s: State, s': State, pid: nat, pg: nat, f: nat, q: nat, y: nat)
    requires Copied(s, s', pid, pg, f) && q in s.procs
    ensures Maps(s', s.procs[q], y) <==>
      if q == pid && y == FrameOf(s, s.procs[pid].dir, pg) then false
      else if y == f then q == pid
      else Maps(s, s.procs[q], y)
  {
    var h := Home(s', y);
    assert Owns(s.procs[q], h) ==> h >= 0;
    hide Owns, PteOf, Counted, SoleWriters, DirsApart;
    assert SpaceOk(s, s.procs[q]);
    ReadyFacts(s, pid, pg);
  }

  lemma CopiedMappers(s: State, s': State, pid: nat, pg: nat, f: nat, y: nat)
    requires Copied(s, s', pid, pg, f)
    ensures Mappers(s', y) ==
      if y == FrameOf(s, s.procs[pid].dir, pg) then Mappers(s, y) - {pid} else if y == f then {pid} else Mappers(s, y)
  {
    hide Maps, Inv, Owns, FrameOf;
    forall q | q in s.procs ensures Maps(s', s.procs[q], y) <==>
      if q == pid && y == FrameOf(s, s.procs[pid].dir, pg) then false
      else if y == f then q == pid
      else Maps(s, s.procs[q], y)
    {
      CopiedFrame(s, s', pid, pg, f, q, y);
    }
    ReadyFacts(s, pid, pg);
  }

  /** The counts after a copy: one off the old frame, one for the new. */
  ghost predicate Recounted(s: State, s': State, x: nat, f: nat) {
    && Ref(s', x) == Ref(s, x) - 1 && Ref(s', f) == 1
    && forall y :: y in s.data && y != x ==> Ref(s', y) == Ref(s, y)
  }

  lemma CopiedCounted(s: State, s': State, pid: nat, pg: nat, f: nat)
    requires Copied(s, s', pid, pg, f) && Recounted(s, s', FrameOf(s, s.procs[pid].dir, pg), f)
    requires Ref(s, FrameOf(s, s.procs[pid].dir, pg)) > 1
    ensures forall y :: y in s'.data ==> Ref(s', y) == |Mappers(s', y)| && Ref(s', y) > 0
  {
    hide Mappers, Maps, Owns, FrameOf, SoleWriters, SpaceOk, Kinds, DirsApart;
    var x := FrameOf(s, s.procs[pid].dir, pg);
    forall y | y in s'.data ensures Ref(s', y) == |Mappers(s', y)| && Ref(s', y) > 0 {
      CopiedMappers(s, s', pid, pg, f, y);
      ReadyFacts(s, pid, pg);
      if y == x { InMappers(s, pid, x); }
    }
  }

  lemma InMappers(s: State, q: nat, f: nat)
    requires q in s.procs
    ensures q in Mappers(s, f) <==> Maps(s, s.procs[q], f)
    ensures q in Users(s, f) <==> Uses(s, s.procs[q], f)
  {
  }

  lemma CopiedWriters(s: State, s': State, pid: nat, pg: nat, f: nat)
    requires Copied(s, s', pid, pg, f) && Recounted(s, s', FrameOf(s, s.procs[pid].dir, pg), f)
    requires Ref(s, FrameOf(s, s.procs[pid].dir, pg)) > 1
    ensures SoleWriters(s')
  {
    hide Mappers, Owns, PteOf, Kinds, DirsApart, Counted;
    forall q, y: nat | q in s'.procs && Owns(s'.procs[q], y) && PteOf(s', s'.procs[q].dir, y).writable
      ensures Ref(s', FrameOf(s', s'.procs[q].dir, y)) == 1
    {
      assert SpaceOk(s, s.procs[q]);
    }
  }

  lemma CopiedPages(s: State, s': State, pid: nat, pg: nat, f: nat, q: nat)
    requires Copied(s, s', pid, pg, f) && q in s.procs && Kinds(s)
    ensures PagesOk(s', s.procs[q]) && View(s', s.procs[q]) == View(s, s.procs[q])
  {
    hide Mappers, Owns, PteOf, DirsApart, Counted, SoleWriters;
    assert SpaceOk(s, s.procs[q]);
  }

  // ---------- the page copied into an unshared table ----------

  lemma SetPteIs(s: State, d: nat, pg: nat, e: Pte)
    requires Entry(s, d, Pdx(pg)) == Table(TableOf(s, d, pg)) && TableOf(s, d, pg) in s.tables
    requires |s.tables[TableOf(s, d, pg)]| == PTE_PER_PDE
    ensures SetPte(s, d, pg, e)
      == s.(tables := s.tables[TableOf(s, d, pg) := s.tables[TableOf(s, d, pg)][Ptx(pg) := e]])
  {
  }

  /** A write to an entry that no other live process's page uses. */
  lemma PteWritten(s: State, s': State, pid: nat, pg: nat, e: Pte)
    requires Ready(s, pid, pg) && s'.procs == s.procs && s'.dirs == s.dirs
    requires var t := TableOf(s, s.procs[pid].dir, pg);
      t in s.tables && |s.tables[t]| == PTE_PER_PDE && s'.tables == s.tables[t := s.tables[t][Ptx(pg) := e]]
    requires forall q :: q in s.procs && q != pid ==>
      !Uses(s, s.procs[q], TableOf(s, s.procs[pid].dir, pg)) || !Owns(s.procs[q], pg)
    ensures Repointed(s, s', pid, pg, e)
  {
    hide Kinds, DirsApart, Counted, SoleWriters, PagesOk, Owns, Fills, Layout;
    ReadyFacts(s, pid, pg);
    var t := TableOf(s, s.procs[pid].dir, pg);
    forall q, x: nat | q in s.procs && Owns(s.procs[q], x)
      ensures PteOf(s', s.procs[q].dir, x) == if q == pid && x == pg then e else PteOf(s, s.procs[q].dir, x)
    {
      assert SpaceOk(s, s.procs[q]);
      OwnsFills(s.procs[q], x);
      SamePage(x, pg);
      PteWrittenAt(s, s', s.procs[q].dir, x, t, pg, e);
      if Entry(s, s.procs[q].dir, Pdx(x)) == Table(t) {
        assert Slot(s, t) == Pdx(x);
        assert Uses(s, s.procs[q], t);
      }
    }
  }

  lemma PteWrittenAt(s: State, s': State, d: nat, x: nat, t: nat, pg: nat, e: Pte)
    requires t in s.tables && |s.tables[t]| == PTE_PER_PDE && s'.dirs == s.dirs
    requires s'.tables == s.tables[t := s.tables[t][Ptx(pg) := e]]
    ensures PteOf(s', d, x) == if Entry(s, d, Pdx(x)) == Table(t) && Ptx(x) == Ptx(pg) then e else PteOf(s, d, x)
  {
  }

  /** The directories did not change: spaces stay in order if their pages do. */
  lemma SameEntries(s: State, s': State, q: nat)
    requires Inv(s) && q in s.procs && s'.dirs == s.dirs && s'.slot == s.slot && s'.tables.Keys == s.tables.Keys
    requires PagesOk(s', s.procs[q])
    ensures SpaceOk(s', s.procs[q])
  {
    hide Kinds, DirsApart, Counted, SoleWriters, PagesOk, Fills, Layout;
    assert SpaceOk(s, s.procs[q]);
    assert forall i :: Entry(s', s.procs[q].dir, i) == Entry(s, s.procs[q].dir, i);
  }

  lemma SameUsers(s: State, s': State, t: nat)
    requires s'.dirs == s.dirs && s'.slot == s.slot && s'.procs == s.procs
    ensures Users(s', t) == Users(s, t)
  {
    hide Fills;
  }

  /** Frame `f` copies frame `x`, and entry `pg` of table `t` points to it. */
  ghost predicate PageCopied(s: State, s': State, x: nat, t: nat, pg: nat, f: nat) {
    && x in s.data && x in s.refs && t in s.tables && |s.tables[t]| == PTE_PER_PDE
    && s' == s.(data := s.data[f := s.data[x]], home := s.home[f := pg], refs := s.refs[x := s.refs[x] - 1][f := 1],
                tables := s.tables[t := s.tables[t][Ptx(pg) := Pte(true, true, f)]])
  }

  lemma CopyPageIs(s: State, pid: nat, pg: nat, f: nat)
    requires Ready(s, pid, pg) && f !in s.refs
    ensures var d := s.procs[pid].dir;
      PageCopied(s, CopyPage(s, d, pg, f), FrameOf(s, d, pg), TableOf(s, d, pg), pg, f)
  {
    hide Pdx, Ptx, Inv, Owns;
    ReadyFacts(s, pid, pg);
  }

  lemma OneUser(s: State, t: nat, pid: nat, q: nat)
    requires Counted(s) && t in s.tables && Ref(s, t) == 1 && pid in s.procs && q in s.procs && q != pid
    requires Uses(s, s.procs[pid], t)
    ensures !Uses(s, s.procs[q], t)
  {
    hide Uses;
    if Uses(s, s.procs[q], t) { CardAtLeast(Users(s, t), pid, q); }
  }

  lemma CopiedHas(s: State, s': State, pid: nat, pg: nat, f: nat)
    requires Copied(s, s', pid, pg, f)
    ensures Ready(s, pid, pg) && f !in s.refs && s'.procs == s.procs
  {
  }

  lemma PageCopiedIs(s: State, s': State, x: nat, t: nat, pg: nat, f: nat)
    requires PageCopied(s, s', x, t, pg, f) && f !in s.refs && Kinds(s)
    ensures s'.procs == s.procs && s'.dirs == s.dirs && s'.slot == s.slot && s'.tables.Keys == s.tables.Keys
    ensures Recounted(s, s', x, f)
    ensures forall y :: y in s.tables ==> Ref(s', y) == Ref(s, y)
  {
  }

  /** Three disjoint sets that make up `all` stay so when the first grows by a new member. */
  lemma FrameAdded(a: set<nat>, b: set<nat>, c: set<nat>, all: set<nat>, f: nat)
    requires a !! b && a !! c && b !! c && all == a + b + c && f !in all
    ensures a + {f} !! b && a + {f} !! c && all + {f} == (a + {f}) + b + c
  {
  }

  lemma PageCopiedKinds(s: State, s': State, x: nat, t: nat, pg: nat, f: nat)
    requires PageCopied(s, s', x, t, pg, f) && f !in s.refs && Kinds(s)
    ensures Kinds(s')
  {
    assert s'.data.Keys == s.data.Keys + {f} && s'.home.Keys == s.home.Keys + {f};
    assert s'.refs.Keys == s.refs.Keys + {f} by { assert x in s.refs.Keys; }
    assert s'.tables.Keys == s.tables.Keys && s'.slot == s.slot && s'.dirs == s.dirs;
    FrameAdded(s.data.Keys, s.tables.Keys, s.dirs.Keys, s.refs.Keys, f);
  }

  /** A copied page, the directories as they were. */
  lemma CopiedInv(s: State, s': State, pid: nat, pg: nat, x: nat, t: nat, f: nat)
    requires Copied(s, s', pid, pg, f) && PageCopied(s, s', x, t, pg, f)
    requires x == FrameOf(s, s.procs[pid].dir, pg) && Ref(s, x) > 1 && Ref(s, t) == 1
    ensures Inv(s') && Views(s') == Views(s)
  {
    hide FrameOf, Maps, Uses, PteOf, Owns, Repointed, Mappers, Users, View, Copied, PageCopied, Recounted;
    CopiedHas(s, s', pid, pg, f);
    PageCopiedIs(s, s', x, t, pg, f);
    PageCopiedKinds(s, s', x, t, pg, f);
    CopiedCounted(s, s', pid, pg, f);
    CopiedWriters(s, s', pid, pg, f);
    forall y | y in s'.tables ensures Ref(s', y) >= |Users(s', y)| { SameUsers(s, s', y); }
    hide SoleWriters, SpaceOk, Kinds, Ready;
    forall q | q in s.procs ensures SpaceOk(s', s.procs[q]) && View(s', s.procs[q]) == View(s, s.procs[q]) {
      CopiedPages(s, s', pid, pg, f, q);
      SameEntries(s, s', q);
    }
    hide Counted, Inv;
    InvFrom(s, s');
  }

  /** A fault on a shared page in an unshared table. */
  lemma CopyPageInv(s: State, pid: nat, pg: nat, f: nat)
    requires Ready(s, pid, pg) && f !in s.refs
    requires var d := s.procs[pid].dir; Ref(s, FrameOf(s, d, pg)) > 1 && Ref(s, TableOf(s, d, pg)) == 1
    ensures var s' := CopyPage(s, s.procs[pid].dir, pg, f);
      Inv(s') && Views(s') == Views(s) && Repointed(s, s', pid, pg, Pte(true, true, f))
  {
    var d := s.procs[pid].dir;
    var s' := CopyPage(s, d, pg, f);
    var x, t := FrameOf(s, d, pg), TableOf(s, d, pg);
    ReadyFacts(s, pid, pg);
    CopyPageIs(s, pid, pg, f);
    hide CopyPage, FrameOf, TableOf, Owns, Uses, Maps, SoleWriters, SpaceOk, PteOf, Views, View, Kinds, DirsApart;
    forall q | q in s.procs && q != pid ensures !Uses(s, s.procs[q], t) { OneUser(s, t, pid, q); }
    PteWritten(s, s', pid, pg, Pte(true, true, f));
    assert Copied(s, s', pid, pg, f);
    CopiedInv(s, s', pid, pg, x, t, f);
  }

  // ---------- the sole mapper ----------

  /** Setting the write bit, the directories as they were. */
  lemma MakeWritableInv(s: State, pid: nat, pg: nat)
    requires Ready(s, pid, pg) && Ref(s, FrameOf(s, s.procs[pid].dir, pg)) == 1
    ensures var d := s.procs[pid].dir; var s' := MakeWritable(s, d, pg);
      Inv(s') && Views(s') == Views(s) && Repointed(s, s', pid, pg, PteOf(s, d, pg).(writable := true))
  {
    var d := s.procs[pid].dir;
    var e := PteOf(s, d, pg).(writable := true);
    var x, t := FrameOf(s, d, pg), TableOf(s, d, pg);
    var s' := MakeWritable(s, d, pg);
    ReadyFacts(s, pid, pg);
    SetPteIs(s, d, pg, e);
    forall q | q in s.procs && q != pid ensures !Uses(s, s.procs[q], t) || !Owns(s.procs[q], pg) {
      if Uses(s, s.procs[q], t) && Owns(s.procs[q], pg) {
        SameTable(s, pid, q, pg);
        OneMapper(s, x, pid, q);
      }
    }
    hide FrameOf, TableOf, Owns, Uses, Maps, SoleWriters, SpaceOk, PteOf, Views, View, Kinds, DirsApart, Counted;
    hide SetPte, MakeWritable;
    PteWritten(s, s', pid, pg, e);
    ReflaggedInv(s, s', pid, pg, e);
  }

  /** Processes that share a table map the same frame at its pages. */
  lemma SameTable(s: State, pid: nat, q: nat, pg: nat)
    requires Ready(s, pid, pg) && q in s.procs && Owns(s.procs[q], pg)
    requires Uses(s, s.procs[q], TableOf(s, s.procs[pid].dir, pg))
    ensures Maps(s, s.procs[q], FrameOf(s, s.procs[pid].dir, pg))
  {
    hide Kinds, DirsApart, Counted, SoleWriters, EntriesOk, Owns, Fills, Layout;
    ReadyFacts(s, pid, pg);
  }

  lemma ReflaggedInv(s: State, s': State, pid: nat, pg: nat, e: Pte)
    requires Ready(s, pid, pg) && Repointed(s, s', pid, pg, e) && e == PteOf(s, s.procs[pid].dir, pg).(writable := true)
    requires Ref(s, FrameOf(s, s.procs[pid].dir, pg)) == 1
    requires s' == s.(tables := s'.tables) && s'.tables.Keys == s.tables.Keys
    requires forall t :: t in s'.tables ==> |s'.tables[t]| == PTE_PER_PDE
    ensures Inv(s') && Views(s') == Views(s)
  {
    ReflaggedPages(s, s', pid, pg, e);
    ReflaggedKinds(s, s');
    ReflaggedCounted(s, s');
    ReflaggedWriters(s, s', pid, pg, e);
    hide Counted, Kinds, SoleWriters, Repointed, SpaceOk, View, FrameOf, PteOf, Ready, Inv;
    forall q | q in s.procs ensures SpaceOk(s', s.procs[q]) && View(s', s.procs[q]) == View(s, s.procs[q]) {
      ReflaggedPage(s, s', pid, pg, e, q);
    }
    InvFrom(s, s');
  }

  lemma InvIs(s: State)
    requires Kinds(s) && DirsApart(s) && Counted(s) && SoleWriters(s)
    requires forall q :: q in s.procs ==> SpaceOk(s, s.procs[q])
    ensures Inv(s)
  {
  }

  lemma InvFrom(s: State, s': State)
    requires Kinds(s') && DirsApart(s) && Counted(s') && SoleWriters(s') && s'.procs == s.procs
    requires forall q :: q in s.procs ==> SpaceOk(s', s.procs[q]) && View(s', s.procs[q]) == View(s, s.procs[q])
    ensures Inv(s') && Views(s') == Views(s)
  {
    hide Kinds, Counted, SoleWriters, SpaceOk, View;
  }

  /** No translation changed. */
  ghost predicate SameFrames(s: State, s': State) {
    && s'.procs == s.procs && s'.home == s.home && s'.data == s.data
    && forall q, x: nat :: q in s.procs && Owns(s.procs[q], x) ==>
      FrameOf(s', s.procs[q].dir, x) == FrameOf(s, s.procs[q].dir, x)
  }

  lemma ReflaggedPages(s: State, s': State, pid: nat, pg: nat, e: Pte)
    requires Ready(s, pid, pg) && Repointed(s, s', pid, pg, e) && e == PteOf(s, s.procs[pid].dir, pg).(writable := true)
    requires s' == s.(tables := s'.tables)
    ensures SameFrames(s, s')
  {
    hide PteOf, Owns, Inv;
  }

  lemma ReflaggedKinds(s: State, s': State)
    requires Kinds(s) && s' == s.(tables := s'.tables) && s'.tables.Keys == s.tables.Keys
    requires forall t :: t in s'.tables ==> |s'.tables[t]| == PTE_PER_PDE
    ensures Kinds(s')
  {
  }

  lemma ReflaggedCounted(s: State, s': State)
    requires Counted(s) && SameFrames(s, s') && s' == s.(tables := s'.tables) && s'.tables.Keys == s.tables.Keys
    ensures Counted(s')
  {
    hide Mappers, Users, SameFrames;
    assert s'.data == s.data && s'.procs == s.procs && s'.dirs == s.dirs && s'.slot == s.slot;
    forall f | f in s'.data ensures Ref(s', f) == |Mappers(s', f)| && Ref(s', f) > 0 {
      assert f in s.data && Ref(s, f) == |Mappers(s, f)| && Ref(s', f) == Ref(s, f);
      SameMappers(s, s', f);
    }
    forall t | t in s'.tables ensures Ref(s', t) >= |Users(s', t)| {
      assert t in s.tables.Keys && Ref(s, t) >= |Users(s, t)| && Ref(s', t) == Ref(s, t);
      SameUsers(s, s', t);
    }
  }

  lemma ReflaggedWriters(s: State, s': State, pid: nat, pg: nat, e: Pte)
    requires Ready(s, pid, pg) && Repointed(s, s', pid, pg, e) && e == PteOf(s, s.procs[pid].dir, pg).(writable := true)
    requires Ref(s, FrameOf(s, s.procs[pid].dir, pg)) == 1 && s' == s.(tables := s'.tables)
    ensures SoleWriters(s')
  {
    hide PteOf, Owns, Kinds, Counted, DirsApart, SpaceOk;
  }

  lemma ReflaggedPage(s: State, s': State, pid: nat, pg: nat, e: Pte, q: nat)
    requires Ready(s, pid, pg) && Repointed(s, s', pid, pg, e) && e == PteOf(s, s.procs[pid].dir, pg).(writable := true)
    requires s' == s.(tables := s'.tables) && s'.tables.Keys == s.tables.Keys && q in s.procs
    ensures SpaceOk(s', s.procs[q]) && View(s', s.procs[q]) == View(s, s.procs[q])
  {
    hide PteOf, Owns, Kinds, Counted, DirsApart, SoleWriters;
    assert SpaceOk(s, s.procs[q]);
    SameEntries(s, s', q);
  }

  lemma SameMappers(s: State, s': State, y: nat)
    requires SameFrames(s, s')
    ensures Mappers(s', y) == Mappers(s, y)
  {
    hide FrameOf;
    forall q | q in s.procs ensures Maps(s', s.procs[q], y) == Maps(s, s.procs[q], y) {
      if Owns(s.procs[q], Home(s, y)) { assert Home(s, y) >= 0; }
    }
  }

  // ---------- the page and its table copied ----------

  /** Frame `f` copies frame `x`, frame `t` copies table `tab` but for the entry of `pg`, and `d` points to it. */
  ghost predicate Privatized(s: State, s': State, d: nat, x: nat, tab: nat, pg: nat, f: nat, t: nat) {
    && x in s.data && x in s.refs && tab in s.tables && tab in s.refs && |s.tables[tab]| == PTE_PER_PDE && x != tab
    && d in s.dirs && |s.dirs[d]| == PTE_PER_PDE && Pdx(pg) < PTE_PER_PDE && s.dirs[d][Pdx(pg)] == Table(tab)
    && f !in s.refs && t !in s.refs && f != t
    && s' == s.(data := s.data[f := s.data[x]], home := s.home[f := pg], slot := s.slot[t := Pdx(pg)],
                tables := s.tables[t := s.tables[tab][Ptx(pg) := Pte(true, true, f)]],
                dirs := s.dirs[d := s.dirs[d][Pdx(pg) := Table(t)]],
                refs := s.refs[x := s.refs[x] - 1][tab := s.refs[tab] - 1][f := 1][t := 1])
  }

  lemma PrivatizeIs(s: State, pid: nat, pg: nat, f: nat, t: nat)
    requires Ready(s, pid, pg) && f !in s.refs && t !in s.refs && f != t
    ensures var d := s.procs[pid].dir;
      Privatized(s, Privatize(s, d, pg, f, t), d, FrameOf(s, d, pg), TableOf(s, d, pg), pg, f, t)
  {
    hide Pdx, Ptx, Inv, Owns;
    ReadyFacts(s, pid, pg);
  }

  lemma PrivatizedPte(s: State, s': State, d: nat, x: nat, tab: nat, pg: nat, f: nat, t: nat, e: nat, y: nat)
    requires Privatized(s, s', d, x, tab, pg, f, t) && t !in s.tables
    requires Entry(s, e, Pdx(y)).Table? && Entry(s, e, Pdx(y)).frame in s.tables
    ensures PteOf(s', e, y) == if e == d && y == pg then Pte(true, true, f) else PteOf(s, e, y)
  {
    SamePage(y, pg);
    hide Pdx;
  }

  lemma PrivatizedRepoints(s: State, s': State, pid: nat, d: nat, x: nat, tab: nat, pg: nat, f: nat, t: nat)
    requires Ready(s, pid, pg) && d == s.procs[pid].dir && Privatized(s, s', d, x, tab, pg, f, t)
    ensures Repointed(s, s', pid, pg, Pte(true, true, f))
  {
    assert t !in s.tables && s'.procs == s.procs;
    hide Privatized, Kinds, Counted, SoleWriters, PagesOk, Owns, Fills, Layout, PteOf;
    forall q, y: nat | q in s.procs && Owns(s.procs[q], y)
      ensures PteOf(s', s.procs[q].dir, y) ==
        if q == pid && y == pg then Pte(true, true, f) else PteOf(s, s.procs[q].dir, y)
    {
      assert SpaceOk(s, s.procs[q]);
      OwnsFills(s.procs[q], y);
      PrivatizedPte(s, s', d, x, tab, pg, f, t, s.procs[q].dir, y);
    }
  }

  lemma PrivatizedKeys(s: State, s': State, d: nat, x: nat, tab: nat, pg: nat, f: nat, t: nat)
    requires Privatized(s, s', d, x, tab, pg, f, t)
    ensures f !in s.refs && t !in s.refs && f != t && s'.refs.Keys == s.refs.Keys + {f, t}
    ensures s'.data.Keys == s.data.Keys + {f} && s'.home.Keys == s.home.Keys + {f}
    ensures s'.tables.Keys == s.tables.Keys + {t} && s'.slot.Keys == s.slot.Keys + {t} && s'.dirs.Keys == s.dirs.Keys
  {
    hide Pdx, Ptx;
    assert x in s.refs.Keys && tab in s.refs.Keys && d in s.dirs.Keys;
  }

  ghost predicate Lengths(s: State) {
    && (forall y :: y in s.data ==> |s.data[y]| == PG_SIZE)
    && (forall y :: y in s.tables ==> |s.tables[y]| == PTE_PER_PDE)
    && forall y :: y in s.dirs ==> |s.dirs[y]| == PTE_PER_PDE
  }

  lemma PrivatizedLengths(s: State, s': State, d: nat, x: nat, tab: nat, pg: nat, f: nat, t: nat)
    requires Privatized(s, s', d, x, tab, pg, f, t) && Lengths(s)
    ensures Lengths(s')
  {
    hide Pdx;
    assert |s'.tables[t]| == PTE_PER_PDE && |s'.dirs[d]| == PTE_PER_PDE;
  }

  /** Three disjoint sets that make up `all` stay so when the first two grow by a new member each. */
  lemma GrownApart(a: set<nat>, b: set<nat>, c: set<nat>, all: set<nat>, f: set<nat>, t: set<nat>)
    requires a !! b && a !! c && b !! c && all == a + b + c && f !! all && t !! all && f !! t
    ensures a + f !! b + t && a + f !! c && b + t !! c && all + f + t == (a + f) + (b + t) + c
  {
  }

  lemma PrivatizedKinds(s: State, s': State, d: nat, x: nat, tab: nat, pg: nat, f: nat, t: nat)
    requires Privatized(s, s', d, x, tab, pg, f, t) && Kinds(s)
    ensures Kinds(s')
  {
    assert Lengths(s);
    GrownApart(s.data.Keys, s.tables.Keys, s.dirs.Keys, s.refs.Keys, {f}, {t});
    hide Privatized, Lengths;
    PrivatizedLengths(s, s', d, x, tab, pg, f, t);
    PrivatizedKeys(s, s', d, x, tab, pg, f, t);
    KindsFrom(s, s', f, t);
  }

  lemma KindsFrom(s: State, s': State, f: nat, t: nat)
    requires Kinds(s) && Lengths(s') && f !in s.refs && t !in s.refs && f != t && s'.refs.Keys == s.refs.Keys + {f, t}
    requires s'.data.Keys == s.data.Keys + {f} && s'.home.Keys == s.home.Keys + {f}
    requires s'.tables.Keys == s.tables.Keys + {t} && s'.slot.Keys == s.slot.Keys + {t} && s'.dirs.Keys == s.dirs.Keys
    ensures Kinds(s')
  {
    GrownApart(s.data.Keys, s.tables.Keys, s.dirs.Keys, s.refs.Keys, {f}, {t});
    assert s.refs.Keys + {f, t} == s.refs.Keys + {f} + {t};
  }

  lemma PrivatizedRefs(s: State, s': State, d: nat, x: nat, tab: nat, pg: nat, f: nat, t: nat)
    requires Privatized(s, s', d, x, tab, pg, f, t) && Kinds(s)
    ensures Recounted(s, s', x, f)
    ensures Ref(s', t) == 1 && Ref(s', tab) == Ref(s, tab) - 1
    ensures forall y :: y in s.tables && y != tab ==> Ref(s', y) == Ref(s, y)
  {
    hide Pdx, Ptx;
  }

  lemma PrivatizedEntries(s: State, s': State, d: nat, x: nat, tab: nat, pg: nat, f: nat, t: nat)
    requires Privatized(s, s', d, x, tab, pg, f, t)
    ensures forall e, i :: Entry(s', e, i) == if e == d && i == Pdx(pg) then Table(t) else Entry(s, e, i)
    ensures forall y :: Slot(s', y) == if y == t then Pdx(pg) else Slot(s, y)
    ensures Entry(s, d, Pdx(pg)) == Table(tab) && s'.procs == s.procs && s'.dirs.Keys == s.dirs.Keys
    ensures s'.tables.Keys == s.tables.Keys + {t} && t !in s.refs
  {
    hide Pdx, Ptx;
  }

  /** No live directory points to a frame that is no table. */
  lemma NoEntry(s: State, q: nat, t: nat)
    requires Inv(s) && q in s.procs && t !in s.refs
    ensures forall i :: Entry(s, s.procs[q].dir, i) != Table(t)
  {
    hide Counted, SoleWriters, DirsApart, PagesOk, Layout, Fills, Entry;
    assert SpaceOk(s, s.procs[q]) && t !in s.tables;
  }

  lemma PrivatizedUses(s: State, s': State, pid: nat, d: nat, x: nat, tab: nat, pg: nat, f: nat, t: nat, q: nat, y: nat)
    requires Ready(s, pid, pg) && d == s.procs[pid].dir && Privatized(s, s', d, x, tab, pg, f, t)
    requires tab == TableOf(s, d, pg)
    requires q in s.procs
    ensures Uses(s', s.procs[q], y) <==>
      if q == pid && y == tab then false
      else if y == t then q == pid
      else Uses(s, s.procs[q], y)
  {
    NoEntry(s, q, t);
    assert q == pid || s.procs[q].dir != d;
    assert Slot(s, tab) == Pdx(pg) && Fills(s.procs[pid], Pdx(pg)) by {
      ReadyFacts(s, pid, pg);
      assert SpaceOk(s, s.procs[pid]);
      OwnsFills(s.procs[pid], pg);
    }
    PrivatizedEntries(s, s', d, x, tab, pg, f, t);
    hide Pdx, Inv, Privatized, Fills, Owns, Entry, Slot;
  }

  lemma PrivatizedUsers(s: State, s': State, pid: nat, d: nat, x: nat, tab: nat, pg: nat, f: nat, t: nat, y: nat)
    requires Ready(s, pid, pg) && d == s.procs[pid].dir && Privatized(s, s', d, x, tab, pg, f, t)
    requires tab == TableOf(s, d, pg)
    ensures Users(s', y) == if y == tab then Users(s, y) - {pid} else if y == t then {pid} else Users(s, y)
  {
    assert s'.procs == s.procs && t != tab;
    hide Privatized, Inv, Uses, Owns, TableOf;
    forall q | q in s.procs ensures Uses(s', s.procs[q], y) <==>
      if q == pid && y == tab then false else if y == t then q == pid else Uses(s, s.procs[q], y)
    {
      PrivatizedUses(s, s', pid, d, x, tab, pg, f, t, q, y);
    }
  }

  /** Entry `i0` of directory `d` moved to the new table `t`, a table of that entry. */
  ghost predicate EntryMoved(s: State, s': State, d: nat, i0: nat, t: nat) {
    && (forall e, i :: Entry(s', e, i) == if e == d && i == i0 then Table(t) else Entry(s, e, i))
    && (forall y :: Slot(s', y) == if y == t then i0 else Slot(s, y))
    && s'.dirs.Keys == s.dirs.Keys && s'.tables.Keys == s.tables.Keys + {t}
  }

  lemma MovedEntries(s: State, s': State, p: Proc, d: nat, i0: nat, t: nat)
    requires EntryMoved(s, s', d, i0, t) && EntriesOk(s, p) && (p.dir == d ==> Fills(p, i0))
    requires forall i :: Entry(s, p.dir, i) != Table(t)
    requires forall i :: !Fills(p, i) ==> !Entry(s, p.dir, i).Table?
    ensures EntriesOk(s', p) && forall i :: !Fills(p, i) ==> !Entry(s', p.dir, i).Table?
  {
    hide Fills, Entry, Slot;
  }

  lemma MoverFacts(s: State, pid: nat, pg: nat, q: nat, t: nat)
    requires Ready(s, pid, pg) && q in s.procs && t !in s.refs
    ensures SpaceOk(s, s.procs[q]) && forall i :: Entry(s, s.procs[q].dir, i) != Table(t)
    ensures s.procs[q].dir == s.procs[pid].dir ==> Fills(s.procs[q], Pdx(pg))
  {
    NoEntry(s, q, t);
    hide Kinds, Counted, SoleWriters, EntriesOk, PagesOk, Layout, Owns, Fills, Entry;
    assert SpaceOk(s, s.procs[pid]);
    OwnsFills(s.procs[pid], pg);
  }

  lemma PrivatizedSpace(s: State, s': State, pid: nat, d: nat, x: nat, tab: nat, pg: nat, f: nat, t: nat, q: nat)
    requires Ready(s, pid, pg) && d == s.procs[pid].dir && Privatized(s, s', d, x, tab, pg, f, t)
    requires q in s.procs && PagesOk(s', s.procs[q])
    ensures SpaceOk(s', s.procs[q])
  {
    hide Pdx, Inv, Ready, Privatized, Fills, Owns, Entry, Slot, PagesOk, Layout, EntriesOk, Kinds;
    PrivatizedEntries(s, s', d, x, tab, pg, f, t);
    MoverFacts(s, pid, pg, q, t);
    MovedEntries(s, s', s.procs[q], d, Pdx(pg), t);
  }

  lemma PrivatizedData(s: State, s': State, pid: nat, d: nat, x: nat, tab: nat, pg: nat, f: nat, t: nat)
    requires Ready(s, pid, pg) && d == s.procs[pid].dir && Privatized(s, s', d, x, tab, pg, f, t)
    requires x == FrameOf(s, d, pg)
    ensures Copied(s, s', pid, pg, f)
  {
    hide Pdx, Inv, Owns, PteOf, Repointed;
    PrivatizedRepoints(s, s', pid, d, x, tab, pg, f, t);
  }

  lemma PrivatizedCounted(s: State, s': State, pid: nat, d: nat, x: nat, tab: nat, pg: nat, f: nat, t: nat)
    requires Ready(s, pid, pg) && d == s.procs[pid].dir && Privatized(s, s', d, x, tab, pg, f, t)
    requires x == FrameOf(s, d, pg) && tab == TableOf(s, d, pg) && Copied(s, s', pid, pg, f) && Ref(s, x) > 1
    ensures Counted(s') && Recounted(s, s', x, f)
  {
    hide Pdx, SoleWriters, SpaceOk, DirsApart, Owns, FrameOf, TableOf, Mappers, Users, Uses, Maps, Repointed, Copied;
    PrivatizedRefs(s, s', d, x, tab, pg, f, t);
    CopiedCounted(s, s', pid, pg, f);
    PrivatizedKeys(s, s', d, x, tab, pg, f, t);
    ReadyFacts(s, pid, pg);
    hide Privatized, Kinds, Recounted;
    forall y | y in s'.tables ensures Ref(s', y) >= |Users(s', y)| {
      PrivatizedUsers(s, s', pid, d, x, tab, pg, f, t, y);
      if y == tab { InMappers(s, pid, tab); }
    }
  }

  /** The message page of a fork, or a fault on a shared page in a shared table. */
  lemma PrivatizeInv(s: State, pid: nat, pg: nat, f: nat, t: nat)
    requires Ready(s, pid, pg) && f !in s.refs && t !in s.refs && f != t
    requires Ref(s, FrameOf(s, s.procs[pid].dir, pg)) > 1
    ensures var s' := Privatize(s, s.procs[pid].dir, pg, f, t);
      Inv(s') && Views(s') == Views(s) && Repointed(s, s', pid, pg, Pte(true, true, f))
  {
    var d := s.procs[pid].dir;
    var s' := Privatize(s, d, pg, f, t);
    var x, tab := FrameOf(s, d, pg), TableOf(s, d, pg);
    hide Privatize, FrameOf, TableOf, Privatized, Repointed, Copied, Recounted, Views, View, PteOf;
    hide Counted, SoleWriters, Kinds, SpaceOk;
    PrivatizeIs(s, pid, pg, f, t);
    PrivatizedRepoints(s, s', pid, d, x, tab, pg, f, t);
    PrivatizedData(s, s', pid, d, x, tab, pg, f, t);
    PrivatizedCounted(s, s', pid, d, x, tab, pg, f, t);
    CopiedWriters(s, s', pid, pg, f);
    PrivatizedKinds(s, s', d, x, tab, pg, f, t);
    CopiedHas(s, s', pid, pg, f);
    forall q | q in s.procs ensures SpaceOk(s', s.procs[q]) && View(s', s.procs[q]) == View(s, s.procs[q]) {
      CopiedPages(s, s', pid, pg, f, q);
      PrivatizedSpace(s, s', pid, d, x, tab, pg, f, t, q);
    }
    InvFrom(s, s');
  }
}
