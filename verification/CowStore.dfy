/** Stores and forks, each against a machine where every process has pages of its own. */
module CowStore {
  import opened Pages
  import opened CowSpec
  import opened CowShare
  import opened CowFault

  // ---------- the fault ----------

  lemma CountsPositive(s: State, pid: nat, pg: nat)
    requires Ready(s, pid, pg)
    ensures var d := s.procs[pid].dir; Ref(s, FrameOf(s, d, pg)) >= 1 && Ref(s, TableOf(s, d, pg)) >= 1
  {
    hide Mappers, Users, SoleWriters, SpaceOk, Kinds, Owns, FrameOf, TableOf, Maps, Uses;
    var d := s.procs[pid].dir;
    ReadyFacts(s, pid, pg);
    InMappers(s, pid, FrameOf(s, d, pg));
    InMappers(s, pid, TableOf(s, d, pg));
    assert pid in Users(s, TableOf(s, d, pg));
  }

  /** After the fault the page is writable; nobody's view has changed. */
  lemma ResolveInv(s: State, pid: nat, pg: nat, f: nat, t: nat)
    requires Ready(s, pid, pg) && f !in s.refs && t !in s.refs && f != t
    ensures var d := s.procs[pid].dir; var s' := Resolve(s, d, pg, f, t);
      Inv(s') && Views(s') == Views(s) && s'.procs == s.procs && PteOf(s', d, pg).writable
  {
    var d := s.procs[pid].dir;
    CountsPositive(s, pid, pg);
    hide Inv, Views, FrameOf, TableOf, Owns, MakeWritable, CopyPage, Privatize;
    if Ref(s, FrameOf(s, d, pg)) == 1 {
      MakeWritableInv(s, pid, pg);
    } else if Ref(s, TableOf(s, d, pg)) == 1 {
      CopyPageInv(s, pid, pg, f);
    } else {
      PrivatizeInv(s, pid, pg, f, t);
    }
  }

  // ---------- the store ----------

  /** The eager machine's store. */
  function Stored(v: map<nat, Page>, va: nat, b: bv8): map<nat, Page> {
    if PageDown(va) in v && va % PG_SIZE < |v[PageDown(va)]| then
      v[PageDown(va) := v[PageDown(va)][va % PG_SIZE := b]]
    else v
  }

  /** Only the contents of data frame `f` changed. */
  ghost predicate WrittenAt(s: State, s': State, f: nat) {
    && s' == s.(data := s'.data) && s'.data.Keys == s.data.Keys && f in s.data
    && |s'.data[f]| == |s.data[f]| && forall y :: y in s.data && y != f ==> s'.data[y] == s.data[y]
  }

  lemma WrittenLookups(s: State, s': State, f: nat)
    requires WrittenAt(s, s', f)
    ensures s'.procs == s.procs && forall d, x: nat :: PteOf(s', d, x) == PteOf(s, d, x)
    ensures forall d, i :: Entry(s', d, i) == Entry(s, d, i)
    ensures forall y :: Home(s', y) == Home(s, y) && Slot(s', y) == Slot(s, y) && Ref(s', y) == Ref(s, y)
    ensures s'.data.Keys == s.data.Keys && s'.tables == s.tables && s'.dirs == s.dirs
  {
  }

  lemma WrittenMappers(s: State, s': State, f: nat)
    requires WrittenAt(s, s', f)
    ensures forall y :: Mappers(s', y) == Mappers(s, y) && Users(s', y) == Users(s, y)
  {
    WrittenLookups(s, s', f);
    hide WrittenAt, PteOf, Entry, Home, Slot, Owns, Fills;
    assert forall p, y :: Maps(s', p, y) == Maps(s, p, y) && Uses(s', p, y) == Uses(s, p, y);
  }

  lemma WrittenSpace(s: State, s': State, f: nat, p: Proc)
    requires WrittenAt(s, s', f) && SpaceOk(s, p)
    ensures SpaceOk(s', p)
  {
    WrittenLookups(s, s', f);
    hide WrittenAt, PteOf, Entry, Home, Slot, Owns, Fills, Layout;
  }

  lemma WrittenKinds(s: State, s': State, f: nat)
    requires Kinds(s) && WrittenAt(s, s', f)
    ensures Kinds(s')
  {
  }

  lemma WrittenCounted(s: State, s': State, f: nat)
    requires Counted(s) && WrittenAt(s, s', f)
    ensures Counted(s')
  {
    WrittenLookups(s, s', f);
    WrittenMappers(s, s', f);
    hide WrittenAt, PteOf, Mappers, Users, Ref, Entry;
    forall y | y in s'.data ensures Ref(s', y) == |Mappers(s', y)| && Ref(s', y) > 0 { assert y in s.data.Keys; }
  }

  lemma WrittenWriters(s: State, s': State, f: nat)
    requires SoleWriters(s) && WrittenAt(s, s', f)
    ensures SoleWriters(s')
  {
    WrittenLookups(s, s', f);
    hide WrittenAt, PteOf, Ref, Owns, Entry;
  }

  lemma WrittenInv(s: State, s': State, f: nat)
    requires Inv(s) && WrittenAt(s, s', f)
    ensures Inv(s')
  {
    assert s'.procs == s.procs;
    hide WrittenAt, Kinds, SpaceOk, Counted, SoleWriters;
    WrittenKinds(s, s', f);
    WrittenCounted(s, s', f);
    WrittenWriters(s, s', f);
    forall q | q in s.procs ensures SpaceOk(s', s.procs[q]) { WrittenSpace(s, s', f, s.procs[q]); }
  }

  /** A page of `p` is in frame `f` exactly when it is the frame's page and `p` maps it. */
  lemma FramePage(s: State, q: nat, f: nat, x: nat)
    requires Inv(s) && q in s.procs && Owns(s.procs[q], x)
    ensures FrameOf(s, s.procs[q].dir, x) == f <==> Maps(s, s.procs[q], f) && x == Home(s, f)
    ensures FrameOf(s, s.procs[q].dir, x) in s.data && x < KERN_BASE / PG_SIZE
  {
    hide Kinds, Counted, SoleWriters, DirsApart, Owns, EntriesOk, PteOf;
    assert SpaceOk(s, s.procs[q]);
    OwnsFills(s.procs[q], x);
  }

  /** Who maps the frame sees the write at the frame's page, and there only. */
  lemma WrittenView(s: State, s': State, f: nat, q: nat)
    requires Inv(s) && WrittenAt(s, s', f) && q in s.procs
    ensures var p := s.procs[q];
      View(s', p) == if Maps(s, p, f) then View(s, p)[Home(s, f) := s'.data[f]] else View(s, p)
  {
    var p := s.procs[q];
    assert Maps(s, p, f) ==> Owns(p, Home(s, f)) && Home(s, f) >= 0;
    hide Inv, Owns, Maps, FrameOf, Home, View, WrittenAt;
    if Maps(s, p, f) { FramePage(s, q, f, Home(s, f)); }
    forall x: nat | Owns(p, x)
      ensures FrameOf(s, p.dir, x) == f <==> Maps(s, p, f) && x == Home(s, f)
      ensures FrameOf(s, p.dir, x) in s.data
    {
      FramePage(s, q, f, x);
    }
    ViewFrom(s, s', p, f, if Maps(s, p, f) then Home(s, f) else -1);
  }

  lemma ViewFrom(s: State, s': State, p: Proc, f: nat, h: int)
    requires WrittenAt(s, s', f) && (h >= 0 ==> Owns(p, h) && h < KERN_BASE / PG_SIZE)
    requires forall x: nat :: Owns(p, x) ==> (FrameOf(s, p.dir, x) == f <==> x == h)
    requires forall x: nat :: Owns(p, x) ==> FrameOf(s, p.dir, x) in s.data
    ensures View(s', p) == if h >= 0 then View(s, p)[h := s'.data[f]] else View(s, p)
  {
    WrittenLookups(s, s', f);
    hide Owns, PteOf;
    assert forall x: nat :: FrameOf(s', p.dir, x) == FrameOf(s, p.dir, x);
    hide FrameOf;
  }

  /** A write through a writable entry reaches nobody else. */
  lemma WriteInv(s: State, pid: nat, va: nat, b: bv8)
    requires Ready(s, pid, PageDown(va)) && PteOf(s, s.procs[pid].dir, PageDown(va)).writable
    ensures var s' := Write(s, s.procs[pid].dir, va, b);
      && Inv(s') && s'.procs == s.procs && View(s', s.procs[pid]) == Stored(View(s, s.procs[pid]), va, b)
      && forall q :: q in s.procs && q != pid ==> View(s', s.procs[q]) == View(s, s.procs[q])
  {
    var pg := PageDown(va);
    var p := s.procs[pid];
    var f := FrameOf(s, p.dir, pg);
    var s' := Write(s, p.dir, va, b);
    WriteIs(s, pid, va, b);
    hide Write, WrittenAt, Inv, PageDown, Owns, FrameOf;
    WrittenInv(s, s', f);
    WrittenView(s, s', f, pid);
    FramePage(s, pid, f, pg);
    assert pg in View(s, p) && View(s, p)[pg] == s.data[f];
    hide View, Maps;
    forall q | q in s.procs && q != pid ensures View(s', s.procs[q]) == View(s, s.procs[q]) {
      if Maps(s, s.procs[q], f) { SoleMapper(s, f, pid, q); }
      WrittenView(s, s', f, q);
    }
  }

  lemma SoleMapper(s: State, f: nat, pid: nat, q: nat)
    requires Inv(s) && f in s.data && Ref(s, f) == 1 && pid in s.procs && q in s.procs
    requires Maps(s, s.procs[pid], f) && Maps(s, s.procs[q], f)
    ensures q == pid
  {
    hide Maps, SoleWriters, SpaceOk;
    OneMapper(s, f, pid, q);
  }

  lemma WriteIs(s: State, pid: nat, va: nat, b: bv8)
    requires Ready(s, pid, PageDown(va)) && PteOf(s, s.procs[pid].dir, PageDown(va)).writable
    ensures var p, pg := s.procs[pid], PageDown(va); var f := FrameOf(s, p.dir, pg); var s' := Write(s, p.dir, va, b);
      && Inv(s) && pid in s.procs && Owns(p, pg) && Ref(s, f) == 1 && Maps(s, p, f) && Home(s, f) == pg
      && WrittenAt(s, s', f) && va % PG_SIZE < |s.data[f]| && s'.data[f] == s.data[f][va % PG_SIZE := b]
  {
    hide Owns, SpaceOk, Counted, DirsApart, PageDown;
    ReadyFacts(s, pid, PageDown(va));
  }

  ghost predicate StoreEnabled(s: State, pid: nat, va: nat, f: nat, t: nat) {
    Ready(s, pid, PageDown(va)) && f !in s.refs && t !in s.refs && f != t
  }

  lemma ViewsPut(s: State, s': State, pid: nat)
    requires s'.procs == s.procs && pid in s.procs
    requires forall q :: q in s.procs && q != pid ==> View(s', s.procs[q]) == View(s, s.procs[q])
    ensures Views(s') == Views(s)[pid := View(s', s.procs[pid])]
  {
    hide View;
  }

  lemma StoreSplit(s: State, s1: State, pid: nat, va: nat, b: bv8)
    requires Ready(s1, pid, PageDown(va)) && PteOf(s1, s1.procs[pid].dir, PageDown(va)).writable
    requires Views(s1) == Views(s)
    ensures var s' := Write(s1, s1.procs[pid].dir, va, b);
      Inv(s') && s'.procs == s1.procs && pid in Views(s) && Views(s') == Views(s)[pid := Stored(Views(s)[pid], va, b)]
  {
    assert pid in s1.procs && View(s1, s1.procs[pid]) == Views(s1)[pid];
    hide Ready, Inv, Owns, PageDown, PteOf, Write, Stored, View, Views;
    WriteInv(s1, pid, va, b);
    ViewsPut(s1, Write(s1, s1.procs[pid].dir, va, b), pid);
  }

  /** A store, faults and all, is a store on the eager machine: the storing process sees
      it and nobody else does. */
  lemma StoreRefines(s: State, pid: nat, va: nat, b: bv8, f: nat, t: nat)
    requires StoreEnabled(s, pid, va, f, t)
    ensures var s' := Store(s, pid, va, b, f, t);
      Inv(s') && s'.procs == s.procs && pid in Views(s) && Views(s') == Views(s)[pid := Stored(Views(s)[pid], va, b)]
  {
    var d, pg := s.procs[pid].dir, PageDown(va);
    hide Inv, Owns, PageDown, PteOf, Resolve, Write, Stored, Views;
    if !PteOf(s, d, pg).writable { ResolveInv(s, pid, pg, f, t); }
    StoreSplit(s, if PteOf(s, d, pg).writable then s else Resolve(s, d, pg, f, t), pid, va, b);
  }

  // ---------- fork ----------

  /** The pairs of frames are not in use and all different. */
  ghost predicate Spare(used: set<nat>, spare: seq<(nat, nat)>)
    decreases |spare|
  {
    spare == [] || (spare[0].0 !in used && spare[0].1 !in used && spare[0].0 != spare[0].1
                    && Spare(used + {spare[0].0, spare[0].1}, spare[1..]))
  }

  /** `child` and another process see pages `pg` on through the same frames. */
  ghost predicate Twins(s: State, child: nat, other: nat, pg: nat, n: nat) {
    && Inv(s) && child in s.procs && other in s.procs && child != other
    && forall x: nat :: pg <= x < pg + n ==>
      && Owns(s.procs[child], x) && Owns(s.procs[other], x)
      && FrameOf(s, s.procs[other].dir, x) == FrameOf(s, s.procs[child].dir, x)
  }

  lemma TwinCount(s: State, child: nat, other: nat, pg: nat, n: nat)
    requires Twins(s, child, other, pg, n) && n > 0
    ensures Ready(s, child, pg) && Ref(s, FrameOf(s, s.procs[child].dir, pg)) > 1
  {
    hide Owns, PteOf, Mappers, SoleWriters, SpaceOk, Kinds, DirsApart;
    var x := FrameOf(s, s.procs[child].dir, pg);
    ReadyFacts(s, child, pg);
    InMappers(s, child, x);
    InMappers(s, other, x);
    CardAtLeast(Mappers(s, x), child, other);
  }

  /** Making one page private leaves the others as they were. */
  lemma TwinStep(s: State, child: nat, other: nat, pg: nat, n: nat, f: nat, t: nat)
    requires Twins(s, child, other, pg, n) && n > 0 && f !in s.refs && t !in s.refs && f != t
    ensures var s' := Privatize(s, s.procs[child].dir, pg, f, t);
      && Twins(s', child, other, pg + 1, n - 1) && s'.procs == s.procs && Views(s') == Views(s)
      && s'.refs.Keys == s.refs.Keys + {f, t}
  {
    var d := s.procs[child].dir;
    var s' := Privatize(s, d, pg, f, t);
    hide Privatize, Privatized, Inv, Owns, FrameOf, Views;
    TwinCount(s, child, other, pg, n);
    PrivatizeIs(s, child, pg, f, t);
    PrivatizedKeys(s, s', d, FrameOf(s, d, pg), TableOf(s, d, pg), pg, f, t);
    PrivatizeInv(s, child, pg, f, t);
    RepointedFrames(s, s', child, pg, f);
  }

  lemma RepointedFrames(s: State, s': State, pid: nat, pg: nat, f: nat)
    requires Repointed(s, s', pid, pg, Pte(true, true, f))
    ensures s'.procs == s.procs
    ensures forall q, x: nat :: q in s.procs && x != pg && Owns(s.procs[q], x) ==>
      FrameOf(s', s.procs[q].dir, x) == FrameOf(s, s.procs[q].dir, x)
  {
    hide Owns, PteOf;
  }

  lemma TwinHas(s: State, child: nat, other: nat, pg: nat, n: nat)
    requires Twins(s, child, other, pg, n)
    ensures Inv(s) && child in s.procs && other in s.procs && child != other
  {
  }

  lemma {:induction false} PrivatizeAllInv(s: State, child: nat, other: nat, pg: nat, spare: seq<(nat, nat)>)
    requires Twins(s, child, other, pg, |spare|) && Spare(s.refs.Keys, spare)
    ensures var s' := PrivatizeAll(s, s.procs[child].dir, pg, spare);
      Inv(s') && s'.procs == s.procs && Views(s') == Views(s)
    decreases |spare|
  {
    hide Privatize, Inv, Twins, Views, View;
    TwinHas(s, child, other, pg, |spare|);
    if spare != [] {
      var f, t, rest := spare[0].0, spare[0].1, spare[1..];
      var d := s.procs[child].dir;
      var s1 := Privatize(s, d, pg, f, t);
      assert Spare(s.refs.Keys + {f, t}, rest) && |rest| == |spare| - 1;
      assert PrivatizeAll(s, d, pg, spare) == PrivatizeAll(s1, d, pg + 1, rest);
      TwinStep(s, child, other, pg, |spare|, f, t);
      hide Spare, PrivatizeAll;
      assert s1.refs.Keys == s.refs.Keys + {f, t};
      PrivatizeAllInv(s1, child, other, pg + 1, rest);
    }
  }

  ghost predicate ForkEnabled(s: State, parent: nat, child: nat, d: nat, spare: seq<(nat, nat)>) {
    && parent in s.procs && child !in s.procs && d !in s.refs
    && var m := MessagePages(s.procs[parent].msg);
       && |spare| == m.hi - m.lo && Spare(s.refs.Keys + {d}, spare)
       && forall x: nat :: m.Has(x) ==> Owns(s.procs[parent], x)
  }

  lemma ForkedIs(s: State, s1: State, s2: State, parent: nat, child: nat, d: nat)
    requires Inv(s) && parent in s.procs && child !in s.procs && d !in s.refs && Shared(s, s1, s.procs[parent], d)
    requires s2 == s1.(procs := s1.procs[child := s.procs[parent].(dir := d)])
    ensures Forked(s, s2, parent, child, d) && s2.refs.Keys == s.refs.Keys + {d}
    ensures s2.procs == s.procs[child := s.procs[parent].(dir := d)]
  {
    hide Inv, Softened, NewDir, Fills, Owns, Maps, Uses, Entry, PteOf;
    assert s2.(procs := s.procs) == s1;
  }

  lemma ForkedTwins(s: State, s': State, parent: nat, child: nat, d: nat, pg: nat, n: nat)
    requires Forked(s, s', parent, child, d) && Inv(s')
    requires forall x: nat :: pg <= x < pg + n ==> Owns(s.procs[parent], x)
    ensures Twins(s', child, parent, pg, n)
  {
    hide Inv, Shared, Owns;
    ForkedLooks(s, s', parent, child, d);
    ForkedHomes(s, s', parent, child, d);
    SameSpans(s.procs[parent], s.procs[parent].(dir := d));
  }

  /** The heap and process table once the parent's space is shared. */
  function Halfway(s: State, parent: nat, child: nat, d: nat): State
    requires parent in s.procs
  {
    var s1 := Share(s, s.procs[parent], d);
    s1.(procs := s1.procs[child := s.procs[parent].(dir := d)])
  }

  lemma ForkIs(s: State, parent: nat, child: nat, d: nat, spare: seq<(nat, nat)>)
    requires parent in s.procs
    ensures Fork(s, parent, child, d, spare)
      == PrivatizeAll(Halfway(s, parent, child, d), d, MessagePages(s.procs[parent].msg).lo, spare)
  {
    hide Share, PrivatizeAll, MessagePages;
  }

  lemma HalfwayForked(s: State, parent: nat, child: nat, d: nat)
    requires Inv(s) && parent in s.procs && child !in s.procs && d !in s.refs
    ensures var s' := Halfway(s, parent, child, d);
      && Forked(s, s', parent, child, d) && s'.refs.Keys == s.refs.Keys + {d}
      && s'.procs == s.procs[child := s.procs[parent].(dir := d)]
  {
    var p := s.procs[parent];
    assert Kinds(s) && SpaceOk(s, p);
    hide Inv, Shared, Share, SpaceOk, Kinds, Forked;
    ShareFacts(s, p, d);
    ForkedIs(s, Share(s, p, d), Halfway(s, parent, child, d), parent, child, d);
  }

  lemma HalfwayRefines(s: State, parent: nat, child: nat, d: nat, pg: nat, n: nat)
    requires Inv(s) && parent in s.procs && child !in s.procs && d !in s.refs
    requires forall x: nat :: pg <= x < pg + n ==> Owns(s.procs[parent], x)
    ensures var s' := Halfway(s, parent, child, d);
      && Twins(s', child, parent, pg, n) && s'.refs.Keys == s.refs.Keys + {d}
      && s'.procs == s.procs[child := s.procs[parent].(dir := d)]
      && Views(s') == Views(s)[child := Views(s)[parent]]
  {
    var s' := Halfway(s, parent, child, d);
    assert Views(s)[parent] == View(s, s.procs[parent]);
    hide Inv, Forked, Twins, Halfway, View, Views, Owns;
    HalfwayForked(s, parent, child, d);
    ForkedInv(s, s', parent, child, d);
    ForkedViews(s, s', parent, child, d);
    ForkedTwins(s, s', parent, child, d, pg, n);
  }

  /** A fork is a fork on the eager machine: the child gets its parent's view. */
  lemma ForkRefines(s: State, parent: nat, child: nat, d: nat, spare: seq<(nat, nat)>)
    requires Inv(s) && ForkEnabled(s, parent, child, d, spare)
    ensures var s' := Fork(s, parent, child, d, spare);
      && Inv(s') && parent in Views(s) && Views(s') == Views(s)[child := Views(s)[parent]]
      && s'.procs == s.procs[child := s.procs[parent].(dir := d)]
  {
    hide Inv, Twins, Halfway, Owns, MessagePages, Spare, Fork, PrivatizeAll, View;
    var m := MessagePages(s.procs[parent].msg);
    var s' := Halfway(s, parent, child, d);
    assert parent in Views(s);
    hide Views;
    ForkIs(s, parent, child, d, spare);
    HalfwayRefines(s, parent, child, d, m.lo, |spare|);
    PrivatizeAllInv(s', child, parent, m.lo, spare);
  }

  // ---------- a message page too many ----------

  lemma SpareTwo(s: State, d: nat, pg: nat, spare: seq<(nat, nat)>)
    requires |spare| == 2 && Spare(s.refs.Keys, spare)
    ensures var f, t, f2, t2 := spare[0].0, spare[0].1, spare[1].0, spare[1].1;
      && f !in s.refs && t !in s.refs && f != t && f2 !in s.refs.Keys + {f, t} && t2 !in s.refs.Keys + {f, t}
      && f2 != t2
      && PrivatizeAll(s, d, pg, spare) == Privatize(Privatize(s, d, pg, f, t), d, pg + 1, f2, t2)
  {
    hide Privatize;
    var rest := spare[1..];
    assert rest[0] == spare[1] && rest[1..] == [];
    var s1 := Privatize(s, d, pg, spare[0].0, spare[0].1);
    var s2 := Privatize(s1, d, pg + 1, rest[0].0, rest[0].1);
    assert PrivatizeAll(s2, d, pg + 2, []) == s2;
    assert PrivatizeAll(s1, d, pg + 1, rest) == s2;
  }

  /** The 32 bytes of the message lie in pages the process owns. */
  ghost predicate MessageOwned(p: Proc) {
    p.msg != 0 ==>
      forall x: nat :: PageDown(p.msg) <= x <= PageDown(p.msg + MESSAGE_SIZE - 1) ==> Owns(p, x)
  }

  /** A message that ends with its page, where the next page is not the process's. */
  predicate EndsAtLimit(p: Proc) {
    p.msg % PG_SIZE == PG_SIZE - MESSAGE_SIZE && !Owns(p, PageDown(p.msg) + 1)
  }

  /** The kernel counts the pages of a message right but for one that ends with its page: there
      it counts the next page too. */
  lemma PagesCounted(va: nat)
    requires va != 0
    ensures MessagePages(va) == Span(va / 4096, (va + 31) / 4096 + 1 + if va % 4096 == 0xFE0 then 1 else 0)
  {
  }

  /** The counted pages are the process's just when the message is and does not end at its limit. */
  lemma CountedOwned(p: Proc)
    requires MessageOwned(p)
    ensures (forall x: nat :: MessagePages(p.msg).Has(x) ==> Owns(p, x)) <==> !EndsAtLimit(p)
  {
    if p.msg != 0 {
      PagesCounted(p.msg);
      var pg := PageDown(p.msg);
      hide Owns, MessagePages, PageDown;
      if EndsAtLimit(p) { assert MessagePages(p.msg).Has(pg + 1); }
    }
  }

  lemma UnownedFrame(s: State, pid: nat, pg: nat, f: nat, t: nat, q: nat)
    requires Inv(s) && pid in s.procs && f !in s.refs && t !in s.refs && q in s.procs && q != pid
    requires Owns(s.procs[q], pg)
    ensures FrameOf(Privatize(s, s.procs[pid].dir, pg, f, t), s.procs[q].dir, pg) != f
  {
    var e := s.procs[q].dir;
    assert Ready(s, q, pg);
    ReadyFacts(s, q, pg);
    assert e != s.procs[pid].dir && f !in s.data && TableOf(s, e, pg) != t;
    hide Inv, Owns, Pdx, Ptx, Ready;
  }

  lemma UnownedData(s: State, d: nat, pg: nat, f: nat, t: nat)
    requires f != t
    ensures var s' := Privatize(s, d, pg, f, t);
      f in s'.data && Home(s', f) == pg && Ref(s', f) == 1 && s'.procs == s.procs
  {
    hide Pdx, Ptx, FrameOf, TableOf, Entry;
  }

  /** Copying a page that is not the process's leaves a frame nobody maps. */
  lemma UnownedCopied(s: State, pid: nat, pg: nat, f: nat, t: nat)
    requires Inv(s) && pid in s.procs && !Owns(s.procs[pid], pg) && f !in s.refs && t !in s.refs && f != t
    ensures !Inv(Privatize(s, s.procs[pid].dir, pg, f, t))
  {
    var s' := Privatize(s, s.procs[pid].dir, pg, f, t);
    UnownedData(s, s.procs[pid].dir, pg, f, t);
    hide Privatize, Owns, FrameOf, Kinds, SoleWriters, DirsApart, SpaceOk, Home, Ref;
    forall q | q in s.procs ensures !Maps(s', s.procs[q], f) {
      if q != pid && Owns(s.procs[q], pg) { UnownedFrame(s, pid, pg, f, t, q); }
    }
    hide Maps;
    assert Mappers(s', f) == {};
    hide Mappers;
    if Inv(s') { CountOf(s', f); }
  }

  lemma CountOf(s: State, f: nat)
    requires Inv(s) && f in s.data
    ensures |Mappers(s, f)| == Ref(s, f)
  {
    hide Mappers, Users, Kinds, SoleWriters, DirsApart, SpaceOk;
  }

  /** Fork keeps the invariant just when the message the parent left, all its own, does not end
      where the parent's pages end: then fork copies a page that is not the parent's. */
  lemma ForkExact(s: State, parent: nat, child: nat, d: nat, spare: seq<(nat, nat)>)
    requires Inv(s) && parent in s.procs && child !in s.procs && d !in s.refs && MessageOwned(s.procs[parent])
    requires var m := MessagePages(s.procs[parent].msg); |spare| == m.hi - m.lo && Spare(s.refs.Keys + {d}, spare)
    ensures Inv(Fork(s, parent, child, d, spare)) <==> !EndsAtLimit(s.procs[parent])
    ensures !EndsAtLimit(s.procs[parent]) <==> ForkEnabled(s, parent, child, d, spare)
  {
    var p := s.procs[parent];
    hide Inv, Fork, Owns, MessageOwned, Spare, Views;
    CountedOwned(p);
    if EndsAtLimit(p) {
      LimitPages(p);
      hide EndsAtLimit, MessagePages, PageDown;
      LimitFork(s, parent, child, d, spare);
    } else {
      hide EndsAtLimit, MessagePages;
      ForkRefines(s, parent, child, d, spare);
    }
  }

  lemma LimitPages(p: Proc)
    requires MessageOwned(p) && EndsAtLimit(p)
    ensures var pg := PageDown(p.msg); MessagePages(p.msg) == Span(pg, pg + 2) && Owns(p, pg) && !Owns(p, pg + 1)
  {
    hide Owns;
  }

  /** The second of two copies is of a page that is not the process's. */
  lemma LimitCopies(h: State, child: nat, other: nat, d: nat, pg: nat, spare: seq<(nat, nat)>)
    requires Twins(h, child, other, pg, 1) && h.procs[child].dir == d && !Owns(h.procs[child], pg + 1)
    requires |spare| == 2 && Spare(h.refs.Keys, spare)
    ensures !Inv(PrivatizeAll(h, d, pg, spare))
  {
    hide Inv, Twins, Views, Owns, Spare, Privatize, PrivatizeAll;
    SpareTwo(h, d, pg, spare);
    TwinStep(h, child, other, pg, 1, spare[0].0, spare[0].1);
    var s1 := Privatize(h, d, pg, spare[0].0, spare[0].1);
    TwinHas(s1, child, other, pg + 1, 0);
    UnownedCopied(s1, child, pg + 1, spare[1].0, spare[1].1);
  }

  lemma LimitFork(s: State, parent: nat, child: nat, d: nat, spare: seq<(nat, nat)>)
    requires Inv(s) && parent in s.procs && child !in s.procs && d !in s.refs
    requires |spare| == 2 && Spare(s.refs.Keys + {d}, spare)
    requires var p := s.procs[parent]; var pg := MessagePages(p.msg).lo; Owns(p, pg) && !Owns(p, pg + 1)
    ensures !Inv(Fork(s, parent, child, d, spare))
  {
    hide Inv, Twins, Halfway, Views, Owns, MessagePages, Spare, Fork, PrivatizeAll, Fills, Layout;
    var p := s.procs[parent];
    var pg, h := MessagePages(p.msg).lo, Halfway(s, parent, child, d);
    ForkIs(s, parent, child, d, spare);
    SameSpans(p, p.(dir := d));
    HalfwayRefines(s, parent, child, d, pg, 1);
    TwinHas(h, child, parent, pg, 1);
    LimitCopies(h, child, parent, d, pg, spare);
  }
}
