/** A run after which a store loses a page table: an exit leaves the table of `program_break`
    counted once too often, and another child parts with the table but not with its pages. */
module CowStoreLeak {
  import opened Pages
  import opened CowSpec
  import opened CowShare
  import opened CowFault
  import opened CowStore
  import opened CowExit
  import opened CowLoad
  import opened CowRuns
  import opened CowLeaks

  /** Pages `pg` and `pg + 1` of process `pid` have their entries in table `t`, which is the one
      of `program_break`; `users` point to it. */
  ghost predicate Holds(s: State, pid: nat, pg: nat, t: nat, users: set<nat>) {
    && Inv(s) && pid in s.procs && Owns(s.procs[pid], pg) && Owns(s.procs[pid], pg + 1)
    && s.procs[pid].msg == 0 && s.procs[pid].image.Image?
    && t in s.tables && Slot(s, t) == Pdx(pg) == Pdx(pg + 1) == Region(s.procs[pid].image.end) && Users(s, t) == users
  }

  lemma HoldsHas(s: State, pid: nat, pg: nat, t: nat, users: set<nat>)
    requires Holds(s, pid, pg, t, users)
    ensures Inv(s) && pid in s.procs && Ready(s, pid, pg + 1) && Users(s, t) == users
  {
    hide Inv, Owns, Users;
  }

  lemma UserTable(s: State, q: nat, pg: nat, t: nat)
    requires Ready(s, q, pg) && q in Users(s, t) && Slot(s, t) == Pdx(pg)
    ensures TableOf(s, s.procs[q].dir, pg) == t
  {
    hide Inv, Owns, Fills, Pdx, Slot, Entry;
    ReadyFacts(s, q, pg);
  }

  /** A page mapped twice is not writable. */
  lemma SharedReadOnly(s: State, q: nat, pg: nat)
    requires Ready(s, q, pg) && Ref(s, FrameOf(s, s.procs[q].dir, pg)) > 1
    ensures !PteOf(s, s.procs[q].dir, pg).writable
  {
    hide Owns, Counted, Kinds, DirsApart, SpaceOk;
  }

  // ---------- the steps of the run ----------

  lemma ForkIsHalfway(s: State, pid: nat, c: nat, d: nat)
    requires pid in s.procs && s.procs[pid].msg == 0
    ensures Fork(s, pid, c, d, []) == Halfway(s, pid, c, d)
    ensures c !in s.procs && d !in s.refs ==> ForkEnabled(s, pid, c, d, [])
  {
    hide Halfway, Fork, Owns;
    ForkIs(s, pid, c, d, []);
  }

  /** A fork adds the child to the table's users, and shares every page. */
  lemma ForkHolds(s: State, pid: nat, c: nat, d: nat, pg: nat, t: nat)
    requires Holds(s, pid, pg, t, {pid}) && c !in s.procs && d !in s.refs
    ensures ForkEnabled(s, pid, c, d, [])
    ensures var s' := Fork(s, pid, c, d, []);
      && Holds(s', pid, pg, t, {pid, c}) && Excess(s', t) == Excess(s, t) && Twins(s', c, pid, pg, 2)
      && s'.procs == s.procs[c := s.procs[pid].(dir := d)] && s'.refs.Keys == s.refs.Keys + {d}
  {
    hide Inv, Fork, Halfway, Owns, Pdx, Users, Uses, Excess, Lost, Twins, Forked, Views, Slot, ForkEnabled, Region;
    var s' := Halfway(s, pid, c, d);
    ForkIsHalfway(s, pid, c, d);
    HalfwayRefines(s, pid, c, d, pg, 2);
    HalfwayTables(s, pid, c, d, t);
    HalfwayForked(s, pid, c, d);
    ForkedMappers(s, s', pid, c, d, t);
    InMappers(s, pid, t);
    TwinHas(s', c, pid, pg, 2);
    assert t in s'.tables.Keys;
  }

  lemma LeftRefs(s: State, s': State, pid: nat)
    requires Left(s, s', pid) && Kinds(s')
    ensures s'.refs.Keys <= s.refs.Keys
  {
    assert Kinds(s);
    hide Inv;
    forall f | f in s'.refs.Keys ensures f in s.refs.Keys {
      assert KeptPage(s, s', s.procs[pid], f) && KeptTable(s, s', s.procs[pid], f);
    }
  }

  /** The child's exit leaves the table with a reference too many. */
  lemma ExitHolds(s: State, pid: nat, c: nat, pg: nat, t: nat)
    requires Holds(s, pid, pg, t, {pid, c}) && c in s.procs && c != pid && s.procs[c].image == s.procs[pid].image
    ensures var s' := Exit(s, c);
      && Holds(s', pid, pg, t, {pid}) && Excess(s', t) == Excess(s, t) + 1
      && s'.procs == s.procs - {c} && s'.refs.Keys <= s.refs.Keys
  {
    hide Inv, Exit, Owns, Pdx, Users, Uses, Excess, Lost, Views, Slot, Region, Left, Kinds, Mappers;
    var s' := Exit(s, c);
    ExitRefines(s, c);
    ExitLeaves(s, c);
    LeftMappers(s, s', c, t);
    LeftRefs(s, s', c);
    ExitTables(s, c, t);
    InMappers(s, c, t);
    assert c in Users(s, t) && {pid, c} - {c} == {pid};
  }

  /** A store by the child goes to a page and a table of its own; the other page stays shared. */
  lemma StoreHolds(s: State, pid: nat, c: nat, pg: nat, t: nat, va: nat, b: bv8, f: nat, u: nat)
    requires Holds(s, pid, pg, t, {pid, c}) && Twins(s, c, pid, pg, 2) && Excess(s, t) >= 1
    requires PageDown(va) == pg && f !in s.refs && u !in s.refs && f != u
    ensures StoreEnabled(s, c, va, f, u)
    ensures var s' := Store(s, c, va, b, f, u);
      && Holds(s', pid, pg, t, {pid}) && Excess(s', t) == Excess(s, t) && s'.refs.Keys == s.refs.Keys + {f, u}
      && Ref(s', FrameOf(s', s.procs[pid].dir, pg + 1)) > 1 && s'.procs == s.procs
  {
    hide Inv, Owns, Pdx, Users, PageDown, Twins, Privatize, Store, Slot, PteOf, Region, StoreEnabled, Excess, Views;
    TwinHas(s, c, pid, pg, 2);
    TwinCount(s, c, pid, pg, 2);
    assert StoreEnabled(s, c, va, f, u) by { StoreMay(s, c, va, f, u); }
    StoreRefines(s, c, va, b, f, u);
    StorePrivatizes(s, pid, c, pg, t, va, b, f, u);
    var s1 := Privatize(s, s.procs[c].dir, pg, f, u);
    PrivateHolds(s, pid, c, pg, t, f, u);
    var s' := Store(s, c, va, b, f, u);
    WrittenHolds(s, s1, s', pid, pg, t);
  }

  lemma StoreMay(s: State, c: nat, va: nat, f: nat, u: nat)
    requires Ready(s, c, PageDown(va)) && f !in s.refs && u !in s.refs && f != u
    ensures StoreEnabled(s, c, va, f, u)
  {
  }

  lemma StorePrivatizes(s: State, pid: nat, c: nat, pg: nat, t: nat, va: nat, b: bv8, f: nat, u: nat)
    requires Holds(s, pid, pg, t, {pid, c}) && c != pid && Ready(s, c, pg) && PageDown(va) == pg && Excess(s, t) >= 1
    requires Ref(s, FrameOf(s, s.procs[c].dir, pg)) > 1
    ensures var d := s.procs[c].dir; Store(s, c, va, b, f, u) == Write(Privatize(s, d, pg, f, u), d, va, b)
  {
    hide Inv, Owns, Pdx, Users, PageDown, Privatize, Write, Slot, PteOf, Region, MakeWritable, CopyPage;
    SharedReadOnly(s, c, pg);
    UserTable(s, c, pg, t);
    assert |{pid, c}| == 2;
  }

  /** The child's copies: the parent alone is left with the table. */
  lemma PrivateHolds(s: State, pid: nat, c: nat, pg: nat, t: nat, f: nat, u: nat)
    requires Holds(s, pid, pg, t, {pid, c}) && Twins(s, c, pid, pg, 2) && c != pid && Ready(s, c, pg)
    requires f !in s.refs && u !in s.refs && f != u
    ensures var s' := Privatize(s, s.procs[c].dir, pg, f, u);
      && Holds(s', pid, pg, t, {pid}) && Excess(s', t) == Excess(s, t) && s'.refs.Keys == s.refs.Keys + {f, u}
      && Ref(s', FrameOf(s', s.procs[pid].dir, pg + 1)) > 1 && s'.procs == s.procs
  {
    hide Inv, Owns, Pdx, Users, Twins, Privatize, Slot, PteOf, Region, Excess, Views, FrameOf, Ref;
    var s' := Privatize(s, s.procs[c].dir, pg, f, u);
    UserTable(s, c, pg, t);
    PrivatizeTables(s, c, pg, f, u, t);
    TwinStep(s, c, pid, pg, 2, f, u);
    TwinHas(s', c, pid, pg + 1, 1);
    TwinFrame(s', c, pid, pg + 1);
    assert {pid, c} - {c} == {pid} && t in s'.tables.Keys;
  }

  lemma TwinFrame(s: State, c: nat, pid: nat, pg: nat)
    requires Twins(s, c, pid, pg, 1)
    ensures Ref(s, FrameOf(s, s.procs[pid].dir, pg)) > 1
  {
    TwinCount(s, c, pid, pg, 1);
    hide Inv, Owns, FrameOf, Ref;
  }

  /** Writing the byte changes no entry, no count and no owner. */
  lemma WrittenHolds(s: State, s1: State, s': State, pid: nat, pg: nat, t: nat)
    requires Holds(s1, pid, pg, t, {pid}) && Inv(s') && s'.procs == s1.procs
    requires exists d, va, b :: s' == Write(s1, d, va, b)
    ensures Holds(s', pid, pg, t, {pid}) && Excess(s', t) == Excess(s1, t) && s'.refs == s1.refs
    ensures forall d, x: nat :: Ref(s', FrameOf(s', d, x)) == Ref(s1, FrameOf(s1, d, x))
  {
    hide Inv, Owns, Pdx, Region;
    SameUsers(s1, s', t);
    hide Users;
  }

  lemma ThenLoses(s: State, pid: nat, pg: nat, t: nat, va: nat)
    requires Holds(s, pid, pg, t, {pid}) && Excess(s, t) >= 1 && PageDown(va) == pg + 1
    requires Ref(s, FrameOf(s, s.procs[pid].dir, pg + 1)) > 1
    ensures StoreLoses(s, pid, va, t)
  {
    hide Inv, Owns, Pdx, PageDown, PteOf, Users, Slot, Region;
    SharedReadOnly(s, pid, pg + 1);
    UserTable(s, pid, pg + 1, t);
    assert |{pid}| == 1;
  }

  // ---------- the run ----------

  /** Two forks, the first child's exit, the second child's store. */
  function Events(pid: nat, c: nat, pg: nat, d1: nat, d2: nat, b: bv8, f: nat, u: nat): seq<Event> {
    [Forks(pid, c, d1, []), Exits(c), Forks(pid, c, d2, []), Stores(c, pg * PG_SIZE, b, f, u)]
  }

  lemma ReachedFour(s0: State, a: Event, b: Event, c: Event, d: Event)
    requires Enabled(s0, a) && Enabled(Step(s0, a), b) && Enabled(Step(Step(s0, a), b), c)
    requires Enabled(Step(Step(Step(s0, a), b), c), d)
    ensures ReachedBy(s0, [a, b, c, d], Step(Step(Step(Step(s0, a), b), c), d))
  {
    hide Enabled, Step;
    var s1 := Step(s0, a);
    var s2 := Step(s1, b);
    var s3 := Step(s2, c);
    assert [a, b, c, d][1..] == [b, c, d] && [b, c, d][1..] == [c, d] && [c, d][1..] == [d] && [d][1..] == [];
    assert ReachedBy(Step(s3, d), [], Step(s3, d));
    assert ReachedBy(s3, [d], Step(s3, d));
    assert ReachedBy(s2, [c, d], Step(s3, d));
    assert ReachedBy(s1, [b, c, d], Step(s3, d));
  }

  /** The first half: the child that exits leaves the table counted once too often. */
  lemma ExtraCount(s: State, pid: nat, c: nat, pg: nat, t: nat, d: nat)
    requires Holds(s, pid, pg, t, {pid}) && c !in s.procs && d !in s.refs
    ensures ForkEnabled(s, pid, c, d, []) && pid in s.procs
    ensures var s1 := Fork(s, pid, c, d, []);
      && c in s1.procs && var s2 := Exit(s1, c);
         && Holds(s2, pid, pg, t, {pid}) && Excess(s2, t) >= 1 && c !in s2.procs && s2.refs.Keys <= s.refs.Keys + {d}
  {
    TableCounted(s, t);
    hide Inv, Fork, Exit, Owns, Pdx, Users, Slot, Region, ForkEnabled, Twins, Ref;
    ForkHolds(s, pid, c, d, pg, t);
    ExitHolds(Fork(s, pid, c, d, []), pid, c, pg, t);
  }

  /** The second half: the other child parts with the table, and shares the second page still. */
  lemma ChildParts(s: State, pid: nat, c: nat, pg: nat, t: nat, d: nat, b: bv8, f: nat, u: nat)
    requires Holds(s, pid, pg, t, {pid}) && Excess(s, t) >= 1 && c !in s.procs && d !in s.refs
    requires f !in s.refs && u !in s.refs && f != u && d != f && d != u
    ensures ForkEnabled(s, pid, c, d, []) && pid in s.procs
    ensures var s1 := Fork(s, pid, c, d, []);
      && StoreEnabled(s1, c, pg * PG_SIZE, f, u) && c in s1.procs && var s2 := Store(s1, c, pg * PG_SIZE, b, f, u);
         && Holds(s2, pid, pg, t, {pid}) && StoreLoses(s2, pid, (pg + 1) * PG_SIZE, t)
         && s2.refs.Keys <= s.refs.Keys + {d, f, u}
  {
    hide Fork, Store, ForkEnabled, StoreEnabled, StoreLoses, Twins, Excess, Holds, FrameOf, Ref;
    HoldsHas(s, pid, pg, t, {pid});
    ForkHolds(s, pid, c, d, pg, t);
    var s1 := Fork(s, pid, c, d, []);
    assert f !in s1.refs.Keys && u !in s1.refs.Keys && PageDown(pg * PG_SIZE) == pg;
    StoreHolds(s1, pid, c, pg, t, pg * PG_SIZE, b, f, u);
    ThenLoses(Store(s1, c, pg * PG_SIZE, b, f, u), pid, pg, t, (pg + 1) * PG_SIZE);
  }

  /** From any state in which a process alone uses the table of `program_break` for two pages
      of its own, the run leads to one in which its store on the second page loses the table. */
  lemma StrayRun(s0: State, pid: nat, c: nat, pg: nat, t: nat, d1: nat, d2: nat, b: bv8, f: nat, u: nat)
      returns (s: State)
    requires Holds(s0, pid, pg, t, {pid}) && c !in s0.procs
    requires d1 !in s0.refs && d2 !in s0.refs && f !in s0.refs && u !in s0.refs
    requires d1 != d2 && d1 != f && d1 != u && d2 != f && d2 != u && f != u
    ensures ReachedBy(s0, Events(pid, c, pg, d1, d2, b, f, u), s)
    ensures Holds(s, pid, pg, t, {pid}) && StoreLoses(s, pid, (pg + 1) * PG_SIZE, t)
    ensures s.refs.Keys <= s0.refs.Keys + {d1, d2, f, u}
  {
    hide Holds, Fork, Exit, Store, Excess, ForkEnabled, StoreEnabled, StoreLoses, ReachedBy;
    ExtraCount(s0, pid, c, pg, t, d1);
    var s2 := Exit(Fork(s0, pid, c, d1, []), c);
    assert d2 !in s2.refs.Keys && f !in s2.refs.Keys && u !in s2.refs.Keys;
    ChildParts(s2, pid, c, pg, t, d2, b, f, u);
    s := Store(Fork(s2, pid, c, d2, []), c, pg * PG_SIZE, b, f, u);
    ReachedFour(s0, Forks(pid, c, d1, []), Exits(c), Forks(pid, c, d2, []), Stores(c, pg * PG_SIZE, b, f, u));
  }

  /** The first process's image: pages 0x400 and 0x401, in table 1. */
  lemma StartedHolds(page: Page)
    requires |page| == PG_SIZE
    ensures Holds(Started(page, 0), 1, 0x400, 1, {1})
  {
    hide Started, First, Inv, Owns, Users, Slot;
    StartedIs(page, 0);
    StartedTable(page, 0, 1);
    FirstLayout(First(page, 0).proc);
  }

  /** The lost table stays counted. */
  lemma LosesCounted(s: State, pid: nat, pg: nat, t: nat, va: nat, b: bv8, f: nat, u: nat)
    requires Holds(s, pid, pg, t, {pid}) && StoreLoses(s, pid, va, t) && PageDown(va) == pg + 1
    requires f !in s.refs && u !in s.refs && f != u
    ensures var e := Stores(pid, va, b, f, u);
      Enabled(s, e) && !Lost(s, t) && Lost(Step(s, e), t) && Ref(Step(s, e), t) == Ref(s, t) - 1 > 0
  {
    hide Inv, Users, Slot, StoreLoses, Store, Owns, PageDown, Ref;
    HoldsHas(s, pid, pg, t, {pid});
    StoreMay(s, pid, va, f, u);
    StoreTables(s, pid, va, b, f, u, t);
    CountedTwice(s, pid, pg, va, t);
    assert t in Store(s, pid, va, b, f, u).tables && |{pid}| == 1;
  }

  lemma CountedTwice(s: State, pid: nat, pg: nat, va: nat, t: nat)
    requires Holds(s, pid, pg, t, {pid}) && StoreLoses(s, pid, va, t)
    ensures Ref(s, t) > 1
  {
    hide Inv, Users, Slot, Owns, Pdx, PteOf, PageDown, Ref;
    assert Inv(s);
    TableCounted(s, t);
    assert |{pid}| == 1;
  }

  /** A run from the start to a store of the first process that loses its image table: in use,
      counted, and nobody points to it. */
  lemma StoreLeak(page: Page, b: bv8) returns (es: seq<Event>, s: State)
    requires |page| == PG_SIZE
    ensures es == [Loads(1, First(page, 0))] + Events(1, 2, 0x400, 20, 21, b, 22, 23)
    ensures ReachedBy(Empty(), es, s)
    ensures var e := Stores(1, 0x401 * PG_SIZE, b, 24, 25);
      Enabled(s, e) && !Lost(s, 1) && Lost(Step(s, e), 1) && Ref(Step(s, e), 1) > 0
  {
    hide Started, First, Enabled, Step, Holds, StoreLoses, Ref, Events, Lost, LoadEnabled;
    var s0, load := Started(page, 0), Loads(1, First(page, 0));
    StartedStep(page);
    StartedHolds(page);
    StartedRefs(page, 0);
    assert forall f :: f in s0.refs.Keys ==> f <= 6;
    s := StrayRun(s0, 1, 2, 0x400, 1, 20, 21, b, 22, 23);
    var run := Events(1, 2, 0x400, 20, 21, b, 22, 23);
    es := [load] + run;
    assert es[0] == load && es[1..] == run;
    assert 24 !in s.refs.Keys && 25 !in s.refs.Keys;
    LosesCounted(s, 1, 0x400, 1, 0x401 * PG_SIZE, b, 24, 25);
  }

  lemma StartedStep(page: Page)
    requires |page| == PG_SIZE
    ensures Enabled(Empty(), Loads(1, First(page, 0))) && 2 !in Started(page, 0).procs
    ensures Step(Empty(), Loads(1, First(page, 0))) == Started(page, 0)
  {
    hide LoadEnabled, Load, First, Inv;
    FirstComplete(page, 0);
    StartedIs(page, 0);
  }
}
