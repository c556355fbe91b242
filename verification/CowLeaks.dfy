/** What the counts of page tables miss: exactly which tables each step leaves in use with
    nobody pointing to them, and which runs leave none. */
module CowLeaks {
  import opened Pages
  import opened CowSpec
  import opened CowShare
  import opened CowFault
  import opened CowStore
  import opened CowExit
  import opened CowLoad
  import opened CowRuns

  /** The references counted for table `t` beyond the processes that point to it. */
  function Excess(s: State, t: nat): int {
    Ref(s, t) - |Users(s, t)|
  }

  /** Table `t` is in use, and nobody is left whose exit could free it. */
  predicate Lost(s: State, t: nat) {
    t in s.tables && Users(s, t) == {}
  }

  /** What a step does to table `t`: `loses` it, or `forgets` one reference to it. */
  ghost predicate TableGoes(s: State, s': State, t: nat, loses: bool, forgets: bool) {
    && (Lost(s', t) <==> Lost(s, t) || loses)
    && (t in s'.tables ==>
      Excess(s', t) == (if t in s.tables then Excess(s, t) else 0) + if forgets then 1 else 0)
    && (t in s.tables && t in s'.tables ==> Slot(s', t) == Slot(s, t))
  }

  lemma GoesOn(s: State, m: State, s': State, t: nat, l: bool, r: bool)
    requires TableGoes(s, m, t, l, false) && TableGoes(m, s', t, r, false)
    requires t in s.tables ==> t in m.tables && t in s'.tables
    requires t in m.tables ==> t in s'.tables
    ensures TableGoes(s, s', t, l || r, false)
  {
    hide Lost, Excess, Slot;
  }

  // ---------- a load ----------

  lemma LoadTables(s: State, pid: nat, l: Program, t: nat)
    requires Inv(s) && LoadEnabled(s, pid, l)
    ensures TableGoes(s, Load(s, pid, l), t, false, false)
  {
    hide Complete, Load, Users, Mappers, Ref, Slot, Inv, LoadEnabled;
    LoadHas(s, pid, l);
    assert Kinds(s) by { KindsOf(s); }
    LoadKeys(s, pid, l);
    LoadMappers(s, pid, l, t);
    LoadCountedAt(s, pid, l, t);
    if t in s.tables.Keys {
      assert t in s.refs.Keys;
      LoadKeepsAt(s, pid, l, t);
    }
    hide Kinds, Fresh;
    assert t in Load(s, pid, l).tables.Keys <==> t in s.tables.Keys || t in l.slots;
    LosesNone(s, Load(s, pid, l), t, pid, t in l.slots);
  }

  lemma LosesNone(s: State, s': State, t: nat, pid: nat, slot: bool)
    requires t in s'.tables <==> t in s.tables || slot
    requires Users(s', t) == Users(s, t) + if slot then {pid} else {}
    requires slot ==> t !in s.tables
    ensures Lost(s', t) <==> Lost(s, t)
  {
    hide Users;
  }

  lemma KindsOf(s: State)
    requires Inv(s)
    ensures Kinds(s)
  {
  }

  // ---------- a private table ----------

  lemma UserMoved(s: State, s': State, pid: nat, tab: nat, t: nat, y: nat)
    requires tab in s.tables && t !in s.tables && s'.tables.Keys == s.tables.Keys + {t} && pid in Users(s, tab)
    requires Users(s', y) == if y == tab then Users(s, y) - {pid} else if y == t then {pid} else Users(s, y)
    requires Ref(s', t) == 1 && Ref(s', tab) == Ref(s, tab) - 1
    requires y in s.tables && y != tab ==> Ref(s', y) == Ref(s, y)
    requires y in s.tables ==> Slot(s', y) == Slot(s, y)
    ensures TableGoes(s, s', y, y == tab && Users(s, y) == {pid}, false)
  {
    hide Users, Ref, Slot;
    assert y in s'.tables.Keys <==> y in s.tables.Keys || y == t;
    if y == tab {
      assert |Users(s', y)| == |Users(s, y)| - 1;
      assert Users(s', y) == {} <==> Users(s, y) == {pid};
    }
  }

  /** Copying a page and its table: the old table loses its user, and is lost if that was the only one. */
  lemma PrivatizeTables(s: State, pid: nat, pg: nat, f: nat, t: nat, y: nat)
    requires Ready(s, pid, pg) && f !in s.refs && t !in s.refs && f != t
    ensures var d := s.procs[pid].dir; var s', tab := Privatize(s, d, pg, f, t), TableOf(s, d, pg);
      && TableGoes(s, s', y, y == tab && Users(s, y) == {pid}, false)
      && s'.tables.Keys == s.tables.Keys + {t} && s'.procs == s.procs
      && Users(s', y) == (if y == tab then Users(s, y) - {pid} else if y == t then {pid} else Users(s, y))
  {
    var d := s.procs[pid].dir;
    var s', x, tab := Privatize(s, d, pg, f, t), FrameOf(s, d, pg), TableOf(s, d, pg);
    hide Privatize, Users, Uses, Owns, FrameOf, TableOf, Pdx, Privatized, Inv, TableGoes, Ref, Slot;
    PrivatizeIs(s, pid, pg, f, t);
    assert tab in s.tables && Uses(s, s.procs[pid], tab) by { ReadyFacts(s, pid, pg); }
    InMappers(s, pid, tab);
    assert t !in s.tables by { ReadyKinds(s, pid, pg); }
    assert Kinds(s) by { ReadyKinds(s, pid, pg); }
    hide Kinds;
    PrivatizedEntries(s, s', d, x, tab, pg, f, t);
    PrivatizedRefs(s, s', d, x, tab, pg, f, t);
    PrivatizedKeys(s, s', d, x, tab, pg, f, t);
    PrivatizedUsers(s, s', pid, d, x, tab, pg, f, t, y);
    hide Ready;
    UserMoved(s, s', pid, tab, t, y);
  }

  // ---------- a fork ----------

  lemma UserAdded(s: State, s': State, parent: nat, child: nat, t: nat)
    requires s'.tables.Keys == s.tables.Keys && Slot(s', t) == Slot(s, t)
    requires Users(s', t) == Users(s, t) + (if parent in Users(s, t) then {child} else {}) && child !in Users(s, t)
    requires t in s.tables ==> Ref(s', t) == Ref(s, t) + if parent in Users(s, t) then 1 else 0
    ensures TableGoes(s, s', t, false, false)
  {
    hide Users, Ref, Slot;
    assert t in s'.tables.Keys <==> t in s.tables.Keys;
    assert parent in Users(s, t) ==> |Users(s', t)| == |Users(s, t)| + 1;
  }

  /** Sharing adds a user and a reference where the parent has one. */
  lemma HalfwayTables(s: State, parent: nat, child: nat, d: nat, t: nat)
    requires Inv(s) && parent in s.procs && child !in s.procs && d !in s.refs
    ensures var s' := Halfway(s, parent, child, d);
      TableGoes(s, s', t, false, false) && s'.tables.Keys == s.tables.Keys
  {
    var p, s' := s.procs[parent], Halfway(s, parent, child, d);
    hide Halfway, Users, Mappers, Uses, Maps, Inv, Forked, Ref, Slot, TableGoes;
    HalfwayForked(s, parent, child, d);
    ForkedHomes(s, s', parent, child, d);
    assert Slot(s', t) == Slot(s, t) by { assert s'.slot == s.slot; SameSlot(s, s', t); }
    ForkedMappers(s, s', parent, child, d, t);
    InMappers(s, parent, t);
    if t in s.tables { ForkedTableRef(s, s', parent, child, d, t); }
    UserAdded(s, s', parent, child, t);
  }

  lemma SameSlot(s: State, s': State, t: nat)
    requires s'.slot == s.slot
    ensures Slot(s', t) == Slot(s, t)
  {
  }

  lemma ForkedTableRef(s: State, s': State, parent: nat, child: nat, d: nat, t: nat)
    requires Forked(s, s', parent, child, d) && t in s.tables
    ensures Ref(s', t) == Ref(s, t) + if Uses(s, s.procs[parent], t) then 1 else 0
  {
    hide Uses, SoleWriters, SpaceOk, Softened, Counted, Owns;
    assert Home(s, t) == -1 && t in s.refs;
    NoPage(s.procs[parent], -1);
  }

  /** `child` and another process reach page `pg` through one table. */
  ghost predicate OneTable(s: State, child: nat, other: nat, pg: nat) {
    && Ready(s, child, pg) && other in s.procs && other != child
    && other in Users(s, TableOf(s, s.procs[child].dir, pg))
  }

  lemma HalfwayOneTable(s: State, parent: nat, child: nat, d: nat, pg: nat)
    requires Inv(s) && parent in s.procs && child !in s.procs && d !in s.refs && Owns(s.procs[parent], pg)
    ensures OneTable(Halfway(s, parent, child, d), child, parent, pg)
  {
    hide Halfway, Inv, Forked, Owns, Fills, Layout, TableOf, OneTable;
    var p, s' := s.procs[parent], Halfway(s, parent, child, d);
    HalfwayForked(s, parent, child, d);
    ForkedInv(s, s', parent, child, d);
    assert Owns(p.(dir := d), pg) by { SameSpans(p, p.(dir := d)); }
    ForkedTable(s, s', parent, child, d, pg);
    OneTableIs(s', child, parent, pg);
  }

  lemma OneTableIs(s: State, child: nat, other: nat, pg: nat)
    requires Inv(s) && child in s.procs && other in s.procs && child != other
    requires Owns(s.procs[child], pg) && Owns(s.procs[other], pg)
    requires TableOf(s, s.procs[child].dir, pg) == TableOf(s, s.procs[other].dir, pg)
    ensures OneTable(s, child, other, pg)
  {
    hide Inv, Owns, TableOf, Uses, Users;
    ReadyFacts(s, other, pg);
    InMappers(s, other, TableOf(s, s.procs[other].dir, pg));
  }

  lemma ForkedTable(s: State, s': State, parent: nat, child: nat, d: nat, pg: nat)
    requires Forked(s, s', parent, child, d) && Owns(s.procs[parent], pg)
    ensures TableOf(s', d, pg) == TableOf(s', s.procs[parent].dir, pg)
  {
    hide Softened, Counted, SoleWriters, EntriesOk, PagesOk, Owns;
    ForkedLooks(s, s', parent, child, d);
    var p := s.procs[parent];
    assert SpaceOk(s, p);
    OwnsFills(p, pg);
    hide Fills, Layout, Pdx, Ptx, LooksLike;
    assert Entry(s', d, Pdx(pg)) == Entry(s, p.dir, Pdx(pg)) == Entry(s', p.dir, Pdx(pg));
  }

  /** One message page: the old table keeps the parent. */
  lemma CopyKeepsTables(s: State, child: nat, other: nat, pg: nat, f: nat, t: nat, y: nat)
    requires OneTable(s, child, other, pg) && f !in s.refs && t !in s.refs && f != t
    ensures var s' := Privatize(s, s.procs[child].dir, pg, f, t);
      TableGoes(s, s', y, false, false) && s'.tables.Keys == s.tables.Keys + {t}
  {
    hide Privatize, TableGoes, Users, Inv, Owns, TableOf;
    PrivatizeTables(s, child, pg, f, t, y);
    assert other in Users(s, y) ==> Users(s, y) != {child};
  }

  /** The second message page, after the first: in the first page's table if both have one. */
  lemma SecondPage(s: State, child: nat, other: nat, pg: nat, f: nat, t: nat)
    requires OneTable(s, child, other, pg) && OneTable(s, child, other, pg + 1)
    requires f !in s.refs && t !in s.refs && f != t && Ref(s, FrameOf(s, s.procs[child].dir, pg)) > 1
    ensures var d := s.procs[child].dir; var s' := Privatize(s, d, pg, f, t);
      && Ready(s', child, pg + 1)
      && (if Pdx(pg + 1) == Pdx(pg) then TableOf(s', d, pg + 1) == t && Users(s', t) == {child}
          else OneTable(s', child, other, pg + 1))
  {
    var d := s.procs[child].dir;
    var s', x, tab := Privatize(s, d, pg, f, t), FrameOf(s, d, pg), TableOf(s, d, pg);
    var y := TableOf(s, d, pg + 1);
    hide Privatize, TableGoes, Users, Inv, Owns, TableOf, FrameOf, Privatized, Repointed, Pdx, Views;
    PrivatizeIs(s, child, pg, f, t);
    PrivatizeInv(s, child, pg, f, t);
    PrivatizedEntries(s, s', d, x, tab, pg, f, t);
    PrivatizeTables(s, child, pg, f, t, t);
    PrivatizeTables(s, child, pg, f, t, y);
    MovedTable(s, s', d, pg, t);
    assert y in s.tables && y != t by { ReadyFacts(s, child, pg + 1); ReadyKinds(s, child, pg + 1); }
    assert t != tab by { ReadyFacts(s, child, pg); ReadyKinds(s, child, pg); }
  }

  lemma MovedTable(s: State, s': State, d: nat, pg: nat, t: nat)
    requires forall e, i :: Entry(s', e, i) == if e == d && i == Pdx(pg) then Table(t) else Entry(s, e, i)
    ensures TableOf(s', d, pg + 1) == if Pdx(pg + 1) == Pdx(pg) then t else TableOf(s, d, pg + 1)
  {
    hide Entry, Pdx;
  }

  /** A fork loses a table just when the message counts two pages of one table: the copy made
      for the first page. */
  predicate ForkLoses(p: Proc, spare: seq<(nat, nat)>, t: nat) {
    var pg := MessagePages(p.msg).lo;
    |spare| == 2 && Pdx(pg + 1) == Pdx(pg) && t == spare[0].1
  }

  lemma ForkHas(s: State, parent: nat, child: nat, d: nat, spare: seq<(nat, nat)>)
    requires ForkEnabled(s, parent, child, d, spare)
    ensures parent in s.procs && child !in s.procs && d !in s.refs && |spare| <= 2 && Spare(s.refs.Keys + {d}, spare)
    ensures var m := MessagePages(s.procs[parent].msg);
      && (forall x: nat :: m.lo <= x < m.lo + |spare| ==> Owns(s.procs[parent], x))
      && Fork(s, parent, child, d, spare) == PrivatizeAll(Halfway(s, parent, child, d), d, m.lo, spare)
  {
    hide Owns, Spare;
  }

  lemma HalfwayReady(s: State, parent: nat, child: nat, d: nat, pg: nat, n: nat)
    requires Inv(s) && parent in s.procs && child !in s.procs && d !in s.refs
    requires forall x: nat :: pg <= x < pg + n ==> Owns(s.procs[parent], x)
    ensures var s' := Halfway(s, parent, child, d);
      && Twins(s', child, parent, pg, n) && s'.refs.Keys == s.refs.Keys + {d} && s'.procs[child].dir == d
      && forall x: nat :: pg <= x < pg + n ==> OneTable(s', child, parent, x)
  {
    hide Inv, Halfway, Views, Owns, Twins, OneTable;
    HalfwayRefines(s, parent, child, d, pg, n);
    forall x: nat | pg <= x < pg + n ensures OneTable(Halfway(s, parent, child, d), child, parent, x) {
      HalfwayOneTable(s, parent, child, d, x);
    }
  }

  lemma ForkTables(s: State, parent: nat, child: nat, d: nat, spare: seq<(nat, nat)>, t: nat)
    requires Inv(s) && ForkEnabled(s, parent, child, d, spare)
    ensures TableGoes(s, Fork(s, parent, child, d, spare), t, ForkLoses(s.procs[parent], spare, t), false)
  {
    hide Inv, Halfway, Owns, MessagePages, Fork, Twins, TableGoes, Pdx, OneTable, ForkEnabled, PrivatizeAll, Spare;
    ForkHas(s, parent, child, d, spare);
    var m := MessagePages(s.procs[parent].msg);
    var h := Halfway(s, parent, child, d);
    HalfwayTables(s, parent, child, d, t);
    HalfwayReady(s, parent, child, d, m.lo, |spare|);
    MessageTables(h, child, parent, m.lo, spare, t);
    GoesOn(s, h, PrivatizeAll(h, d, m.lo, spare), t, false, ForkLoses(s.procs[parent], spare, t));
  }

  lemma MessageTables(s: State, child: nat, other: nat, pg: nat, spare: seq<(nat, nat)>, y: nat)
    requires |spare| <= 2 && Twins(s, child, other, pg, |spare|) && Spare(s.refs.Keys, spare)
    requires forall x: nat :: pg <= x < pg + |spare| ==> OneTable(s, child, other, x)
    ensures var s' := PrivatizeAll(s, s.procs[child].dir, pg, spare);
      && TableGoes(s, s', y, |spare| == 2 && Pdx(pg + 1) == Pdx(pg) && y == spare[0].1, false)
      && s.tables.Keys <= s'.tables.Keys
  {
    if |spare| == 0 { return; }
    var d, f, t := s.procs[child].dir, spare[0].0, spare[0].1;
    var s1 := Privatize(s, d, pg, f, t);
    hide Inv, Privatize, Owns, TableGoes, Pdx, Users, FrameOf, TableOf, Twins, OneTable;
    assert OneTable(s, child, other, pg);
    SpareFirst(s, d, pg, spare);
    CopyKeepsTables(s, child, other, pg, f, t, y);
    if |spare| == 2 {
      assert OneTable(s, child, other, pg + 1);
      SpareTwo(s, d, pg, spare);
      TwinCount(s, child, other, pg, 2);
      TwinStep(s, child, other, pg, 2, f, t);
      SecondPage(s, child, other, pg, f, t);
      SecondTables(s1, child, other, pg, spare[1].0, spare[1].1, t, y);
      GoesOn(s, s1, Privatize(s1, d, pg + 1, spare[1].0, spare[1].1), y, false, Pdx(pg + 1) == Pdx(pg) && y == t);
    }
  }

  lemma SecondTables(s: State, child: nat, other: nat, pg: nat, f: nat, t: nat, first: nat, y: nat)
    requires Ready(s, child, pg + 1) && f !in s.refs && t !in s.refs && f != t
    requires
      if Pdx(pg + 1) == Pdx(pg) then TableOf(s, s.procs[child].dir, pg + 1) == first && Users(s, first) == {child}
      else OneTable(s, child, other, pg + 1)
    ensures var s' := Privatize(s, s.procs[child].dir, pg + 1, f, t);
      TableGoes(s, s', y, Pdx(pg + 1) == Pdx(pg) && y == first, false) && s'.tables.Keys == s.tables.Keys + {t}
  {
    hide Inv, Privatize, Owns, TableGoes, Pdx, Users, FrameOf, TableOf;
    if Pdx(pg + 1) == Pdx(pg) {
      PrivatizeTables(s, child, pg + 1, f, t, y);
    } else {
      CopyKeepsTables(s, child, other, pg + 1, f, t, y);
    }
  }

  lemma SpareFirst(s: State, d: nat, pg: nat, spare: seq<(nat, nat)>)
    requires |spare| > 0 && Spare(s.refs.Keys, spare)
    ensures spare[0].0 !in s.refs && spare[0].1 !in s.refs && spare[0].0 != spare[0].1
    ensures |spare| == 1 ==> PrivatizeAll(s, d, pg, spare) == Privatize(s, d, pg, spare[0].0, spare[0].1)
  {
    hide Privatize;
    if |spare| == 1 {
      assert spare[1..] == [];
      assert PrivatizeAll(Privatize(s, d, pg, spare[0].0, spare[0].1), d, pg + 1, [])
        == Privatize(s, d, pg, spare[0].0, spare[0].1);
    }
  }

  // ---- which forks and exits lose a table ----

  /** The message does not count two pages of one table. */
  predicate OneTableEach(msg: nat) {
    var m := MessagePages(msg);
    m.hi - m.lo == 2 ==> Pdx(m.lo + 1) != Pdx(m.lo)
  }

  lemma NoForkLoss(s: State, parent: nat, child: nat, d: nat, spare: seq<(nat, nat)>, t: nat)
    requires ForkEnabled(s, parent, child, d, spare) && OneTableEach(s.procs[parent].msg)
    ensures !ForkLoses(s.procs[parent], spare, t)
  {
    hide Spare, Owns;
  }

  lemma ForkLosesIf(s: State, parent: nat, child: nat, d: nat, spare: seq<(nat, nat)>) returns (t: nat)
    requires Inv(s) && ForkEnabled(s, parent, child, d, spare) && !OneTableEach(s.procs[parent].msg)
    ensures Lost(Fork(s, parent, child, d, spare), t) && !Lost(s, t)
  {
    hide Inv, ForkEnabled, Fork, Lost, Excess, Slot, Pdx, MessagePages, Owns, Spare, PrivatizeAll, Halfway;
    ForkHas(s, parent, child, d, spare);
    ForkSpare(s, parent, child, d, spare);
    t := spare[0].1;
    ForkTables(s, parent, child, d, spare, t);
  }

  /** A fork loses a table if and only if the message counts two pages of one table. */
  lemma ForkLossExact(s: State, parent: nat, child: nat, d: nat, spare: seq<(nat, nat)>)
    requires Inv(s) && ForkEnabled(s, parent, child, d, spare)
    ensures var s' := Fork(s, parent, child, d, spare);
      (exists t :: Lost(s', t) && !Lost(s, t)) <==> !OneTableEach(s.procs[parent].msg)
  {
    hide Inv, ForkEnabled, Fork, Lost, Excess, Slot, OneTableEach, ForkLoses, Owns, Spare, PrivatizeAll, Halfway;
    ForkHas(s, parent, child, d, spare);
    if OneTableEach(s.procs[parent].msg) {
      forall t ensures Lost(Fork(s, parent, child, d, spare), t) ==> Lost(s, t) {
        NoForkLoss(s, parent, child, d, spare, t);
        ForkTables(s, parent, child, d, spare, t);
      }
    } else {
      var t := ForkLosesIf(s, parent, child, d, spare);
    }
  }

  lemma ForkSpare(s: State, parent: nat, child: nat, d: nat, spare: seq<(nat, nat)>)
    requires Inv(s) && ForkEnabled(s, parent, child, d, spare)
    ensures var m := MessagePages(s.procs[parent].msg); |spare| == m.hi - m.lo
    ensures |spare| > 0 ==> !Lost(s, spare[0].1)
  {
    hide Owns, Counted, SoleWriters, DirsApart, SpaceOk;
  }

  /** There is a table `program_break` lies in. */
  predicate HasBreak(p: Proc) {
    p.image.Image? && Region(p.image.start) <= Region(p.image.end)
  }

  /** The table `program_break` lies in. */
  function BreakTable(s: State, p: Proc): nat
    requires p.image.Image?
  {
    var e := Entry(s, p.dir, Region(p.image.end));
    if e.Table? then e.frame else 0
  }

  /** Where every table is counted once for each user, an exit loses a table if and only if the
      process has a table of `program_break` and nobody else points to it. */
  lemma ExitLossExact(s: State, pid: nat)
    requires Inv(s) && pid in s.procs && forall t :: t in s.tables ==> Excess(s, t) == 0
    ensures (exists t :: Lost(Exit(s, pid), t) && !Lost(s, t))
      <==> HasBreak(s.procs[pid]) && Users(s, BreakTable(s, s.procs[pid])) == {pid}
  {
    var s', p := Exit(s, pid), s.procs[pid];
    forall t
      ensures Lost(s', t) && !Lost(s, t) <==>
        t in s.tables && Users(s, t) == {pid} && HasBreak(p) && t == BreakTable(s, p)
    {
      ExitLossAt(s, pid, t);
    }
    if HasBreak(p) { BreakTableIs(s, pid); }
    hide Inv, Exit, Lost, Excess, BreakTable, Users, HasBreak;
    if HasBreak(p) && Users(s, BreakTable(s, p)) == {pid} {
      var t := BreakTable(s, p);
      assert Lost(s', t) && !Lost(s, t);
    }
  }

  lemma BreakTableIs(s: State, pid: nat)
    requires Inv(s) && pid in s.procs && HasBreak(s.procs[pid])
    ensures var p := s.procs[pid]; var t := BreakTable(s, p);
      t in s.tables && Uses(s, p, t) && Slot(s, t) == Region(p.image.end)
  {
    hide Kinds, Counted, SoleWriters, DirsApart, PagesOk, Layout, StackTables;
    var p := s.procs[pid];
    assert SpaceOk(s, p) && ImageTables(p).Has(Region(p.image.end)) by { BreakListed(p); }
  }

  lemma BreakListed(p: Proc)
    requires HasBreak(p)
    ensures ImageTables(p).Has(Region(p.image.end))
  {
  }

  lemma BreakFilled(s: State, pid: nat, t: nat)
    requires Inv(s) && pid in s.procs && s.procs[pid].image.Image? && Uses(s, s.procs[pid], t)
    requires Slot(s, t) == Region(s.procs[pid].image.end)
    ensures HasBreak(s.procs[pid])
  {
    hide Kinds, Counted, SoleWriters, DirsApart, PagesOk, EntriesOk, Entry, Slot;
    assert SpaceOk(s, s.procs[pid]);
  }

  lemma ExitLossAt(s: State, pid: nat, t: nat)
    requires Inv(s) && pid in s.procs && (t in s.tables ==> Excess(s, t) == 0)
    ensures var p := s.procs[pid];
      Lost(Exit(s, pid), t) && !Lost(s, t) <==>
        t in s.tables && Users(s, t) == {pid} && HasBreak(p) && t == BreakTable(s, p)
  {
    var p := s.procs[pid];
    ExitTables(s, pid, t);
    InMappers(s, pid, t);
    if HasBreak(p) { BreakTableIs(s, pid); }
    hide Inv, Exit, Users, Ref, Slot;
    if t in s.tables && Users(s, t) == {pid} {
      if p.image.Image? && Slot(s, t) == Region(p.image.end) { BreakFilled(s, pid, t); }
      assert pid in Users(s, t) && |Users(s, t)| == 1;
    }
  }

  // ---------- a store ----------

  /** A store loses a table just when it faults on a shared page, the table is counted more
      than once, and nobody else points to it. */
  ghost predicate StoreLoses(s: State, pid: nat, va: nat, t: nat)
    requires pid in s.procs
  {
    var d, pg := s.procs[pid].dir, PageDown(va);
    && !PteOf(s, d, pg).writable && Ref(s, FrameOf(s, d, pg)) != 1 && Ref(s, TableOf(s, d, pg)) != 1
    && t == TableOf(s, d, pg) && Users(s, t) == {pid}
  }

  lemma UsersKept(s: State, s': State, t: nat)
    requires s'.dirs == s.dirs && s'.slot == s.slot && s'.procs == s.procs && s'.tables.Keys == s.tables.Keys
    requires t in s.tables ==> Ref(s', t) == Ref(s, t)
    ensures TableGoes(s, s', t, false, false)
  {
    SameUsers(s, s', t);
    hide Users, Ref;
    assert t in s'.tables.Keys <==> t in s.tables.Keys;
  }

  lemma WriteTables(s: State, pid: nat, va: nat, b: bv8, t: nat)
    requires pid in s.procs
    ensures TableGoes(s, Write(s, s.procs[pid].dir, va, b), t, false, false)
  {
    UsersKept(s, Write(s, s.procs[pid].dir, va, b), t);
  }

  lemma ResolveTables(s: State, pid: nat, va: nat, f: nat, t: nat, y: nat)
    requires StoreEnabled(s, pid, va, f, t) && !PteOf(s, s.procs[pid].dir, PageDown(va)).writable
    ensures var s' := Resolve(s, s.procs[pid].dir, PageDown(va), f, t);
      TableGoes(s, s', y, StoreLoses(s, pid, va, y), false) && s.tables.Keys <= s'.tables.Keys && s'.procs == s.procs
  {
    var d, pg := s.procs[pid].dir, PageDown(va);
    hide Inv, Owns, FrameOf, PteOf, Privatize, MakeWritable, CopyPage, TableGoes, PageDown, Users, TableOf;
    ReadyFacts(s, pid, pg);
    if Ref(s, FrameOf(s, d, pg)) == 1 {
      FlagTables(s, pid, pg, y);
    } else if Ref(s, TableOf(s, d, pg)) == 1 {
      CopyTables(s, pid, pg, f, y);
    } else {
      PrivatizeTables(s, pid, pg, f, t, y);
    }
  }

  lemma FlagTables(s: State, pid: nat, pg: nat, y: nat)
    requires Ready(s, pid, pg)
    ensures var s' := MakeWritable(s, s.procs[pid].dir, pg);
      TableGoes(s, s', y, false, false) && s'.tables.Keys == s.tables.Keys && s'.procs == s.procs
  {
    var d := s.procs[pid].dir;
    var s' := MakeWritable(s, d, pg);
    ReadyFacts(s, pid, pg);
    hide Inv, Owns, PteOf, TableOf, TableGoes, Ready;
    SetPteIs(s, d, pg, PteOf(s, d, pg).(writable := true));
    assert s'.tables.Keys == s.tables.Keys;
    hide SetPte;
    UsersKept(s, s', y);
  }

  lemma CopyTables(s: State, pid: nat, pg: nat, f: nat, y: nat)
    requires Ready(s, pid, pg) && f !in s.refs
    ensures var s' := CopyPage(s, s.procs[pid].dir, pg, f);
      TableGoes(s, s', y, false, false) && s'.tables.Keys == s.tables.Keys && s'.procs == s.procs
  {
    var d := s.procs[pid].dir;
    var s', x, t := CopyPage(s, d, pg, f), FrameOf(s, d, pg), TableOf(s, d, pg);
    hide Inv, Owns, CopyPage, FrameOf, TableOf, TableGoes, PageCopied;
    CopyPageIs(s, pid, pg, f);
    ReadyKinds(s, pid, pg);
    PageCopiedIs(s, s', x, t, pg, f);
    UsersKept(s, s', y);
  }

  lemma StoreTables(s: State, pid: nat, va: nat, b: bv8, f: nat, t: nat, y: nat)
    requires StoreEnabled(s, pid, va, f, t)
    ensures TableGoes(s, Store(s, pid, va, b, f, t), y, StoreLoses(s, pid, va, y), false)
  {
    var d := s.procs[pid].dir;
    hide Inv, Owns, FrameOf, PteOf, Resolve, Write, TableGoes, PageDown, Users, TableOf;
    if PteOf(s, d, PageDown(va)).writable {
      WriteTables(s, pid, va, b, y);
    } else {
      var m := Resolve(s, d, PageDown(va), f, t);
      ResolveTables(s, pid, va, f, t, y);
      WriteTables(m, pid, va, b, y);
      assert Write(m, d, va, b).tables == m.tables by { WriteKeeps(m, d, va, b); }
      GoesOn(s, m, Write(m, d, va, b), y, StoreLoses(s, pid, va, y), false);
    }
  }

  lemma WriteKeeps(s: State, d: nat, va: nat, b: bv8)
    ensures Write(s, d, va, b).tables == s.tables
  {
  }

  // ---------- an exit ----------

  /** Exit forgets its reference to the table of `program_break`. */
  predicate ExitForgets(s: State, pid: nat, t: nat)
    requires pid in s.procs
  {
    Uses(s, s.procs[pid], t) && !Drops(s, s.procs[pid], t)
  }

  /** It loses a table only it used when it does not drop it or the count was higher. */
  predicate ExitLoses(s: State, pid: nat, t: nat)
    requires pid in s.procs
  {
    t in s.tables && Users(s, t) == {pid} && !(Drops(s, s.procs[pid], t) && Ref(s, t) == 1)
  }

  lemma LessOne(a: set<nat>, x: nat)
    ensures x in a ==> |a - {x}| == |a| - 1 && (a - {x} == {} <==> a == {x})
    ensures x !in a ==> a - {x} == a
  {
  }

  lemma UserGone(s: State, s': State, pid: nat, t: nat)
    requires pid in s.procs && KeptTable(s, s', s.procs[pid], t) && Ref(s, t) >= |Users(s, t)|
    requires t in s'.tables ==> Users(s', t) == Users(s, t) - {pid}
    ensures TableGoes(s, s', t, ExitLoses(s, pid, t), ExitForgets(s, pid, t))
  {
    hide Users, Uses, Drops, Ref, Slot;
    InMappers(s, pid, t);
    DropsUses(s, s.procs[pid], t);
    LessOne(Users(s, t), pid);
    assert pid !in Users(s, t) ==> Users(s, t) != {pid};
  }

  lemma ExitTables(s: State, pid: nat, t: nat)
    requires Inv(s) && pid in s.procs
    ensures TableGoes(s, Exit(s, pid), t, ExitLoses(s, pid, t), ExitForgets(s, pid, t))
  {
    var s' := Exit(s, pid);
    hide Exit, Inv, Left, Users, KeptTable, KeptPage, Ref, TableGoes, ExitLoses, ExitForgets;
    ExitLeaves(s, pid);
    KeptOf(s, s', pid, t);
    LeftMappers(s, s', pid, t);
    if t in s.tables { TableCounted(s, t); UserGone(s, s', pid, t); } else { Unlisted(s, s', pid, t); }
  }

  lemma Unlisted(s: State, s': State, pid: nat, t: nat)
    requires Inv(s) && pid in s.procs && KeptTable(s, s', s.procs[pid], t) && t !in s.tables
    ensures TableGoes(s, s', t, ExitLoses(s, pid, t), ExitForgets(s, pid, t))
  {
    hide Inv, Users, Uses, Drops, Ref, Slot;
  }

  lemma TableCounted(s: State, t: nat)
    requires Inv(s) && t in s.tables
    ensures Ref(s, t) >= |Users(s, t)|
  {
    hide SpaceOk, Kinds, SoleWriters, DirsApart, Users, Ref, Mappers;
  }

  lemma KeptOf(s: State, s': State, pid: nat, t: nat)
    requires Left(s, s', pid)
    ensures KeptTable(s, s', s.procs[pid], t)
  {
    hide KeptTable, KeptPage, Inv;
  }

  lemma DropsUses(s: State, p: Proc, t: nat)
    ensures Drops(s, p, t) ==> Uses(s, p, t)
  {
  }

  // ---------- a message left with the kernel ----------

  lemma WaitTables(s: State, s': State, t: nat)
    requires Inv(s) && OnlyMessages(s, s')
    ensures TableGoes(s, s', t, false, false)
  {
    hide Uses, Maps, Inv, View, SpaceOk;
    forall q | q in s.procs ensures Uses(s', s'.procs[q], t) == Uses(s, s.procs[q], t) {
      assert SpaceOk(s, s.procs[q]) by { SpaceOf(s, q); }
      WaitProc(s, s', q);
    }
    assert Users(s', t) == Users(s, t);
  }

  lemma SpaceOf(s: State, q: nat)
    requires Inv(s) && q in s.procs
    ensures SpaceOk(s, s.procs[q])
  {
    hide SpaceOk, Kinds, Counted, SoleWriters, DirsApart;
  }

  // ---------- every step ----------

  ghost predicate Loses(s: State, e: Event, t: nat)
    requires Enabled(s, e)
  {
    match e
    case Loads(_, _) => false
    case Forks(parent, _, _, spare) => ForkLoses(s.procs[parent], spare, t)
    case Stores(pid, va, _, _, _) => StoreLoses(s, pid, va, t)
    case Exits(pid) => ExitLoses(s, pid, t)
    case Waits(_, _) => false
  }

  ghost predicate Forgets(s: State, e: Event, t: nat)
    requires Enabled(s, e)
  {
    e.Exits? && ExitForgets(s, e.pid, t)
  }

  /** Exactly when a step loses a table, and by how much a table's count strays from its users. */
  lemma TableStep(s: State, e: Event, t: nat)
    requires Inv(s) && Enabled(s, e)
    ensures TableGoes(s, Step(s, e), t, Loses(s, e, t), Forgets(s, e, t))
  {
    hide Inv, LoadEnabled, ForkEnabled, StoreEnabled, Load, Fork, Store, Exit, TableGoes;
    hide ForkLoses, StoreLoses, ExitLoses, ExitForgets;
    match e
    case Loads(pid, l) => LoadTables(s, pid, l, t);
    case Forks(parent, child, d, spare) => ForkTables(s, parent, child, d, spare, t);
    case Stores(pid, va, b, f, u) => StoreTables(s, pid, va, b, f, u, t);
    case Exits(pid) => ExitTables(s, pid, t);
    case Waits(_, _) => WaitTables(s, Step(s, e), t);
  }

  /** The processes after a step: a loaded one, a child, or one that was there. */
  lemma StepProcs(s: State, e: Event, q: nat)
    requires Inv(s) && Enabled(s, e) && q in Step(s, e).procs
    ensures var p := Step(s, e).procs[q];
      || (e.Loads? && p == e.program.proc)
      || (e.Forks? && p == s.procs[e.parent].(dir := e.dir))
      || (q in s.procs && p == s.procs[q])
      || (e.Waits? && q in s.procs && p == s.procs[q].(msg := e.msg))
  {
    hide Inv, LoadEnabled, StoreEnabled, Fork, Store, Exit, Views, Stored;
    match e
    case Loads(_, _) =>
    case Forks(parent, child, d, spare) => ForkRefines(s, parent, child, d, spare);
    case Stores(pid, va, b, f, u) => StoreRefines(s, pid, va, b, f, u);
    case Exits(pid) => ExitRefines(s, pid);
    case Waits(_, _) =>
  }

  // ---------- runs ----------

  predicate BreakIn(p: Proc, breaks: set<int>) {
    p.image.Image? ==> Region(p.image.end) in breaks
  }

  /** Off the slots of `program_break`, a table is counted once for each process that points to it. */
  ghost predicate Tidy(s: State, breaks: set<int>) {
    && (forall q :: q in s.procs ==> BreakIn(s.procs[q], breaks))
    && forall t :: t in s.tables && Slot(s, t) !in breaks ==> Excess(s, t) == 0
  }

  predicate LoadsIn(e: Event, breaks: set<int>) {
    e.Loads? ==> BreakIn(e.program.proc, breaks)
  }

  lemma ForgotBreak(s: State, e: Event, t: nat, breaks: set<int>)
    requires Inv(s) && Enabled(s, e) && Tidy(s, breaks) && Forgets(s, e, t)
    ensures t in s.tables && Slot(s, t) in breaks
  {
    assert BreakIn(s.procs[e.pid], breaks);
    hide SpaceOk, Counted, SoleWriters, DirsApart, Entry;
    NoPage(s.procs[e.pid], -1);
  }

  lemma TidyStep(s: State, e: Event, breaks: set<int>)
    requires Inv(s) && Enabled(s, e) && Tidy(s, breaks) && LoadsIn(e, breaks)
    ensures Tidy(Step(s, e), breaks)
  {
    hide Inv, Enabled, Step, Excess, Lost, Loses, Forgets, Slot, Tidy;
    forall t | t in Step(s, e).tables && Slot(Step(s, e), t) !in breaks ensures Excess(Step(s, e), t) == 0 {
      TableStep(s, e, t);
      TidyAt(s, t, breaks);
      if Forgets(s, e, t) { ForgotBreak(s, e, t, breaks); }
    }
    TidyProcs(s, e, breaks);
    TidyIs(Step(s, e), breaks);
  }

  lemma TidyAt(s: State, t: nat, breaks: set<int>)
    requires Tidy(s, breaks)
    ensures t in s.tables && Slot(s, t) !in breaks ==> Excess(s, t) == 0
  {
  }

  lemma TidyProcs(s: State, e: Event, breaks: set<int>)
    requires Inv(s) && Enabled(s, e) && Tidy(s, breaks) && LoadsIn(e, breaks)
    ensures forall q :: q in Step(s, e).procs ==> BreakIn(Step(s, e).procs[q], breaks)
  {
    hide Inv, Step, LoadEnabled, StoreEnabled, Excess, Region;
    forall q | q in Step(s, e).procs ensures BreakIn(Step(s, e).procs[q], breaks) {
      StepProcs(s, e, q);
    }
  }

  lemma TidyIs(s: State, breaks: set<int>)
    requires forall q :: q in s.procs ==> BreakIn(s.procs[q], breaks)
    requires forall t :: t in s.tables && Slot(s, t) !in breaks ==> Excess(s, t) == 0
    ensures Tidy(s, breaks)
  {
  }

  lemma {:induction false} TidyRun(s0: State, es: seq<Event>, s: State, breaks: set<int>)
    requires Inv(s0) && ReachedBy(s0, es, s) && Tidy(s0, breaks)
    requires forall i :: 0 <= i < |es| ==> LoadsIn(es[i], breaks)
    ensures Inv(s) && Tidy(s, breaks)
    decreases |es|
  {
    hide Inv, Tidy, Step, Enabled, Views, LoadsIn;
    if es != [] {
      assert LoadsIn(es[0], breaks);
      StepRefines(s0, es[0]);
      TidyStep(s0, es[0], breaks);
      TidyRun(Step(s0, es[0]), es[1..], s, breaks);
    }
  }

  predicate MessageFits(e: Event) {
    (e.Loads? ==> OneTableEach(e.program.proc.msg)) && (e.Waits? ==> OneTableEach(e.msg))
  }

  ghost predicate Clean(s: State, breaks: set<int>) {
    && Tidy(s, breaks) && (forall q :: q in s.procs ==> OneTableEach(s.procs[q].msg))
    && forall t :: Lost(s, t) ==> Slot(s, t) in breaks
  }

  lemma CleanAt(s: State, breaks: set<int>, q: nat)
    requires Clean(s, breaks) && q in s.procs
    ensures Tidy(s, breaks) && OneTableEach(s.procs[q].msg)
  {
    hide OneTableEach;
  }

  /** Who loses a table loses one in a slot of `program_break`. */
  lemma NotLostBy(s: State, e: Event, breaks: set<int>, t: nat)
    requires Inv(s) && Enabled(s, e) && Clean(s, breaks) && Loses(s, e, t)
    ensures t in s.tables && Slot(s, t) in breaks
  {
    hide Inv, Clean, Tidy, LoadEnabled, ForkEnabled, Slot, Drops, Uses, Users, Ref, PteOf, TableOf, FrameOf;
    match e
    case Forks(parent, child, d, spare) =>
      ForkHas(s, parent, child, d, spare);
      CleanAt(s, breaks, parent);
      NoForkLoss(s, parent, child, d, spare, t);
    case Stores(pid, _, _, _, _) =>
      UserListed(s, pid, t);
      CleanAt(s, breaks, pid);
      TidyAt(s, t, breaks);
    case Exits(pid) =>
      UserListed(s, pid, t);
      CleanAt(s, breaks, pid);
      if Drops(s, s.procs[pid], t) { TidyAt(s, t, breaks); } else { ForgotBreak(s, e, t, breaks); }
  }

  lemma UserListed(s: State, pid: nat, t: nat)
    requires Inv(s) && pid in Users(s, t)
    ensures pid in s.procs && Uses(s, s.procs[pid], t) && t in s.tables
  {
    hide SpaceOk, Counted, SoleWriters, DirsApart, Entry;
    NoPage(s.procs[pid], -1);
  }

  lemma CleanMessages(s: State, e: Event, breaks: set<int>)
    requires Inv(s) && Enabled(s, e) && Clean(s, breaks) && MessageFits(e)
    ensures forall q :: q in Step(s, e).procs ==> OneTableEach(Step(s, e).procs[q].msg)
  {
    hide Inv, Step, Tidy, LoadEnabled, StoreEnabled, ForkEnabled, OneTableEach, Lost;
    forall q | q in Step(s, e).procs ensures OneTableEach(Step(s, e).procs[q].msg) {
      StepProcs(s, e, q);
      if e.Forks? { ForkHas(s, e.parent, e.child, e.dir, e.spare); }
    }
  }

  lemma LostIn(s: State, breaks: set<int>, t: nat)
    requires Clean(s, breaks) && Lost(s, t)
    ensures Slot(s, t) in breaks
  {
    hide Tidy, OneTableEach, Lost, Slot;
  }

  lemma CleanIs(s: State, breaks: set<int>)
    requires Tidy(s, breaks) && forall q :: q in s.procs ==> OneTableEach(s.procs[q].msg)
    requires forall t :: Lost(s, t) ==> Slot(s, t) in breaks
    ensures Clean(s, breaks)
  {
    hide Tidy, OneTableEach, Lost, Slot;
  }

  lemma CleanTidy(s: State, breaks: set<int>)
    requires Clean(s, breaks)
    ensures Tidy(s, breaks)
  {
  }

  lemma CleanStep(s: State, e: Event, breaks: set<int>)
    requires Inv(s) && Enabled(s, e) && Clean(s, breaks) && LoadsIn(e, breaks) && MessageFits(e)
    ensures Clean(Step(s, e), breaks)
  {
    var s' := Step(s, e);
    hide Inv, Enabled, Step, Excess, Lost, Loses, Forgets, Slot, Tidy, Clean, LoadsIn, MessageFits, OneTableEach;
    CleanTidy(s, breaks);
    TidyStep(s, e, breaks);
    CleanMessages(s, e, breaks);
    forall t | Lost(s', t) ensures Slot(s', t) in breaks {
      TableStep(s, e, t);
      if Loses(s, e, t) {
        NotLostBy(s, e, breaks, t);
      } else {
        LostIn(s, breaks, t);
        LostInUse(s, t);
      }
      LostInUse(s', t);
    }
    CleanIs(s', breaks);
  }

  lemma LostInUse(s: State, t: nat)
    requires Lost(s, t)
    ensures t in s.tables
  {
  }

  lemma {:induction false} CleanRun(s0: State, es: seq<Event>, s: State, breaks: set<int>)
    requires Inv(s0) && ReachedBy(s0, es, s) && Clean(s0, breaks)
    requires forall i :: 0 <= i < |es| ==> LoadsIn(es[i], breaks) && MessageFits(es[i])
    ensures Inv(s) && Clean(s, breaks)
    decreases |es|
  {
    hide Inv, Clean, Step, Enabled, Views, LoadsIn, MessageFits;
    if es != [] {
      assert LoadsIn(es[0], breaks) && MessageFits(es[0]);
      StepRefines(s0, es[0]);
      CleanStep(s0, es[0], breaks);
      CleanRun(Step(s0, es[0]), es[1..], s, breaks);
    }
  }

  // ---------- runs from the start ----------

  /** No process, no frame in use. */
  function Empty(): State {
    State(map[], map[], map[], map[], map[], map[], map[])
  }

  lemma EmptyOk(breaks: set<int>)
    ensures Inv(Empty()) && Clean(Empty(), breaks)
  {
  }

  /** In every state a run can reach, a table off the slots of `program_break` is counted once
      for each process that points to it; and if no message counts two pages of one table,
      there is always such a process, so that no such table is ever lost. */
  lemma TablesCounted(es: seq<Event>, s: State, breaks: set<int>, t: nat)
    requires ReachedBy(Empty(), es, s) && t in s.tables && Slot(s, t) !in breaks
    requires forall i :: 0 <= i < |es| ==> LoadsIn(es[i], breaks)
    ensures t in s.refs && s.refs[t] == |Users(s, t)|
    ensures (forall i :: 0 <= i < |es| ==> MessageFits(es[i])) ==> s.refs[t] > 0
  {
    hide LoadsIn, MessageFits, ReachedBy, Users, SpaceOk, SoleWriters, Counted, DirsApart;
    EmptyOk(breaks);
    TidyRun(Empty(), es, s, breaks);
    assert t in s.refs.Keys && Excess(s, t) == 0;
    if forall i :: 0 <= i < |es| ==> MessageFits(es[i]) {
      CleanRun(Empty(), es, s, breaks);
      assert !Lost(s, t);
    }
  }

  // ---------- on the first process ----------

  /** The first process: a stack of two pages, an image of two pages, a message left at `msg`. */
  function First(page: Page, msg: nat): Program {
    Program(
      Proc(0, KERN_BASE - 2 * PG_SIZE, 2 * PG_SIZE, Image(0x40_0000, 0x40_1800), msg),
      map[0x400 := 3, 0x7FFFE := 4, 0x7FFFF := 5, 0x401 := 6], map[3 := 0x400, 4 := 0x7FFFE, 5 := 0x7FFFF, 6 := 0x401],
      map[3 := page, 4 := page, 5 := page, 6 := page], map[1 := 1, 511 := 2], map[1 := 1, 2 := 511],
      {0x400, 0x401, 0x7FFFE, 0x7FFFF})
  }

  function Started(page: Page, msg: nat): State {
    Load(Empty(), 1, First(page, msg))
  }

  lemma FirstLayout(p: Proc)
    requires p.stack == KERN_BASE - 2 * PG_SIZE && p.stackSize == 2 * PG_SIZE && p.image == Image(0x40_0000, 0x40_1800)
    ensures Layout(p)
    ensures forall pg: nat :: Owns(p, pg) <==> pg == 0x400 || pg == 0x401 || pg == 0x7FFFE || pg == 0x7FFFF
    ensures forall i: nat :: Fills(p, i) <==> i == 1 || i == 511
  {
    assert StackPages(p) == Span(0x7FFFE, 0x80000) && ImagePages(p) == Span(0x400, 0x402);
    assert StackTables(p) == Span(511, 512) && ImageTables(p) == Span(1, 2);
  }

  lemma FirstBacked(p: Proc)
    requires p.stack == KERN_BASE - 2 * PG_SIZE && p.stackSize == 2 * PG_SIZE && p.image == Image(0x40_0000, 0x40_1800)
    ensures Backed(p)
  {
    FirstLayout(p);
    assert Pdx(0x400) == 1 && Pdx(0x7FFFE) == 511;
    hide Owns, Fills, Pdx;
  }

  lemma FirstFrames(page: Page, msg: nat)
    requires |page| == PG_SIZE
    ensures var l := First(page, msg);
      && (forall pg: nat :: pg in l.frames <==> pg == 0x400 || pg == 0x401 || pg == 0x7FFFE || pg == 0x7FFFF)
      && (forall f: nat :: f in l.homes <==> f == 3 || f == 4 || f == 5 || f == 6)
      && (forall f: nat :: f in l.pages <==> f == 3 || f == 4 || f == 5 || f == 6)
      && (forall f: nat :: f in l.pages ==> |l.pages[f]| == PG_SIZE) && Inverse(l.frames, l.homes)
  {
    var l := First(page, msg);
    assert l.frames[0x400] == 3 && l.frames[0x7FFFE] == 4 && l.frames[0x7FFFF] == 5 && l.frames[0x401] == 6;
    assert l.homes[3] == 0x400 && l.homes[4] == 0x7FFFE && l.homes[5] == 0x7FFFF && l.homes[6] == 0x401;
  }

  lemma FirstTables(page: Page, msg: nat)
    ensures var l := First(page, msg);
      && (forall i: nat :: i in l.tables <==> i == 1 || i == 511)
      && (forall t: nat :: t in l.slots <==> t == 1 || t == 2)
      && l.slots[1] == 1 && l.slots[2] == 511 && Inverse(l.tables, l.slots)
  {
  }

  lemma FirstComplete(page: Page, msg: nat)
    requires |page| == PG_SIZE
    ensures LoadEnabled(Empty(), 1, First(page, msg))
  {
    hide Owns, Fills, Layout, Backed, Inverse;
    var l := First(page, msg);
    var p := l.proc;
    assert p.stack == KERN_BASE - 2 * PG_SIZE && p.stackSize == 2 * PG_SIZE && p.image == Image(0x40_0000, 0x40_1800);
    assert p.dir == 0;
    FirstFrames(page, msg);
    FirstTables(page, msg);
    hide First;
    FirstLayout(p);
    FirstBacked(p);
    assert l.pages.Keys == l.homes.Keys;
  }

  lemma StartedIs(page: Page, msg: nat)
    requires |page| == PG_SIZE
    ensures var s := Started(page, msg);
      && Inv(s) && s.procs == map[1 := First(page, msg).proc]
      && First(page, msg).proc == Proc(0, KERN_BASE - 2 * PG_SIZE, 2 * PG_SIZE, Image(0x40_0000, 0x40_1800), msg)
  {
    hide LoadEnabled, Inv, Views, Loaded;
    FirstComplete(page, msg);
    EmptyOk({});
    LoadRefines(Empty(), 1, First(page, msg));
    hide NewTablesOf, DirFor, Once;
  }

  lemma StartedTable(page: Page, msg: nat, t: nat)
    requires |page| == PG_SIZE && (t == 1 || t == 2)
    ensures var s := Started(page, msg);
      t in s.tables && Users(s, t) == {1} && Ref(s, t) == 1 && Slot(s, t) == if t == 1 then 1 else 511
  {
    hide LoadEnabled, Load, First, Inv, Ref, Slot;
    FirstComplete(page, msg);
    EmptyOk({});
    FirstTables(page, msg);
    LoadMappers(Empty(), 1, First(page, msg), t);
    LoadCounts(Empty(), 1, First(page, msg), t);
    NewTables(Empty(), 1, First(page, msg), t);
    assert Users(Empty(), t) == {};
  }

  /** Exit leaves the table of `program_break` alone: when its last user exits, it stays in use
      with its count. */
  lemma BreakTableLost(s: State, pid: nat, t: nat)
    requires Inv(s) && pid in s.procs && t in s.tables && Users(s, t) == {pid}
    requires s.procs[pid].image.Image? && Slot(s, t) == Region(s.procs[pid].image.end)
    ensures Lost(Exit(s, pid), t) && Ref(Exit(s, pid), t) == Ref(s, t)
  {
    hide Inv, Exit, Users, Uses, Ref, Slot;
    InMappers(s, pid, t);
    assert pid in Users(s, t);
    ExitTables(s, pid, t);
    assert |Users(s, t)| == 1 && |Users(Exit(s, pid), t)| == 0;
  }

  /** A started program's image table, once the program has exited. */
  lemma ExitLeak(page: Page)
    requires |page| == PG_SIZE
    ensures var s := Started(page, 0);
      Inv(s) && 1 in s.procs && !Lost(s, 1) && Lost(Exit(s, 1), 1) && Ref(Exit(s, 1), 1) == 1
  {
    hide Started, First, Inv, Exit, Ref, Slot, Users;
    StartedIs(page, 0);
    StartedTable(page, 0, 1);
    BreakTableLost(Started(page, 0), 1, 1);
  }

  /** A message across the two stack pages: the fork copies their table twice and loses the
      first copy, with a count of zero. */
  lemma ForkLeak(page: Page)
    requires |page| == PG_SIZE
    ensures var s, spare := Started(page, KERN_BASE - PG_SIZE - 16), [(11, 12), (13, 14)];
      && Inv(s) && ForkEnabled(s, 1, 2, 10, spare)
      && Lost(Fork(s, 1, 2, 10, spare), 12) && Ref(Fork(s, 1, 2, 10, spare), 12) == 0
  {
    hide Started, First, Inv, Fork, Owns, MessagePages, Pdx, Users, Ref, Slot, Spare;
    var msg := KERN_BASE - PG_SIZE - 16;
    var s, spare := Started(page, msg), [(11, 12), (13, 14)];
    StartedIs(page, msg);
    StartedRefs(page, msg);
    MessageAcross(s.procs[1]);
    SpareFrames(s.refs.Keys + {10}, spare);
    FreshTable(s, 12);
    ForkTables(s, 1, 2, 10, spare, 12);
  }

  lemma MessageAcross(p: Proc)
    requires p == Proc(0, KERN_BASE - 2 * PG_SIZE, 2 * PG_SIZE, Image(0x40_0000, 0x40_1800), KERN_BASE - PG_SIZE - 16)
    ensures MessagePages(p.msg) == Span(0x7FFFE, 0x80000) && Pdx(0x7FFFF) == Pdx(0x7FFFE)
    ensures forall x: nat :: MessagePages(p.msg).Has(x) ==> Owns(p, x)
  {
    FirstLayout(p);
    hide Owns;
  }

  /** A message in the last 32 bytes of the stack is the process's own, and its fork breaks the
      invariant: it copies the page of the kernel's large entry. */
  lemma LimitLeak(page: Page)
    requires |page| == PG_SIZE
    ensures var s, spare := Started(page, KERN_BASE - MESSAGE_SIZE), [(11, 12), (13, 14)];
      && Inv(s) && 1 in s.procs && MessageOwned(s.procs[1]) && EndsAtLimit(s.procs[1])
      && !Inv(Fork(s, 1, 2, 10, spare))
  {
    hide Started, First, Inv, Fork, Owns, MessagePages, MessageOwned, EndsAtLimit, Spare;
    var s, spare := Started(page, KERN_BASE - MESSAGE_SIZE), [(11, 12), (13, 14)];
    StartedIs(page, KERN_BASE - MESSAGE_SIZE);
    StartedRefs(page, KERN_BASE - MESSAGE_SIZE);
    MessageLast(s.procs[1]);
    SpareFrames(s.refs.Keys + {10}, spare);
    ForkExact(s, 1, 2, 10, spare);
  }

  lemma MessageLast(p: Proc)
    requires p == Proc(0, KERN_BASE - 2 * PG_SIZE, 2 * PG_SIZE, Image(0x40_0000, 0x40_1800), KERN_BASE - MESSAGE_SIZE)
    ensures MessageOwned(p) && EndsAtLimit(p) && MessagePages(p.msg) == Span(0x7FFFF, 0x80001)
  {
    FirstLayout(p);
    hide Owns;
  }

  lemma FreshTable(s: State, t: nat)
    requires Inv(s) && t !in s.refs
    ensures t !in s.tables && !Lost(s, t)
  {
    hide Counted, SoleWriters, DirsApart, SpaceOk;
  }

  lemma FirstSmall(page: Page, msg: nat)
    ensures var l := First(page, msg);
      (forall f :: f in l.homes ==> f <= 6) && (forall t :: t in l.slots ==> t <= 6) && l.proc.dir == 0
  {
  }

  lemma StartedRefs(page: Page, msg: nat)
    ensures forall f :: f in Started(page, msg).refs ==> f <= 6
  {
    hide First, Started;
    FirstSmall(page, msg);
    StartedKeys(page, msg);
  }

  lemma StartedKeys(page: Page, msg: nat)
    ensures var l := First(page, msg);
      forall f :: f in Started(page, msg).refs ==> f in l.homes || f in l.slots || f == l.proc.dir
  {
    hide First;
    LoadRefKeys(Empty(), 1, First(page, msg));
    hide Load;
    assert forall f :: f in Started(page, msg).refs ==> f in Started(page, msg).refs.Keys;
  }

  lemma SpareFrames(used: set<nat>, spare: seq<(nat, nat)>)
    requires spare == [(11, 12), (13, 14)] && forall f :: f in used ==> f <= 10
    ensures Spare(used, spare)
  {
    assert spare[1..] == [(13, 14)] && spare[1..][1..] == [];
  }
}
