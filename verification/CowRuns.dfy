/** Every run of loads, forks, stores and exits is a run of the machine whose fork copies every page. */
module CowRuns {
  import opened Pages
  import opened CowSpec
  import opened CowShare
  import opened CowFault
  import opened CowStore
  import opened CowExit
  import opened CowLoad

  /** What can happen; `dir`, `spare`, `f` and `t` are the frames the allocator hands out.
      `execve` is an exit followed by a load. `Waits` is a process leaving the address of a
      message with the kernel. */
  datatype Event =
    | Loads(pid: nat, program: Program)
    | Forks(parent: nat, child: nat, dir: nat, spare: seq<(nat, nat)>)
    | Stores(pid: nat, va: nat, b: bv8, f: nat, t: nat)
    | Exits(pid: nat)
    | Waits(pid: nat, msg: nat)

  ghost predicate Enabled(s: State, e: Event) {
    match e
    case Loads(pid, l) => LoadEnabled(s, pid, l)
    case Forks(parent, child, d, spare) => ForkEnabled(s, parent, child, d, spare)
    case Stores(pid, va, _, f, t) => StoreEnabled(s, pid, va, f, t)
    case Exits(pid) => pid in s.procs
    case Waits(pid, _) => pid in s.procs
  }

  ghost function Step(s: State, e: Event): State
    requires Enabled(s, e)
  {
    match e
    case Loads(pid, l) => Load(s, pid, l)
    case Forks(parent, child, d, spare) => Fork(s, parent, child, d, spare)
    case Stores(pid, va, b, f, t) => Store(s, pid, va, b, f, t)
    case Exits(pid) => Exit(s, pid)
    case Waits(pid, msg) => s.(procs := s.procs[pid := s.procs[pid].(msg := msg)])
  }

  type Spaces = map<nat, map<nat, Page>>

  /** The machine on which every process has its own copy of every page. */
  function EagerStep(v: Spaces, e: Event): Spaces {
    match e
    case Loads(pid, l) => v[pid := Loaded(l)]
    case Forks(parent, child, _, _) => if parent in v then v[child := v[parent]] else v
    case Stores(pid, va, b, _, _) => if pid in v then v[pid := Stored(v[pid], va, b)] else v
    case Exits(pid) => v - {pid}
    case Waits(_, _) => v
  }

  function EagerRun(v: Spaces, es: seq<Event>): Spaces
    decreases |es|
  {
    if es == [] then v else EagerRun(EagerStep(v, es[0]), es[1..])
  }

  /** Only messages differ. */
  ghost predicate OnlyMessages(s: State, s': State) {
    && s' == s.(procs := s'.procs) && s'.procs.Keys == s.procs.Keys
    && forall q :: q in s.procs ==> s'.procs[q] == s.procs[q].(msg := s'.procs[q].msg)
  }

  lemma WaitLooks(s: State, s': State, p: Proc, p': Proc)
    requires s' == s.(procs := s'.procs) && p' == p.(msg := p'.msg)
    ensures LooksLike(s, p, s', p')
  {
    hide Owns, Fills;
  }

  lemma WaitProc(s: State, s': State, q: nat)
    requires OnlyMessages(s, s') && q in s.procs && SpaceOk(s, s.procs[q])
    ensures SpaceOk(s', s'.procs[q]) && View(s', s'.procs[q]) == View(s, s.procs[q])
    ensures forall y ::
      Maps(s', s'.procs[q], y) == Maps(s, s.procs[q], y) && Uses(s', s'.procs[q], y) == Uses(s, s.procs[q], y)
  {
    var p, p' := s.procs[q], s'.procs[q];
    WaitLooks(s, s', p, p');
    hide LooksLike, Maps, Uses, View;
    LooksOk(s, p, s', p');
    LooksView(s, p, s', p');
    forall y
      ensures Maps(s', p', y) == Maps(s, p, y) && Uses(s', p', y) == Uses(s, p, y)
    {
      LooksMaps(s, p, s', p', y);
    }
  }

  lemma WaitWriters(s: State, s': State)
    requires SoleWriters(s) && OnlyMessages(s, s')
    ensures SoleWriters(s')
  {
    forall q | q in s.procs
      ensures forall i :: Owns(s'.procs[q], i) == Owns(s.procs[q], i)
    {
      SameSpans(s.procs[q], s'.procs[q]);
    }
    hide Owns;
  }

  lemma WaitCounted(s: State, s': State)
    requires Counted(s) && OnlyMessages(s, s')
    requires forall q, y :: q in s.procs ==> Maps(s', s'.procs[q], y) == Maps(s, s.procs[q], y)
    requires forall q, y :: q in s.procs ==> Uses(s', s'.procs[q], y) == Uses(s, s.procs[q], y)
    ensures Counted(s')
  {
    hide Maps, Uses;
    forall y ensures Mappers(s', y) == Mappers(s, y) && Users(s', y) == Users(s, y) && Ref(s', y) == Ref(s, y) {}
    hide Mappers, Users, Ref;
  }

  lemma WaitKinds(s: State, s': State)
    requires Kinds(s) && DirsApart(s) && OnlyMessages(s, s')
    ensures Kinds(s') && DirsApart(s') && s'.procs.Keys == s.procs.Keys
  {
  }

  lemma WaitsRefines(s: State, s': State)
    requires Inv(s) && OnlyMessages(s, s')
    ensures Inv(s') && Views(s') == Views(s)
  {
    WaitKinds(s, s');
    hide Kinds, SpaceOk, Maps, Uses, View, DirsApart, Counted, SoleWriters, OnlyMessages;
    assert s'.procs.Keys == s.procs.Keys;
    forall q | q in s.procs
      ensures SpaceOk(s', s'.procs[q]) && View(s', s'.procs[q]) == View(s, s.procs[q])
      ensures forall y ::
        Maps(s', s'.procs[q], y) == Maps(s, s.procs[q], y) && Uses(s', s'.procs[q], y) == Uses(s, s.procs[q], y)
    {
      WaitProc(s, s', q);
    }
    WaitCounted(s, s');
    WaitWriters(s, s');
    hide Inv, Views;
    InvIs(s');
    WaitViews(s, s');
  }

  lemma WaitViews(s: State, s': State)
    requires s'.procs.Keys == s.procs.Keys && forall q :: q in s.procs ==> View(s', s'.procs[q]) == View(s, s.procs[q])
    ensures Views(s') == Views(s)
  {
    hide View;
  }

  /** Each step, seen through the views, is the eager machine's step. */
  lemma StepRefines(s: State, e: Event)
    requires Inv(s) && Enabled(s, e)
    ensures Inv(Step(s, e)) && Views(Step(s, e)) == EagerStep(Views(s), e)
  {
    hide Inv, View, LoadEnabled, ForkEnabled, StoreEnabled, Load, Fork, Store, Exit, Loaded, Stored;
    match e
    case Loads(pid, l) => LoadRefines(s, pid, l);
    case Forks(parent, child, d, spare) => ForkRefines(s, parent, child, d, spare);
    case Stores(pid, va, b, f, t) => StoreRefines(s, pid, va, b, f, t);
    case Exits(pid) => ExitRefines(s, pid);
    case Waits(_, _) => WaitsRefines(s, Step(s, e));
  }

  ghost predicate ReachedBy(s0: State, es: seq<Event>, s: State)
    decreases |es|
  {
    if es == [] then s == s0 else Enabled(s0, es[0]) && ReachedBy(Step(s0, es[0]), es[1..], s)
  }

  /** Copy-on-write refines eager copying: after any run each live process sees what it
      would see if every fork had copied every page. */
  lemma {:induction false} RunRefines(s0: State, es: seq<Event>, s: State)
    requires Inv(s0) && ReachedBy(s0, es, s)
    ensures Inv(s) && Views(s) == EagerRun(Views(s0), es)
    decreases |es|
  {
    hide Inv, Views, Step, EagerStep, Enabled;
    if es != [] {
      StepRefines(s0, es[0]);
      RunRefines(Step(s0, es[0]), es[1..], s);
    }
  }

  /** `e` is not `pid`'s own store, exit, load or birth. */
  predicate Spares(e: Event, pid: nat) {
    match e
    case Loads(q, _) => q != pid
    case Forks(_, child, _, _) => child != pid
    case Stores(q, _, _, _, _) => q != pid
    case Exits(q) => q != pid
    case Waits(_, _) => true
  }

  lemma {:induction false} EagerIsolated(v: Spaces, es: seq<Event>, pid: nat)
    requires pid in v && forall i :: 0 <= i < |es| ==> Spares(es[i], pid)
    ensures pid in EagerRun(v, es) && EagerRun(v, es)[pid] == v[pid]
    decreases |es|
  {
    if es != [] {
      assert Spares(es[0], pid);
      EagerIsolated(EagerStep(v, es[0]), es[1..], pid);
    }
  }

  /** Whatever others do, fork off the process and store as they like, what it sees stays. */
  lemma Isolated(s0: State, es: seq<Event>, s: State, pid: nat)
    requires Inv(s0) && ReachedBy(s0, es, s) && pid in s0.procs
    requires forall i :: 0 <= i < |es| ==> Spares(es[i], pid)
    ensures pid in s.procs && View(s, s.procs[pid]) == View(s0, s0.procs[pid])
  {
    RunRefines(s0, es, s);
    EagerIsolated(Views(s0), es, pid);
    assert pid in Views(s) && Views(s)[pid] == Views(s0)[pid];
  }

  /** In every reachable state: a data page's count is the number of processes that map it,
      a table's is no less than the number that point to it, and a page somebody may write
      is mapped by nobody else. */
  lemma CountsExact(s0: State, es: seq<Event>, s: State)
    requires Inv(s0) && ReachedBy(s0, es, s)
    ensures forall f :: f in s.data ==> f in s.refs && s.refs[f] == |Mappers(s, f)| > 0
    ensures forall t :: t in s.tables ==> t in s.refs && s.refs[t] >= |Users(s, t)|
    ensures forall q, pg: nat :: q in s.procs && Owns(s.procs[q], pg) && PteOf(s, s.procs[q].dir, pg).writable ==>
      Mappers(s, FrameOf(s, s.procs[q].dir, pg)) == {q}
  {
    RunRefines(s0, es, s);
    assert s.refs.Keys == s.data.Keys + s.tables.Keys + s.dirs.Keys;
    assert forall f :: f in s.refs ==> Ref(s, f) == s.refs[f];
    hide Owns, Mappers, Users, FrameOf, PteOf, SpaceOk, Kinds, SoleWriters, DirsApart, Views, Ref, ReachedBy;
    forall q, pg: nat | q in s.procs && Owns(s.procs[q], pg) && PteOf(s, s.procs[q].dir, pg).writable
      ensures Mappers(s, FrameOf(s, s.procs[q].dir, pg)) == {q}
    {
      SoleMapperOf(s, q, pg);
    }
  }

  lemma SoleMapperOf(s: State, q: nat, pg: nat)
    requires Inv(s) && q in s.procs && Owns(s.procs[q], pg) && PteOf(s, s.procs[q].dir, pg).writable
    ensures Mappers(s, FrameOf(s, s.procs[q].dir, pg)) == {q}
  {
    var f := FrameOf(s, s.procs[q].dir, pg);
    ReadyFacts(s, q, pg);
    InMappers(s, q, f);
    forall r | r in Mappers(s, f) ensures r == q { SoleMapper(s, f, q, r); }
  }
}
