/** Announced interrupts and exceptions: the pending tables are shared by all subscribers, and
    the scan of a receive takes entry 0 for nothing. When a receive panics, and when none can. */
module IpcPending {
  import opened Common
  import opened IpcGraph
  import opened IpcSpec
  import opened IpcRuns

  /** `x` was announced an interrupt only if it is `p`, an exception only if it is `q`, and then
      one is pending, exception 0 included. */
  predicate PendingOk(s: State, p: nat, q: nat, x: nat)
    requires x < |s.procs|
  {
    && (s.procs[x].flags.gotInt ==> x == p && AnyPending(s.irqs))
    && (s.procs[x].flags.gotExc ==> x == q && |s.excs| > 0 && (s.excs[0].Some? || AnyPending(Marks(s.excs))))
  }

  /** Only `p` subscribes to interrupts and only `q` to exceptions. */
  ghost predicate Sole(s: State, p: nat, q: nat) {
    && (forall i :: 0 <= i < |s.irqSubs| ==> s.irqSubs[i] == 0 || s.irqSubs[i] == p)
    && (forall i :: 0 <= i < |s.excSubs| ==> s.excSubs[i] == 0 || s.excSubs[i] == q)
    && forall x: nat :: x < |s.procs| ==> PendingOk(s, p, q, x)
  }

  predicate AskedBy(e: Event, p: nat, q: nat) {
    (e.AsksIrq? ==> e.p == p) && (e.AsksExc? ==> e.p == q)
  }

  // ---------- one subscriber ----------

  lemma TakenIrq(s: State, p: nat, q: nat, x: nat, va: nat)
    requires Sizes(s) && Sole(s, p, q) && x < |s.procs| && va in s.procs[x].mem && s.procs[x].flags.gotInt
    requires AnyPending(s.irqs)
    ensures Sole(TakeInterrupt(s, x, va), p, q)
  {
    var s' := TakeInterrupt(s, x, va);
    forall y: nat | y < |s'.procs|
      ensures PendingOk(s', p, q, y)
    {
      assert PendingOk(s, p, q, y) && PendingOk(s, p, q, x);
    }
  }

  lemma TakenExc(s: State, p: nat, q: nat, x: nat, va: nat)
    requires Sizes(s) && Sole(s, p, q) && x < |s.procs| && va in s.procs[x].mem && s.procs[x].flags.gotExc
    requires AnyPending(Marks(s.excs))
    ensures Sole(TakeException(s, x, va), p, q)
  {
    var s' := TakeException(s, x, va);
    forall y: nat | y < |s'.procs|
      ensures PendingOk(s', p, q, y)
    {
      assert PendingOk(s, p, q, y) && PendingOk(s, p, q, x);
    }
  }

  /** Nothing announced, taken or subscribed. */
  ghost predicate SameFlags(s: State, s': State) {
    && s'.irqs == s.irqs && s'.excs == s.excs && s'.irqSubs == s.irqSubs && s'.excSubs == s.excSubs
    && |s'.procs| == |s.procs|
    && forall x :: 0 <= x < |s.procs| ==>
      && (s'.procs[x].flags.gotInt ==> s.procs[x].flags.gotInt)
      && (s'.procs[x].flags.gotExc ==> s.procs[x].flags.gotExc)
  }

  lemma SoleKept(s: State, s': State, p: nat, q: nat)
    requires Sole(s, p, q) && SameFlags(s, s')
    ensures Sole(s', p, q)
  {
    forall y: nat | y < |s'.procs| ensures PendingOk(s', p, q, y) { assert PendingOk(s, p, q, y); }
  }

  lemma SoleRaised(s: State, p: nat, q: nat, irq: nat)
    requires Sizes(s) && Sole(s, p, q) && irq < HW_IRQ_COUNT
    ensures Sole(Interrupt(s, irq), p, q)
  {
    var s' := Interrupt(s, irq);
    var marked := s.irqSubs[irq] != 0 && !WaitsForInterrupt(s.procs[s.irqSubs[irq]]);
    if marked { assert s'.irqs[irq] && 0 < irq < |s'.irqs|; }
    forall y: nat | y < |s'.procs| ensures PendingOk(s', p, q, y) {
      assert PendingOk(s, p, q, y);
      if marked && AnyPending(s.irqs) { StillPending(s.irqs, irq); }
    }
  }

  lemma StillPending(a: seq<bool>, i: nat)
    requires AnyPending(a) && i < |a|
    ensures AnyPending(a[i := true])
  {
    var j :| 0 < j < |a| && a[j];
    assert a[i := true][j];
  }

  lemma SoleFaulted(s: State, p: nat, q: nat, exc: nat, data: nat)
    requires Sizes(s) && Sole(s, p, q) && exc < EXCEPTION_COUNT && s.excSubs[exc] != 0
    ensures Sole(ExceptionMsg(s, exc, data), p, q)
  {
    var s' := ExceptionMsg(s, exc, data);
    var marked := !WaitsForInterrupt(s.procs[s.excSubs[exc]]);
    if marked { assert Marks(s'.excs) == Marks(s.excs)[exc := true] && Marks(s'.excs)[exc] && s'.excs[exc].Some?; }
    forall y: nat | y < |s'.procs| ensures PendingOk(s', p, q, y) {
      assert PendingOk(s, p, q, y);
      if marked && AnyPending(Marks(s.excs)) { StillPending(Marks(s.excs), exc); }
    }
  }

  lemma SoleRecv(s: State, p: nat, q: nat, x: nat, va: nat, from: nat)
    requires Inv(s) && Sole(s, p, q) && RecvEnabled(s, x, va, from)
    ensures Sole(Recv(s, x, va, from), p, q)
  {
    var s1 := Addressed(s, x, va);
    var f := s.procs[x].flags;
    AddressedInv(s, x, va);
    assert Sizes(s1);
    hide Inv;
    SoleKept(s, s1, p, q);
    if from == 0 {
    } else if TakesInterrupt(f, from) {
      TakenIrq(s1, p, q, x, va);
    } else if TakesException(f, from) {
      TakenExc(s1, p, q, x, va);
    } else {
      MeetInv(s1, x, va, from);
      SoleKept(s1, Meet(s1, x, va, from), p, q);
    }
  }

  lemma SoleStep(s: State, e: Event, p: nat, q: nat)
    requires Inv(s) && Enabled(s, e) && Sole(s, p, q) && AskedBy(e, p, q)
    ensures Sole(Step(s, e), p, q)
  {
    assert Sizes(s);
    match e
    case Receives(x, va, from) => SoleRecv(s, p, q, x, va, from);
    case Raises(irq) => SoleRaised(s, p, q, irq);
    case Faults(x, exc, data) =>
      SoleKept(s, Cleared(s, x), p, q);
      SoleFaulted(Cleared(s, x), p, q, exc, data);
    case AsksIrq(_, _) => SoleAsked(s, Step(s, e), p, q);
    case AsksExc(_, _) => SoleAsked(s, Step(s, e), p, q);
    case LeavesIrq(_) => SoleAsked(s, Step(s, e), p, q);
    case LeavesExc(_) => SoleAsked(s, Step(s, e), p, q);
    case _ =>
      hide Inv;
      SoleKept(s, Step(s, e), p, q);
  }

  lemma SoleAsked(s: State, s': State, p: nat, q: nat)
    requires Sole(s, p, q) && s' == s.(irqSubs := s'.irqSubs, excSubs := s'.excSubs)
    requires forall i :: 0 <= i < |s'.irqSubs| ==> s'.irqSubs[i] == 0 || s'.irqSubs[i] == p
    requires forall i :: 0 <= i < |s'.excSubs| ==> s'.excSubs[i] == 0 || s'.excSubs[i] == q
    ensures Sole(s', p, q)
  {
    forall y: nat | y < |s'.procs| ensures PendingOk(s', p, q, y) { assert PendingOk(s, p, q, y); }
  }

  /** With one subscriber each, a receive panics just when it takes interrupts, none is
      announced, an exception is, and exception 0 is the only one pending. */
  lemma PanicExact(s: State, p: nat, q: nat, x: nat, from: nat)
    requires Inv(s) && Sole(s, p, q) && x < |s.procs|
    ensures Panics(s, x, from) <==>
      && (from == PROC_ANY || from == PROC_INTERRUPT) && !s.procs[x].flags.gotInt && s.procs[x].flags.gotExc
      && s.excs[0].Some? && forall i :: 0 < i < |s.excs| ==> s.excs[i].None?
  {
    assert PendingOk(s, p, q, x) && Sizes(s);
    hide Inv;
    assert forall i :: 0 < i < |s.excs| ==> (Marks(s.excs)[i] <==> s.excs[i].Some?);
  }

  // ---------- runs ----------

  lemma {:induction false} SoleRun(s0: State, es: seq<Event>, s: State, p: nat, q: nat)
    requires Inv(s0) && ReachedBy(s0, es, s) && Sole(s0, p, q)
    requires forall i :: 0 <= i < |es| ==> AskedBy(es[i], p, q)
    ensures Inv(s) && Sole(s, p, q)
    decreases es
  {
    hide Inv, Sole, Step, Enabled, AskedBy;
    if es != [] {
      assert AskedBy(es[0], p, q);
      StepInv(s0, es[0]);
      SoleStep(s0, es[0], p, q);
      SoleRun(Step(s0, es[0]), es[1..], s, p, q);
    }
  }

  /** Nobody hears of exception 0. */
  predicate NoZero(s: State) {
    |s.excs| > 0 && |s.excSubs| > 0 && s.excs[0].None? && s.excSubs[0] == 0
  }

  predicate AsksZero(e: Event) {
    e.AsksExc? && e.exc == 0
  }

  lemma NoZeroStep(s: State, e: Event)
    requires Inv(s) && Enabled(s, e) && NoZero(s) && !AsksZero(e)
    ensures NoZero(Step(s, e))
  {
    assert Sizes(s);
    hide Inv;
  }

  lemma {:induction false} NoZeroRun(s0: State, es: seq<Event>, s: State)
    requires Inv(s0) && ReachedBy(s0, es, s) && NoZero(s0) && forall i :: 0 <= i < |es| ==> !AsksZero(es[i])
    ensures NoZero(s)
    decreases es
  {
    hide Inv, NoZero, Step, Enabled, AsksZero;
    if es != [] {
      assert !AsksZero(es[0]);
      StepInv(s0, es[0]);
      NoZeroStep(s0, es[0]);
      NoZeroRun(Step(s0, es[0]), es[1..], s);
    }
  }

  lemma FreshSole(s: State, p: nat, q: nat)
    requires Fresh(s)
    ensures Inv(s) && Sole(s, p, q) && NoZero(s)
  {
    FreshInv(s);
    hide Inv;
  }

  /** As long as one process alone subscribes to interrupts, one alone to exceptions, and nobody
      to exception 0, no receive panics. */
  lemma NoPanic(s0: State, es: seq<Event>, s: State, p: nat, q: nat, x: nat, from: nat)
    requires Fresh(s0) && Inv(s0) && ReachedBy(s0, es, s) && x < |s.procs|
    requires forall i :: 0 <= i < |es| ==> AskedBy(es[i], p, q) && !AsksZero(es[i])
    ensures !Panics(s, x, from)
  {
    hide Step, Enabled, AskedBy, AsksZero;
    FreshSole(s0, p, q);
    SoleRun(s0, es, s, p, q);
    NoZeroRun(s0, es, s);
    PanicExact(s, p, q, x, from);
  }

  /** Exception 0, once pending, is pending for good: no receive takes it. */
  lemma {:induction false} ZeroStays(s0: State, es: seq<Event>, s: State)
    requires Inv(s0) && ReachedBy(s0, es, s) && s0.excs[0].Some?
    ensures Inv(s) && s.excs[0].Some?
    decreases es
  {
    hide Step, Enabled, Acyclic, QueueOk, InOrder, TicketOk, LogOk, NoMissedRendezvous, ProcOk;
    if es != [] {
      StepInv(s0, es[0]);
      ZeroStep(s0, es[0]);
      ZeroStays(Step(s0, es[0]), es[1..], s);
    }
  }

  lemma ZeroStep(s: State, e: Event)
    requires Inv(s) && Enabled(s, e) && s.excs[0].Some?
    ensures |Step(s, e).excs| == |s.excs| > 0 && Step(s, e).excs[0].Some?
  {
    assert Sizes(s);
    hide Inv;
  }

  /** Taking an exception leaves entry 0 as it is, and the announcement only if an entry after
      it is pending too: with entry 0 and one other pending, the announcement goes. */
  lemma TakenLeaves(s: State, p: nat, va: nat, from: nat)
    requires Inv(s) && RecvEnabled(s, p, va, from) && from != 0 && TakesException(s.procs[p].flags, from)
    ensures var s', x := Recv(s, p, va, from), FirstPending(Marks(s.excs), 1);
      && 0 < x < |s.excs| && s.excs[x].Some? && s'.excs == s.excs[x := None] && s'.excs[0] == s.excs[0]
      && (s'.procs[p].flags.gotExc <==> exists i :: 0 < i < |s.excs| && i != x && s.excs[i].Some?)
  {
    assert Sizes(s);
    hide Inv;
    var x := FirstPending(Marks(s.excs), 1);
    var left := s.excs[x := None];
    assert forall i :: 0 <= i < |left| ==> (Marks(left)[i] <==> i != x && s.excs[i].Some?);
  }

  // ---------- runs that panic ----------

  /** One fault is enough: exception 0, while its subscriber `p` runs and waits for nothing. */
  lemma ZeroPanics(s0: State, p: nat, cur: nat, data: nat)
    requires Fresh(s0) && 0 < p < |s0.procs| && cur < |s0.procs| && cur != p && Runnable(s0.procs[cur])
    ensures var e0, e1 := AsksExc(0, p), Faults(cur, 0, data);
      && Inv(s0) && Enabled(s0, e0) && Inv(Step(s0, e0)) && Enabled(Step(s0, e0), e1)
      && var s := Step(Step(s0, e0), e1);
         && ReachedBy(s0, [e0, e1], s) && (Runnable(s.procs[p]) <==> Runnable(s0.procs[p])) && Panics(s, p, PROC_ANY)
  {
    var e0, e1 := AsksExc(0, p), Faults(cur, 0, data);
    FreshInv(s0);
    StepInv(s0, e0);
    var s1 := Step(s0, e0);
    StepInv(s1, e1);
    var s := Step(s1, e1);
    assert [e0, e1][1..] == [e1] && [e1][1..] == [] && ReachedBy(s, [], s) && ReachedBy(s1, [e1], s);
    hide Inv;
    assert s.excs == s0.excs[0 := Some(data)];
    assert forall i :: 0 < i < |s.excs| ==> !Marks(s.excs)[i];
  }

  lemma {:induction false} ReachedMore(s0: State, es: seq<Event>, s: State, e: Event)
    requires Inv(s0) && ReachedBy(s0, es, s) && Inv(s) && Enabled(s, e)
    ensures ReachedBy(s0, es + [e], Step(s, e))
    decreases es
  {
    hide Inv, Step, Enabled;
    if es == [] {
      assert (es + [e])[1..] == [];
      StepInv(s, e);
      assert ReachedBy(Step(s, e), [], Step(s, e));
    } else {
      StepInv(s0, es[0]);
      assert (es + [e])[0] == es[0] && (es + [e])[1..] == es[1..] + [e];
      ReachedMore(Step(s0, es[0]), es[1..], s, e);
    }
  }

  /** `p` and `q` subscribe to `i` and `j`, and both have come while nobody waited. */
  ghost predicate BothRaised(s: State, p: nat, q: nat, i: nat, j: nat) {
    && Sizes(s) && 0 < i < j < HW_IRQ_COUNT && p < |s.procs| && q < |s.procs| && p != q
    && Runnable(s.procs[p]) && s.procs[p].flags.gotInt && s.procs[q].flags.gotInt
    && forall k :: 0 <= k < |s.irqs| ==> (s.irqs[k] <==> k == i || k == j)
  }

  lemma RaiseBoth(s: State, p: nat, q: nat, i: nat, j: nat)
    requires Sizes(s) && 0 < i < j < HW_IRQ_COUNT && p != q && s.irqSubs[i] == p && s.irqSubs[j] == q && p != 0
    requires q != 0
    requires Runnable(s.procs[p]) && !s.procs[q].receiving && forall k :: 0 <= k < |s.irqs| ==> !s.irqs[k]
    ensures var s1 := Interrupt(s, i); Sizes(s1) && var s2 := Interrupt(s1, j);
      && BothRaised(s2, p, q, i, j) && s2.procs[p].mem == s.procs[p].mem && s2.irqSubs == s.irqSubs
      && Runnable(s2.procs[q]) == Runnable(s.procs[q])
  {
  }

  /** The process takes its own interrupt, and with the announcement still on, the other's too. */
  lemma TakeBoth(s: State, p: nat, q: nat, i: nat, j: nat, va: nat)
    requires Inv(s) && BothRaised(s, p, q, i, j) && va in s.procs[p].mem
    ensures var e := Receives(p, va, PROC_INTERRUPT);
      && Enabled(s, e) && var s1 := Step(s, e);
         && Inv(s1) && Enabled(s1, e) && var s2 := Step(s1, e);
            && |s2.procs| == |s.procs| && s2.procs[q] == s.procs[q]
            && va in s2.procs[p].mem && s2.procs[p].mem[va].major == j
            && s2.irqSubs == s.irqSubs
            && Panics(s2, q, PROC_INTERRUPT)
  {
    var e := Receives(p, va, PROC_INTERRUPT);
    assert s.irqs[i] && s.irqs[j];
    FirstPendingIs(s.irqs, 1, i);
    assert Enabled(s, e);
    var s1 := Step(s, e);
    StepInv(s, e);
    hide Inv;
    assert s1.irqs == s.irqs[i := false] && s1.irqs[j];
    FirstPendingIs(s1.irqs, 1, j);
    assert s1.procs[p].flags.gotInt && Enabled(s1, e);
    assert Step(s1, e).irqs == s1.irqs[j := false];
  }

  lemma AskBoth(s0: State, p: nat, q: nat, i: nat, j: nat) returns (s: State)
    requires Fresh(s0) && 0 < p < |s0.procs| && 0 < q < |s0.procs| && p != q && 0 < i < j < HW_IRQ_COUNT
    ensures Inv(s0) && Inv(s) && ReachedBy(s0, [AsksIrq(i, p), AsksIrq(j, q)], s)
    ensures s == s0.(irqSubs := s0.irqSubs[i := p][j := q])
  {
    FreshInv(s0);
    var a, b := AsksIrq(i, p), AsksIrq(j, q);
    StepInv(s0, a);
    var s1 := Step(s0, a);
    StepInv(s1, b);
    s := Step(s1, b);
    hide Inv;
    assert ReachedBy(s0, [], s0);
    ReachedMore(s0, [], s0, a);
    ReachedMore(s0, [] + [a], s1, b);
    assert [] + [a] + [b] == [a, b];
  }

  lemma RunBoth(s0: State, es: seq<Event>, s: State, c: Event, d: Event)
    requires Inv(s0) && ReachedBy(s0, es, s) && Inv(s) && Enabled(s, c) && Inv(Step(s, c)) && Enabled(Step(s, c), d)
    ensures Inv(Step(Step(s, c), d)) && ReachedBy(s0, es + [c, d], Step(Step(s, c), d))
  {
    hide Inv, Enabled, Step;
    ReachedMore(s0, es, s, c);
    ReachedMore(s0, es + [c], Step(s, c), d);
    StepInv(Step(s, c), d);
    assert es + [c] + [d] == es + [c, d];
  }

  /** Process `p` holds interrupt `j`, the one `q` is announced, and `q` panics if it asks for it. */
  ghost predicate Robbed(s: State, p: nat, q: nat, j: nat, va: nat) {
    && p < |s.procs| && q < |s.procs| && va in s.procs[p].mem && s.procs[p].mem[va].major == j
    && j < |s.irqSubs| && s.irqSubs[j] == q && Panics(s, q, PROC_INTERRUPT)
  }

  lemma RaisesBoth(s: State, p: nat, q: nat, i: nat, j: nat)
    requires Inv(s) && 0 < i < j < HW_IRQ_COUNT && p != q && s.irqSubs[i] == p && s.irqSubs[j] == q && p != 0 && q != 0
    requires Runnable(s.procs[p]) && !s.procs[q].receiving && forall k :: 0 <= k < |s.irqs| ==> !s.irqs[k]
    ensures Enabled(s, Raises(i)) && Inv(Step(s, Raises(i))) && Enabled(Step(s, Raises(i)), Raises(j))
    ensures var s2 := Step(Step(s, Raises(i)), Raises(j));
      && Inv(s2) && BothRaised(s2, p, q, i, j) && s2.procs[p].mem == s.procs[p].mem && s2.irqSubs == s.irqSubs
      && Runnable(s2.procs[q]) == Runnable(s.procs[q])
  {
    assert Sizes(s);
    RaiseBoth(s, p, q, i, j);
    InterruptInv(s, i);
    InterruptInv(Interrupt(s, i), j);
    hide Inv, Interrupt, Runnable;
  }

  /** Nobody subscribes or leaves. */
  predicate KeepSubs(es: seq<Event>) {
    forall e :: e in es ==> !e.AsksIrq? && !e.AsksExc? && !e.LeavesIrq? && !e.LeavesExc?
  }

  lemma RunFour(s0: State, es: seq<Event>, s: State, a: Event, b: Event, s2: State, c: Event, d: Event)
    requires Inv(s0) && ReachedBy(s0, es, s) && Inv(s) && Enabled(s, a) && Inv(Step(s, a)) && Enabled(Step(s, a), b)
    requires s2 == Step(Step(s, a), b)
    requires Inv(s2) && Enabled(s2, c) && Inv(Step(s2, c)) && Enabled(Step(s2, c), d)
    ensures ReachedBy(s0, es + [a, b, c, d], Step(Step(s2, c), d))
  {
    hide Inv, Enabled, Step, ReachedBy;
    RunBoth(s0, es, s, a, b);
    RunBoth(s0, es + [a, b], s2, c, d);
    assert es + [a, b] + [c, d] == es + [a, b, c, d];
  }

  /** The run of two interrupts, after any run that leaves nothing pending and both processes free. */
  lemma RobIrq(s0: State, es: seq<Event>, s: State, p: nat, q: nat, i: nat, j: nat, va: nat)
      returns (more: seq<Event>, s': State)
    requires Inv(s0) && ReachedBy(s0, es, s) && Inv(s)
    requires 0 < i < j < HW_IRQ_COUNT && s.irqSubs[i] == p && s.irqSubs[j] == q && p != q && p != 0 && q != 0
    requires Runnable(s.procs[p]) && !s.procs[q].receiving && va in s.procs[p].mem
    requires forall k :: 0 <= k < |s.irqs| ==> !s.irqs[k]
    ensures ReachedBy(s0, es + more, s') && KeepSubs(more) && Robbed(s', p, q, j, va)
    ensures Runnable(s'.procs[q]) == Runnable(s.procs[q])
  {
    hide Inv, Enabled, Step, ReachedBy, Panics, Runnable;
    var e := Receives(p, va, PROC_INTERRUPT);
    more := [Raises(i), Raises(j), e, e];
    RaisesBoth(s, p, q, i, j);
    var s2 := Step(Step(s, Raises(i)), Raises(j));
    TakeBoth(s2, p, q, i, j, va);
    RunFour(s0, es, s, Raises(i), Raises(j), s2, e, e);
    s' := Step(Step(s2, e), e);
  }

  /** Two subscribers are enough too: one takes the other's interrupt, and the other panics. */
  lemma TwoSubscribersPanic(s0: State, p: nat, q: nat, i: nat, j: nat, va: nat) returns (es: seq<Event>, s: State)
    requires Fresh(s0) && 0 < p < |s0.procs| && 0 < q < |s0.procs| && p != q && 0 < i < j < HW_IRQ_COUNT
    requires Runnable(s0.procs[p]) && va in s0.procs[p].mem
    ensures Inv(s0) && ReachedBy(s0, es, s) && Robbed(s, p, q, j, va)
    ensures Runnable(s.procs[q]) == Runnable(s0.procs[q])
  {
    var s2 := AskBoth(s0, p, q, i, j);
    assert Sizes(s2) && Idle(s0.procs[q]);
    hide Inv, ReachedBy, Robbed;
    es := [AsksIrq(i, p), AsksIrq(j, q)];
    var more;
    more, s := RobIrq(s0, es, s2, p, q, i, j, va);
    es := es + more;
  }

  // ---------- the same of exceptions ----------

  /** `p` and `q` subscribe to `i` and `j`, and both have been raised while nobody waited. */
  ghost predicate BothFaulted(s: State, p: nat, q: nat, i: nat, j: nat) {
    && Sizes(s) && 0 < i < j < EXCEPTION_COUNT && p < |s.procs| && q < |s.procs| && p != q
    && Runnable(s.procs[p]) && s.procs[p].flags.gotExc && s.procs[q].flags.gotExc
    && !s.procs[p].flags.gotInt && !s.procs[q].flags.gotInt
    && forall k :: 0 <= k < |s.excs| ==> (s.excs[k].Some? <==> k == i || k == j)
  }

  /** Both faults are `p`'s own, the later exception first: the second fault clears only `p`'s status. */
  lemma FaultBoth(s: State, p: nat, q: nat, i: nat, j: nat, data: nat)
    requires Sizes(s) && 0 < i < j < EXCEPTION_COUNT && p != q && s.excSubs[i] == p && s.excSubs[j] == q
    requires Runnable(s.procs[p]) && !s.procs[q].receiving && !s.procs[q].flags.gotInt
    requires forall k :: 0 <= k < |s.excs| ==> s.excs[k].None?
    ensures var s1 := Fault(s, p, j, data); Sizes(s1) && Runnable(s1.procs[p]) && var s2 := Fault(s1, p, i, data);
      && BothFaulted(s2, p, q, i, j) && s2.procs[p].mem == s.procs[p].mem && s1.excSubs == s2.excSubs == s.excSubs
      && Runnable(s2.procs[q]) == Runnable(s.procs[q])
  {
  }

  /** `p` holds exception `j`, the one `q` is announced, and `q` panics if it asks for it. */
  ghost predicate RobbedExc(s: State, p: nat, q: nat, j: nat, va: nat) {
    && p < |s.procs| && q < |s.procs| && va in s.procs[p].mem && s.procs[p].mem[va].major == j
    && j < |s.excSubs| && s.excSubs[j] == q && Panics(s, q, PROC_INTERRUPT)
  }

  lemma TakeBothExc(s: State, p: nat, q: nat, i: nat, j: nat, va: nat)
    requires Inv(s) && BothFaulted(s, p, q, i, j) && va in s.procs[p].mem
    ensures var e := Receives(p, va, PROC_INTERRUPT);
      && Enabled(s, e) && var s1 := Step(s, e);
         && Inv(s1) && Enabled(s1, e) && var s2 := Step(s1, e);
            && |s2.procs| == |s.procs| && s2.procs[q] == s.procs[q]
            && va in s2.procs[p].mem && s2.procs[p].mem[va].major == j
            && s2.excSubs == s.excSubs
            && Panics(s2, q, PROC_INTERRUPT)
  {
    var e := Receives(p, va, PROC_INTERRUPT);
    var a := Marks(s.excs);
    assert a[i] && a[j] && forall k :: 0 < k < i ==> !a[k];
    FirstPendingIs(a, 1, i);
    assert Enabled(s, e);
    var s1 := Step(s, e);
    StepInv(s, e);
    hide Inv;
    assert s1.excs == s.excs[i := None];
    var b := Marks(s1.excs);
    assert b[j] && forall k :: 0 < k < j ==> !b[k];
    FirstPendingIs(b, 1, j);
    assert s1.procs[p].flags.gotExc && Enabled(s1, e);
    assert Step(s1, e).excs == s1.excs[j := None];
  }

  lemma FaultsBoth(s: State, p: nat, q: nat, i: nat, j: nat, data: nat)
    requires Inv(s) && 0 < i < j < EXCEPTION_COUNT && p != q && s.excSubs[i] == p && s.excSubs[j] == q && p != 0
    requires q != 0 && Runnable(s.procs[p]) && !s.procs[q].receiving && !s.procs[q].flags.gotInt
    requires forall k :: 0 <= k < |s.excs| ==> s.excs[k].None?
    ensures var a, b := Faults(p, j, data), Faults(p, i, data);
      && Enabled(s, a) && Inv(Step(s, a)) && Enabled(Step(s, a), b) && var s2 := Step(Step(s, a), b);
         && Inv(s2) && BothFaulted(s2, p, q, i, j) && s2.procs[p].mem == s.procs[p].mem && s2.excSubs == s.excSubs
         && Runnable(s2.procs[q]) == Runnable(s.procs[q])
  {
    assert Sizes(s);
    FaultBoth(s, p, q, i, j, data);
    FaultInv(s, p, j, data);
    FaultInv(Fault(s, p, j, data), p, i, data);
    hide Inv, Fault, Runnable;
  }

  lemma RobExc(s0: State, es: seq<Event>, s: State, p: nat, q: nat, i: nat, j: nat, va: nat, data: nat)
      returns (more: seq<Event>, s': State)
    requires Inv(s0) && ReachedBy(s0, es, s) && Inv(s)
    requires 0 < i < j < EXCEPTION_COUNT && s.excSubs[i] == p && s.excSubs[j] == q && p != q && p != 0 && q != 0
    requires Runnable(s.procs[p]) && !s.procs[q].receiving && !s.procs[q].flags.gotInt && va in s.procs[p].mem
    requires forall k :: 0 <= k < |s.excs| ==> s.excs[k].None?
    ensures ReachedBy(s0, es + more, s') && KeepSubs(more) && RobbedExc(s', p, q, j, va)
    ensures Runnable(s'.procs[q]) == Runnable(s.procs[q])
  {
    hide Inv, Enabled, Step, ReachedBy, Panics, Runnable;
    var e := Receives(p, va, PROC_INTERRUPT);
    var a, b := Faults(p, j, data), Faults(p, i, data);
    more := [a, b, e, e];
    FaultsBoth(s, p, q, i, j, data);
    var s2 := Step(Step(s, a), b);
    TakeBothExc(s2, p, q, i, j, va);
    RunFour(s0, es, s, a, b, s2, e, e);
    s' := Step(Step(s2, e), e);
  }

  // ---------- which subscriptions can panic ----------

  /** A fresh machine but for its subscriptions. */
  ghost predicate Subscribed(s: State) {
    && Sizes(s)
    && Fresh(s.(irqSubs := seq(HW_IRQ_COUNT, _ => 0), excSubs := seq(EXCEPTION_COUNT, _ => 0)))
  }

  predicate TwoOf(subs: seq<nat>) {
    exists i, j :: 0 < i < j < |subs| && subs[i] != 0 && subs[j] != 0 && subs[i] != subs[j]
  }

  /** A run from `s0` after which process `x`, being free to run, panics by receiving. */
  ghost predicate PanicRun(s0: State, es: seq<Event>, s: State, x: nat)
    requires Inv(s0)
  {
    && ReachedBy(s0, es, s) && KeepSubs(es) && x < |s.procs| && Runnable(s.procs[x])
    && (Panics(s, x, PROC_INTERRUPT) || Panics(s, x, PROC_ANY))
  }

  lemma SubscribedInv(s: State)
    requires Subscribed(s)
    ensures Inv(s)
  {
    var bare := s.(irqSubs := seq(HW_IRQ_COUNT, _ => 0), excSubs := seq(EXCEPTION_COUNT, _ => 0));
    FreshInv(bare);
    assert s == bare.(irqSubs := s.irqSubs, excSubs := s.excSubs);
    hide Fresh;
    SubsInv(bare, s);
  }

  const FREE: Flags := Flags(true, false, false, false, false, false, false)
  const BLANK: Message := Message(0, 0, false, 0, 0, 0, 0, 0, 0)

  /** Sets `p` going, with one message in its memory. */
  lemma SetGoing(s0: State, es: seq<Event>, s: State, p: nat) returns (more: seq<Event>, s': State)
    requires Inv(s0) && ReachedBy(s0, es, s) && Inv(s) && p < |s.procs| && Idle(s.procs[p])
    ensures Inv(s') && ReachedBy(s0, es + more, s') && KeepSubs(more)
    ensures s' == s.(procs := s.procs[p := s.procs[p].(flags := FREE, mem := map[0 := BLANK])])
  {
    more := [Manage(p, FREE), Work(p, map[0 := BLANK])];
    StepInv(s, more[0]);
    RunBoth(s0, es, s, more[0], more[1]);
    s' := Step(Step(s, more[0]), more[1]);
  }

  lemma ZeroRuns(s0: State) returns (es: seq<Event>, s: State)
    requires Subscribed(s0) && Inv(s0) && s0.excSubs[0] != 0
    ensures PanicRun(s0, es, s, s0.excSubs[0])
  {
    var p := s0.excSubs[0];
    assert ReachedBy(s0, [], s0) && Idle(s0.procs[p]);
    var more, s1 := SetGoing(s0, [], s0, p);
    var e := Faults(p, 0, 0);
    ReachedMore(s0, [] + more, s1, e);
    es := [] + more + [e];
    s := Step(s1, e);
    hide Inv;
    assert s.excs == s0.excs[0 := Some(0)];
    assert forall i :: 0 < i < |s.excs| ==> !Marks(s.excs)[i];
  }

  /** Sets both going. */
  lemma BothGoing(s0: State, p: nat, q: nat) returns (es: seq<Event>, s: State)
    requires Subscribed(s0) && Inv(s0) && p < |s0.procs| && q < |s0.procs| && p != q
    ensures Inv(s) && ReachedBy(s0, es, s) && KeepSubs(es) && Sizes(s)
    ensures s == s0.(procs := s.procs) && |s.procs| == |s0.procs|
    ensures Runnable(s.procs[p]) && Runnable(s.procs[q]) && 0 in s.procs[p].mem && !s.procs[q].flags.gotInt
  {
    assert ReachedBy(s0, [], s0) && Idle(s0.procs[p]) && Idle(s0.procs[q]);
    hide Inv, Subscribed, ReachedBy;
    var a, s1 := SetGoing(s0, [], s0, p);
    var b;
    b, s := SetGoing(s0, [] + a, s1, q);
    es := [] + a + b;
    assert Sizes(s) by { InvParts(s); }
  }

  lemma TwoIrqsRun(s0: State, i: nat, j: nat) returns (es: seq<Event>, s: State)
    requires Subscribed(s0) && Inv(s0) && 0 < i < j < HW_IRQ_COUNT
    requires s0.irqSubs[i] != 0 && s0.irqSubs[j] != 0 && s0.irqSubs[i] != s0.irqSubs[j]
    ensures PanicRun(s0, es, s, s0.irqSubs[j])
  {
    var p, q := s0.irqSubs[i], s0.irqSubs[j];
    var s1, more;
    es, s1 := BothGoing(s0, p, q);
    hide Inv, ReachedBy;
    more, s := RobIrq(s0, es, s1, p, q, i, j, 0);
    es := es + more;
  }

  lemma TwoExcsRun(s0: State, i: nat, j: nat) returns (es: seq<Event>, s: State)
    requires Subscribed(s0) && Inv(s0) && 0 < i < j < EXCEPTION_COUNT
    requires s0.excSubs[i] != 0 && s0.excSubs[j] != 0 && s0.excSubs[i] != s0.excSubs[j]
    ensures PanicRun(s0, es, s, s0.excSubs[j])
  {
    var p, q := s0.excSubs[i], s0.excSubs[j];
    var s1, more;
    es, s1 := BothGoing(s0, p, q);
    hide Inv, ReachedBy;
    more, s := RobExc(s0, es, s1, p, q, i, j, 0, 0);
    es := es + more;
  }

  /** The one subscriber, if there is one. */
  lemma OnlyOf(subs: seq<nat>) returns (p: nat)
    requires !TwoOf(subs) && |subs| > 0 && subs[0] == 0
    ensures forall i :: 0 <= i < |subs| ==> subs[i] == 0 || subs[i] == p
  {
    p := 0;
    if i :| 0 <= i < |subs| && subs[i] != 0 { p := subs[i]; }
  }

  /** No run panics. */
  lemma NoneRuns(s0: State, es: seq<Event>, s: State, x: nat)
    requires Subscribed(s0) && Inv(s0) && s0.excSubs[0] == 0 && !TwoOf(s0.irqSubs) && !TwoOf(s0.excSubs)
    ensures !PanicRun(s0, es, s, x)
  {
    if ReachedBy(s0, es, s) && KeepSubs(es) && x < |s.procs| {
      var p := OnlyOf(s0.irqSubs);
      var q := OnlyOf(s0.excSubs);
      assert Sole(s0, p, q) && NoZero(s0);
      hide Step, Enabled, Inv, ReachedBy, Subscribed, Sole, Panics;
      forall i | 0 <= i < |es| ensures AskedBy(es[i], p, q) && !AsksZero(es[i]) { assert es[i] in es; }
      SoleRun(s0, es, s, p, q);
      NoZeroRun(s0, es, s);
      PanicExact(s, p, q, x, PROC_INTERRUPT);
      PanicExact(s, p, q, x, PROC_ANY);
    }
  }

  /** The subscriptions that can bring the kernel to panic are exactly these: anyone's to
      exception 0, two processes' to two interrupts, two processes' to two exceptions. */
  lemma SubscriptionsExact(s0: State)
    requires Subscribed(s0)
    ensures Inv(s0)
    ensures (exists es, s, x: nat :: PanicRun(s0, es, s, x))
      <==> s0.excSubs[0] != 0 || TwoOf(s0.irqSubs) || TwoOf(s0.excSubs)
  {
    SubscribedInv(s0);
    assert Sizes(s0);
    hide Inv, PanicRun, Subscribed;
    if s0.excSubs[0] != 0 {
      var es, s := ZeroRuns(s0);
    } else if TwoOf(s0.irqSubs) {
      var i, j :| 0 < i < j < |s0.irqSubs| && s0.irqSubs[i] != 0 && s0.irqSubs[j] != 0
                  && s0.irqSubs[i] != s0.irqSubs[j];
      var es, s := TwoIrqsRun(s0, i, j);
    } else if TwoOf(s0.excSubs) {
      var i, j :| 0 < i < j < |s0.excSubs| && s0.excSubs[i] != 0 && s0.excSubs[j] != 0
                  && s0.excSubs[i] != s0.excSubs[j];
      var es, s := TwoExcsRun(s0, i, j);
    } else {
      forall es, s, x: nat ensures !PanicRun(s0, es, s, x) { NoneRuns(s0, es, s, x); }
    }
  }
}
