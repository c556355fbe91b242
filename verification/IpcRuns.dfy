/** Every step keeps the invariant of module IpcSpec; so does every run. */
module IpcRuns {
  import opened Common
  import opened IpcGraph
  import opened IpcSpec

  /** Only process `p` changed, and not in whom it is sending to or what it sends. */
  ghost predicate QuietStep(s: State, s': State, p: nat) {
    && Sizes(s) && |s'.procs| == |s.procs| && p < |s.procs|
    && s'.queues == s.queues && s'.ticket == s.ticket && |s'.irqs| == |s.irqs| && |s'.excs| == |s.excs|
    && s'.irqSubs == s.irqSubs && s'.excSubs == s.excSubs
    && (forall x :: 0 <= x < |s.procs| && x != p ==> s'.procs[x] == s.procs[x])
    && s'.procs[p].sending == s.procs[p].sending
    && (s.procs[p].sending ==> HasMsg(s.procs[p]) && HasMsg(s'.procs[p]) && Msg(s'.procs[p]) == Msg(s.procs[p]))
  }

  /** A quiet step keeps queues, order, tickets and the graph; what the changed process
      waits for must still not be offered. */
  lemma Quiet(s: State, s': State, p: nat)
    requires Inv(s) && QuietStep(s, s', p) && ProcOk(s', p)
    requires forall x :: 0 <= x < |s.procs| && Blocked(s.procs[x]) == To(p) ==> !Receptive(s'.procs[p], x)
    requires s.sent <= s'.sent
    requires forall x :: 0 <= x < |s.procs| && s.procs[x].sending ==> s.ticket[x] !in s'.delivered
    ensures forall x: nat :: x < |s'.procs| ==> ProcOk(s', x) && QueueOk(s', x) && InOrder(s', x) && TicketOk(s', x)
    ensures NoMissedRendezvous(s') && Acyclic(GraphOf(s'.procs))
  {
    assert forall x :: 0 <= x < |s.procs| ==> Blocked(s'.procs[x]) == Blocked(s.procs[x]);
    assert GraphOf(s'.procs) == GraphOf(s.procs);
    forall x: nat | x < |s'.procs| ensures ProcOk(s', x) && QueueOk(s', x) && InOrder(s', x) && TicketOk(s', x) {
      assert ProcOk(s, x) && QueueOk(s, x) && InOrder(s, x) && TicketOk(s, x);
    }
  }

  /** A quiet step that logs nothing. */
  lemma QuietLog(s: State, s': State, p: nat)
    requires Inv(s) && QuietStep(s, s', p) && s'.sent == s.sent && s'.delivered == s.delivered
    ensures LogOk(s')
    ensures forall x :: 0 <= x < |s.procs| && s.procs[x].sending ==> s.ticket[x] !in s'.delivered
  {
    forall t: nat | t < |s'.sent| ensures t in s'.delivered || Waiting(s', t) {
      assert t in s.delivered || Waiting(s, t);
    }
    forall x: nat | x < |s.procs| && s.procs[x].sending ensures s.ticket[x] !in s'.delivered { assert TicketOk(s, x); }
  }

  /** A quiet step that logs nothing, on a process that waits for nobody in its queue. */
  lemma QuietInv(s: State, s': State, p: nat)
    requires Inv(s) && QuietStep(s, s', p) && ProcOk(s', p)
    requires s'.sent == s.sent && s'.delivered == s.delivered
    requires forall x :: 0 <= x < |s.procs| && Blocked(s.procs[x]) == To(p) ==> !Receptive(s'.procs[p], x)
    ensures Inv(s')
  {
    QuietLog(s, s', p);
    Quiet(s, s', p);
  }

  // ---------- send ----------

  lemma StampedInv(s: State, p: nat, va: nat)
    requires Inv(s) && p < |s.procs| && Runnable(s.procs[p]) && va in s.procs[p].mem
    ensures Inv(Stamped(s, p, va)) && GraphOf(Stamped(s, p, va).procs) == GraphOf(s.procs)
    ensures SendEnabled(Stamped(s, p, va), p, va) <==> SendEnabled(s, p, va)
  {
    var s' := Stamped(s, p, va);
    assert forall x :: 0 <= x < |s.procs| ==> Blocked(s'.procs[x]) == Blocked(s.procs[x]);
    assert GraphOf(s'.procs) == GraphOf(s.procs);
    QuietInv(s, s', p);
  }

  lemma SendDirect(s: State, p: nat, va: nat)
    requires Inv(s) && SendEnabled(s, p, va) && s.procs[p].mem[va].sender == p
    requires Receptive(s.procs[s.procs[p].mem[va].receiver], p)
    ensures Inv(Send(s, p, va))
  {
    var m := s.procs[p].mem[va];
    var r := m.receiver;
    var s' := Send(s, p, va);
    assert Stamped(s, p, va) == s by { StampedAgain(s, p, va); }
    assert ProcOk(s, r);
    forall x: nat | x < |s.procs| && s.procs[x].sending ensures s.ticket[x] !in s'.delivered { assert TicketOk(s, x); }
    Quiet(s, s', r);
    assert forall i :: 0 <= i < |s.delivered| ==> s.delivered[i] in s.delivered;
    forall t: nat | t < |s'.sent| ensures t in s'.delivered || Waiting(s', t) {
      if t < |s.sent| { assert t in s.delivered || Waiting(s, t); }
    }
  }

  lemma StampedAgain(s: State, p: nat, va: nat)
    requires p < |s.procs| && va in s.procs[p].mem && s.procs[p].mem[va].sender == p
    ensures Stamped(s, p, va) == s
  {
    var q := s.procs[p];
    assert q.mem[va := q.mem[va].(sender := p)] == q.mem;
  }

  lemma SendBlocks(s: State, p: nat, va: nat)
    requires Inv(s) && SendEnabled(s, p, va) && s.procs[p].mem[va].sender == p
    requires !Receptive(s.procs[s.procs[p].mem[va].receiver], p)
    ensures Inv(Send(s, p, va))
  {
    var r := s.procs[p].mem[va].receiver;
    var s' := Send(s, p, va);
    assert Stamped(s, p, va) == s by { StampedAgain(s, p, va); }
    NewEdge(GraphOf(s.procs), p, r);
    assert GraphOf(s'.procs) == GraphOf(s.procs)[p := To(r)];
    assert s'.procs[p].sending && Blocked(s'.procs[p]) == To(r);
    assert Queued(s, s', p, r);
    forall x: nat | x < |s'.procs| ensures ProcOk(s', x) && QueueOk(s', x) && InOrder(s', x) && TicketOk(s', x) {
      QueuedProc(s, s', p, r, x);
    }
    QueuedLog(s, s', p, r);
    hide ProcOk, QueueOk, InOrder, TicketOk, Acyclic, LogOk, NoMissedRendezvous;
  }

  /** `p` stopped running and joined the end of `r`'s queue with a message not logged before. */
  ghost predicate Queued(s: State, s': State, p: nat, r: nat) {
    && Inv(s) && p < |s.procs| && r < |s.procs| && r != p && !s.procs[p].sending && !s.procs[p].receiving
    && !Receptive(s.procs[r], p) && |s'.procs| == |s.procs| && HasMsg(s'.procs[p])
    && s' == s.(procs := s.procs[p := s'.procs[p]], queues := s.queues[r := s.queues[r] + [p]],
                sent := s.sent + [Envelope(p, r, Msg(s'.procs[p]))], ticket := s.ticket[p := |s.sent|])
    && s'.procs[p] == s.procs[p].(pMsg := s'.procs[p].pMsg, sending := true)
    && Msg(s'.procs[p]).sender == p && Msg(s'.procs[p]).receiver == r
  }

  lemma QueuedProc(s: State, s': State, p: nat, r: nat, x: nat)
    requires Queued(s, s', p, r) && x < |s.procs|
    ensures ProcOk(s', x) && QueueOk(s', x) && InOrder(s', x) && TicketOk(s', x)
  {
    assert ProcOk(s, x) && QueueOk(s, x) && InOrder(s, x) && TicketOk(s, x);
    assert Sizes(s);
    forall y | y in s.queues[x] ensures y < |s.procs| && s.ticket[y] < |s.sent| && y != p { assert TicketOk(s, y); }
    hide Inv, NoMissedRendezvous, Acyclic;
  }

  lemma QueuedLog(s: State, s': State, p: nat, r: nat)
    requires Queued(s, s', p, r)
    ensures Sizes(s') && LogOk(s') && NoMissedRendezvous(s')
  {
    hide Acyclic, QueueOk, InOrder, TicketOk, ProcOk;
    assert LogOk(s) && NoMissedRendezvous(s);
    hide Inv;
    forall t: nat | t < |s'.sent| ensures t in s'.delivered || Waiting(s', t) {
      if t < |s.sent| { assert t in s.delivered || Waiting(s, t); }
    }
  }

  lemma SendInv(s: State, p: nat, va: nat)
    requires Inv(s) && SendEnabled(s, p, va)
    ensures Inv(Send(s, p, va))
  {
    var s1 := Stamped(s, p, va);
    StampedInv(s, p, va);
    StampedAgain(s1, p, va);
    assert Send(s1, p, va) == Send(s, p, va);
    if Receptive(s1.procs[s1.procs[p].mem[va].receiver], p) {
      SendDirect(s1, p, va);
    } else {
      SendBlocks(s1, p, va);
    }
  }

  // ---------- receive ----------

  lemma AddressedInv(s: State, p: nat, va: nat)
    requires Inv(s) && p < |s.procs| && Runnable(s.procs[p]) && va in s.procs[p].mem
    ensures Inv(Addressed(s, p, va))
  {
    QuietInv(s, Addressed(s, p, va), p);
  }

  lemma TakeInterruptInv(s: State, p: nat, va: nat)
    requires Inv(s) && p < |s.procs| && Runnable(s.procs[p]) && va in s.procs[p].mem && AnyPending(s.irqs)
    ensures Inv(TakeInterrupt(s, p, va))
  {
    var s' := TakeInterrupt(s, p, va);
    QuietLog(s, s', p);
    Quiet(s, s', p);
  }

  lemma TakeExceptionInv(s: State, p: nat, va: nat)
    requires Inv(s) && p < |s.procs| && Runnable(s.procs[p]) && va in s.procs[p].mem && AnyPending(Marks(s.excs))
    ensures Inv(TakeException(s, p, va))
  {
    var s' := TakeException(s, p, va);
    QuietLog(s, s', p);
    Quiet(s, s', p);
  }

  /** Blocking on `from` misses nobody: no process that could be heard is sending. */
  lemma AwaitInv(s: State, p: nat, va: nat, from: nat)
    requires Inv(s) && p < |s.procs| && Runnable(s.procs[p]) && va in s.procs[p].mem
    requires from == PROC_ANY ==> s.queues[p] == []
    requires from < |s.procs| ==> Blocked(s.procs[from]) != To(p)
    ensures Inv(Await(s, p, va, from))
  {
    assert QueueOk(s, p);
    QuietInv(s, Await(s, p, va, from), p);
  }

  lemma AcceptInv(s: State, p: nat, va: nat, i: nat)
    requires Inv(s) && p < |s.procs| && Runnable(s.procs[p]) && va in s.procs[p].mem && i < |s.queues[p]|
    ensures s.queues[p][i] < |s.procs| && s.queues[p][i] != p && HasMsg(s.procs[s.queues[p][i]])
    ensures Inv(Accept(s, p, va, i))
  {
    var q := s.queues[p][i];
    assert QueueOk(s, p) && q in s.queues[p];
    assert ProcOk(s, q) && TicketOk(s, q);
    var s' := Accept(s, p, va, i);
    EdgeGone(GraphOf(s.procs), q);
    assert GraphOf(s'.procs) == GraphOf(s.procs)[q := Nobody];
    assert forall x :: 0 <= x < |s.procs| && x != p && x != q ==> s'.procs[x] == s.procs[x];
    forall x: nat | x < |s'.procs| ensures ProcOk(s', x) {
      assert ProcOk(s, x);
    }
    forall x: nat | x < |s'.procs| ensures TicketOk(s', x) {
      assert TicketOk(s, x) && (x != q && s.procs[x].sending ==> s.ticket[x] != s.ticket[q]);
    }
    AcceptQueues(s, p, va, i);
    assert forall j :: 0 <= j < |s.delivered| ==> s.delivered[j] in s.delivered;
    forall t: nat | t < |s'.sent| ensures t in s'.delivered || Waiting(s', t) {
      assert t in s.delivered || Waiting(s, t);
    }
  }

  lemma CutMember(a: seq<nat>, i: nat)
    requires NoDup(a) && i < |a|
    ensures var b := a[..i] + a[i + 1..]; NoDup(b) && forall x :: x in b <==> x in a && x != a[i]
  {
    var b := a[..i] + a[i + 1..];
    assert forall j :: 0 <= j < |b| ==> b[j] == a[if j < i then j else j + 1];
    forall x | x in a && x != a[i] ensures x in b {
      var j :| 0 <= j < |a| && a[j] == x;
      assert b[if j < i then j else j - 1] == x;
    }
  }

  lemma AcceptQueues(s: State, p: nat, va: nat, i: nat)
    requires Inv(s) && p < |s.procs| && Runnable(s.procs[p]) && va in s.procs[p].mem && i < |s.queues[p]|
    requires var q := s.queues[p][i]; q < |s.procs| && q != p && HasMsg(s.procs[q])
    ensures forall r: nat :: r < |s.procs| ==> QueueOk(Accept(s, p, va, i), r) && InOrder(Accept(s, p, va, i), r)
    ensures NoMissedRendezvous(Accept(s, p, va, i))
  {
    hide Acyclic, Inv;
    InvParts(s);
    var q := s.queues[p][i];
    var s' := Accept(s, p, va, i);
    assert QueueOk(s, p);
    CutMember(s.queues[p], i);
    assert q in s.queues[p];
    assert forall x :: 0 <= x < |s.procs| ==> Blocked(s'.procs[x]) == if x == q then Nobody else Blocked(s.procs[x]);
    forall r: nat | r < |s.procs| ensures QueueOk(s', r) && InOrder(s', r) {
      assert QueueOk(s, r) && InOrder(s, r);
    }
    assert forall x, y :: 0 <= x < |s.procs| && 0 <= y < |s.procs| && Receptive(s'.procs[y], x) ==>
      Receptive(s.procs[y], x);
  }

  lemma InvParts(s: State)
    requires Inv(s)
    ensures Sizes(s) && NoMissedRendezvous(s)
    ensures forall r: nat :: r < |s.procs| ==> QueueOk(s, r) && InOrder(s, r)
  {
  }

  lemma IndexOfBlocked(s: State, p: nat, from: nat)
    requires Inv(s) && p < |s.procs| && from < |s.procs| && Blocked(s.procs[from]) == To(p)
    ensures IndexOf(s.queues[p], from) < |s.queues[p]| && s.queues[p][IndexOf(s.queues[p], from)] == from
  {
    assert QueueOk(s, p);
  }

  lemma MeetInv(s: State, p: nat, va: nat, from: nat)
    requires Inv(s) && RecvEnabled(s, p, va, from)
    ensures QueueOk(s, p) && Inv(Meet(s, p, va, from))
  {
    assert QueueOk(s, p);
    if from == PROC_INTERRUPT {
      AwaitInv(s, p, va, from);
    } else if from == PROC_ANY {
      if s.queues[p] != [] { AcceptInv(s, p, va, 0); } else { AwaitInv(s, p, va, from); }
    } else if Blocked(s.procs[from]) == To(p) {
      IndexOfBlocked(s, p, from);
      AcceptInv(s, p, va, IndexOf(s.queues[p], from));
    } else {
      AwaitInv(s, p, va, from);
    }
  }

  lemma RecvInv(s0: State, p: nat, va: nat, from: nat)
    requires Inv(s0) && RecvEnabled(s0, p, va, from)
    ensures Inv(Recv(s0, p, va, from))
  {
    var f := s0.procs[p].flags;
    var s := Addressed(s0, p, va);
    AddressedInv(s0, p, va);
    assert s.procs[p].flags == f;
    if from == 0 {
    } else if TakesInterrupt(f, from) {
      TakeInterruptInv(s, p, va);
    } else if TakesException(f, from) {
      TakeExceptionInv(s, p, va);
    } else {
      MeetInv(s, p, va, from);
    }
  }

  // ---------- interrupts, faults, and everything else ----------

  lemma InterruptInv(s: State, irq: nat)
    requires Inv(s) && irq < HW_IRQ_COUNT
    ensures Inv(Interrupt(s, irq))
  {
    var p := s.irqSubs[irq];
    if p != 0 {
      assert ProcOk(s, p);
      QuietInv(s, Interrupt(s, irq), p);
    }
  }

  lemma ExceptionMsgInv(s: State, exc: nat, data: nat)
    requires Inv(s) && exc < EXCEPTION_COUNT
    ensures Inv(ExceptionMsg(s, exc, data))
  {
    var p := s.excSubs[exc];
    assert ProcOk(s, p);
    QuietInv(s, ExceptionMsg(s, exc, data), p);
  }

  lemma FaultInv(s: State, cur: nat, exc: nat, data: nat)
    requires Inv(s) && cur < |s.procs| && Runnable(s.procs[cur]) && exc < EXCEPTION_COUNT
    ensures Inv(Cleared(s, cur)) && Inv(Fault(s, cur, exc, data))
  {
    QuietInv(s, Cleared(s, cur), cur);
    ExceptionMsgInv(Cleared(s, cur), exc, data);
  }

  /** Who is subscribed is no part of the invariant, but for interrupt 0. */
  lemma SubsInv(s: State, s': State)
    requires Inv(s) && s' == s.(irqSubs := s'.irqSubs, excSubs := s'.excSubs) && Sizes(s')
    ensures Inv(s')
  {
    forall x: nat | x < |s'.procs| ensures ProcOk(s', x) && QueueOk(s', x) && InOrder(s', x) && TicketOk(s', x) {
      assert ProcOk(s, x) && QueueOk(s, x) && InOrder(s, x) && TicketOk(s, x);
    }
    forall t: nat | t < |s'.sent| ensures t in s'.delivered || Waiting(s', t) {
      assert t in s.delivered || Waiting(s, t);
    }
  }

  // ---------- runs ----------

  /** What can happen. A process asks for interrupts or exceptions by a message to the system
      task. `Work` is a running process writing its own memory, `Manage` other kernel code
      setting status bits that are not this module's. */
  datatype Event =
    | Sends(p: nat, va: nat)
    | Receives(p: nat, va: nat, from: nat)
    | Raises(irq: nat)
    | Faults(p: nat, exc: nat, data: nat)
    | AsksIrq(irq: nat, p: nat)
    | AsksExc(exc: nat, p: nat)
    | LeavesIrq(irq: nat)
    | LeavesExc(exc: nat)
    | Work(p: nat, mem: map<nat, Message>)
    | Manage(p: nat, flags: Flags)

  ghost predicate Enabled(s: State, e: Event) {
    match e
    case Sends(p, va) => SendEnabled(s, p, va)
    case Receives(p, va, from) => RecvEnabled(s, p, va, from)
    case Raises(irq) => irq < HW_IRQ_COUNT
    case Faults(p, exc, _) =>
      p < |s.procs| && Runnable(s.procs[p]) && exc < EXCEPTION_COUNT == |s.excSubs| && s.excSubs[exc] != 0
    case AsksIrq(irq, p) => p < |s.procs| && 0 < irq < HW_IRQ_COUNT == |s.irqSubs| && s.irqSubs[irq] == 0
    case AsksExc(exc, p) => p < |s.procs| && exc < EXCEPTION_COUNT == |s.excSubs| && s.excSubs[exc] == 0
    case LeavesIrq(irq) => irq < |s.irqSubs|
    case LeavesExc(exc) => exc < |s.excSubs|
    case Work(p, _) => p < |s.procs| && Runnable(s.procs[p])
    case Manage(p, f) => p < |s.procs| && f.gotInt == s.procs[p].flags.gotInt && f.gotExc == s.procs[p].flags.gotExc
  }

  ghost function Step(s: State, e: Event): State
    requires Inv(s) && Enabled(s, e)
  {
    match e
    case Sends(p, va) => Send(s, p, va)
    case Receives(p, va, from) => Recv(s, p, va, from)
    case Raises(irq) => Interrupt(s, irq)
    case Faults(p, exc, data) => Fault(s, p, exc, data)
    case AsksIrq(irq, p) => s.(irqSubs := s.irqSubs[irq := p])
    case AsksExc(exc, p) => s.(excSubs := s.excSubs[exc := p])
    case LeavesIrq(irq) => s.(irqSubs := s.irqSubs[irq := 0])
    case LeavesExc(exc) => s.(excSubs := s.excSubs[exc := 0])
    case Work(p, mem) => s.(procs := s.procs[p := s.procs[p].(mem := mem)])
    case Manage(p, f) => s.(procs := s.procs[p := s.procs[p].(flags := f)])
  }

  lemma StepInv(s: State, e: Event)
    requires Inv(s) && Enabled(s, e)
    ensures Inv(Step(s, e))
  {
    match e
    case Sends(p, va) => SendInv(s, p, va);
    case Receives(p, va, from) => RecvInv(s, p, va, from);
    case Raises(irq) => InterruptInv(s, irq);
    case Faults(p, exc, data) => FaultInv(s, p, exc, data);
    case AsksIrq(_, _) => SubsInv(s, Step(s, e));
    case AsksExc(_, _) => SubsInv(s, Step(s, e));
    case LeavesIrq(_) => SubsInv(s, Step(s, e));
    case LeavesExc(_) => SubsInv(s, Step(s, e));
    case Work(p, _) => QuietInv(s, Step(s, e), p);
    case Manage(p, _) =>
      assert ProcOk(s, p);
      QuietInv(s, Step(s, e), p);
  }

  /** `s` is reached from `s0` by the events `es`. */
  ghost predicate ReachedBy(s0: State, es: seq<Event>, s: State)
    requires Inv(s0)
    decreases es
  {
    if es == [] then s == s0
    else Enabled(s0, es[0]) && (StepInv(s0, es[0]); ReachedBy(Step(s0, es[0]), es[1..], s))
  }

  predicate Idle(p: Proc) {
    !p.sending && !p.receiving && !p.flags.gotInt && !p.flags.gotExc
  }

  /** Idle processes, nothing pending, nobody subscribed, nothing logged. */
  ghost predicate Fresh(s: State) {
    && Sizes(s) && s.sent == [] && s.delivered == []
    && (forall i :: 0 <= i < |s.irqSubs| ==> s.irqSubs[i] == 0)
    && (forall i :: 0 <= i < |s.excSubs| ==> s.excSubs[i] == 0)
    && (forall i :: 0 <= i < |s.irqs| ==> !s.irqs[i]) && (forall i :: 0 <= i < |s.excs| ==> s.excs[i].None?)
    && forall p :: 0 <= p < |s.procs| ==> Idle(s.procs[p]) && s.queues[p] == []
  }

  lemma FreshInv(s: State)
    requires Fresh(s)
    ensures Inv(s)
  {
    var g := GraphOf(s.procs);
    forall x: nat | x < |g| ensures Finite(g, x) { assert Ends(g, x, 0); }
  }

  lemma {:induction false} RunInv(s0: State, es: seq<Event>, s: State)
    requires Inv(s0) && ReachedBy(s0, es, s)
    ensures Inv(s)
    decreases es
  {
    if es != [] {
      StepInv(s0, es[0]);
      RunInv(Step(s0, es[0]), es[1..], s);
    }
  }

  // ---------- what the invariant says ----------

  /** In every reachable state: nobody waits in a circle, nobody is both sending and
      receiving, nobody is sending to a process that would take the message. */
  lemma NoDeadlock(s0: State, es: seq<Event>, s: State)
    requires Fresh(s0) && Inv(s0) && ReachedBy(s0, es, s)
    ensures forall x: nat :: !Reaches(GraphOf(s.procs), x, x)
    ensures forall p: nat :: p < |s.procs| ==> !(s.procs[p].sending && s.procs[p].receiving)
    ensures forall p, r :: 0 <= p < |s.procs| && 0 <= r < |s.procs| && Blocked(s.procs[p]) == To(r) ==>
      !Receptive(s.procs[r], p)
  {
    RunInv(s0, es, s);
    AcyclicHasNoCycle(GraphOf(s.procs));
    forall p: nat | p < |s.procs| ensures !(s.procs[p].sending && s.procs[p].receiving) { assert ProcOk(s, p); }
  }

  /** In every reachable state each queue is the processes sending to its owner, once each, oldest first. */
  lemma QueuesExact(s0: State, es: seq<Event>, s: State, r: nat)
    requires Fresh(s0) && Inv(s0) && ReachedBy(s0, es, s) && r < |s.procs|
    ensures |s.queues| == |s.ticket| == |s.procs| && NoDup(s.queues[r])
    ensures forall q :: q in s.queues[r] <==>
      0 <= q < |s.procs| && s.procs[q].sending && HasMsg(s.procs[q]) && Msg(s.procs[q]).receiver == r
    ensures forall i, j :: 0 <= i < j < |s.queues[r]| && s.queues[r][i] < |s.ticket| && s.queues[r][j] < |s.ticket| ==>
      s.ticket[s.queues[r][i]] < s.ticket[s.queues[r][j]]
  {
    RunInv(s0, es, s);
    assert QueueOk(s, r) && InOrder(s, r);
    assert forall i :: 0 <= i < |s.queues[r]| ==> s.queues[r][i] in s.queues[r];
  }

  /** In every reachable state each message sent has been delivered, once, or waits with
      its sender, and never both; nothing else was delivered. */
  lemma Conservation(s0: State, es: seq<Event>, s: State)
    requires Fresh(s0) && Inv(s0) && ReachedBy(s0, es, s)
    ensures |s.ticket| == |s.procs| && NoDup(s.delivered)
    ensures forall t :: t in s.delivered ==> 0 <= t < |s.sent|
    ensures forall t: nat :: t < |s.sent| ==> (t in s.delivered <==> !Waiting(s, t))
  {
    RunInv(s0, es, s);
    forall t: nat | t < |s.sent| ensures t in s.delivered <==> !Waiting(s, t) {
      if Waiting(s, t) { assert TicketOk(s, s.sent[t].from); }
    }
  }

  /** Who gets the message a step delivers, and the address it waits at: the receiver's own
      for a receive, the one the receiver blocked with for a send. */
  function Taker(s: State, e: Event): nat {
    match e
    case Receives(p, _, _) => p
    case Sends(p, va) => if p < |s.procs| && va in s.procs[p].mem then s.procs[p].mem[va].receiver else 0
    case _ => 0
  }

  function Buffer(s: State, e: Event): Option<nat> {
    if e.Receives? then Some(e.va)
    else if Taker(s, e) < |s.procs| then s.procs[Taker(s, e)].pMsg
    else None
  }

  /** Log entry `t` went to its addressee, whose buffer now holds the message sent (but for the
      ready mark, which the kernel uses itself). */
  ghost predicate Delivers(s: State, s': State, e: Event, t: nat) {
    && s'.delivered == s.delivered + [t] && t < |s'.sent|
    && var to, at := Taker(s, e), Buffer(s, e);
       && s'.sent[t].to == to < |s'.procs| && at.Some? && at.value in s'.procs[to].mem
       && s'.procs[to].mem[at.value].(ready := false) == s'.sent[t].msg.(ready := false)
  }

  /** A step logs at most one delivery, of a message its addressee now holds unchanged in its buffer. */
  lemma DeliveredUnchanged(s: State, e: Event)
    requires Inv(s) && Enabled(s, e)
    ensures var s' := Step(s, e); s'.delivered == s.delivered || exists t :: Delivers(s, s', e, t)
  {
    hide Acyclic, QueueOk, InOrder, TicketOk, LogOk, NoMissedRendezvous;
    match e
    case Sends(p, va) => SendDelivers(s, p, va);
    case Receives(p, va, from) => RecvDelivers(s, p, va, from);
    case _ => QuietDelivers(s, e);
  }

  lemma QuietDelivers(s: State, e: Event)
    requires Inv(s) && Enabled(s, e) && !e.Sends? && !e.Receives?
    ensures Step(s, e).delivered == s.delivered
  {
    assert Sizes(s);
    hide Inv;
  }

  lemma SendDelivers(s: State, p: nat, va: nat)
    requires Inv(s) && SendEnabled(s, p, va)
    ensures var e, s' := Sends(p, va), Send(s, p, va); s'.delivered == s.delivered || exists t :: Delivers(s, s', e, t)
  {
    assert Sizes(s);
    hide Inv, Reaches;
    var s1, s' := Stamped(s, p, va), Send(s, p, va);
    if Receptive(s1.procs[s1.procs[p].mem[va].receiver], p) { assert Delivers(s, s', Sends(p, va), |s.sent|); }
  }

  lemma RecvDelivers(s: State, p: nat, va: nat, from: nat)
    requires Inv(s) && RecvEnabled(s, p, va, from)
    ensures var e, s' := Receives(p, va, from), Recv(s, p, va, from);
      s'.delivered == s.delivered || exists t :: Delivers(s, s', e, t)
  {
    var e, f, s' := Receives(p, va, from), s.procs[p].flags, Recv(s, p, va, from);
    AddressedInv(s, p, va);
    var s1 := Addressed(s, p, va);
    assert s1.delivered == s.delivered && |s1.procs| == |s.procs|;
    hide Inv;
    if from != 0 && !TakesInterrupt(f, from) && !TakesException(f, from) && from != PROC_INTERRUPT {
      if from == PROC_ANY && s1.queues[p] != [] {
        AcceptDelivers(s, s1, p, va, from, 0);
        assert s' == Accept(s1, p, va, 0);
      } else if from != PROC_ANY && Blocked(s1.procs[from]) == To(p) {
        IndexOfBlocked(s1, p, from);
        AcceptDelivers(s, s1, p, va, from, IndexOf(s1.queues[p], from));
        assert s' == Accept(s1, p, va, IndexOf(s1.queues[p], from));
      }
    }
  }

  lemma AcceptDelivers(s0: State, s: State, p: nat, va: nat, from: nat, i: nat)
    requires Inv(s) && p < |s.procs| && Runnable(s.procs[p]) && va in s.procs[p].mem && i < |s.queues[p]|
    requires s0.delivered == s.delivered && |s0.procs| == |s.procs|
    ensures s.queues[p][i] < |s.procs| && HasMsg(s.procs[s.queues[p][i]])
    ensures Delivers(s0, Accept(s, p, va, i), Receives(p, va, from), s.ticket[s.queues[p][i]])
  {
    AcceptInv(s, p, va, i);
    var q := s.queues[p][i];
    assert QueueOk(s, p) && q in s.queues[p] && TicketOk(s, q);
  }

  lemma HeadOldest(s: State, p: nat, x: nat)
    requires Inv(s) && p < |s.procs| && x < |s.procs| && Blocked(s.procs[x]) == To(p)
    ensures s.queues[p] != []
    ensures var q := s.queues[p][0]; q < |s.procs| && Blocked(s.procs[q]) == To(p) && s.ticket[q] <= s.ticket[x]
  {
    assert QueueOk(s, p) && InOrder(s, p);
    assert x in s.queues[p];
    var j :| 0 <= j < |s.queues[p]| && s.queues[p][j] == x;
    assert s.queues[p][0] in s.queues[p];
  }

  /** Receiving from anyone, with no interrupt or exception announced, takes the message sent
      first of all that wait for the receiver; if none waits, the receiver does. */
  lemma OldestFirst(s: State, p: nat, va: nat) returns (q: nat)
    requires Inv(s) && RecvEnabled(s, p, va, PROC_ANY) && !s.procs[p].flags.gotInt && !s.procs[p].flags.gotExc
    ensures |Recv(s, p, va, PROC_ANY).procs| == |s.procs|
    ensures (exists x: nat :: x < |s.procs| && Blocked(s.procs[x]) == To(p)) ==>
      var s' := Recv(s, p, va, PROC_ANY);
      && q < |s.procs| && Blocked(s.procs[q]) == To(p) && s'.delivered == s.delivered + [s.ticket[q]]
      && va in s'.procs[p].mem && s'.procs[p].mem[va] == Msg(s.procs[q]) && !s'.procs[q].sending
      && forall x: nat :: x < |s.procs| && Blocked(s.procs[x]) == To(p) ==> s.ticket[q] <= s.ticket[x]
    ensures (forall x: nat :: x < |s.procs| ==> Blocked(s.procs[x]) != To(p)) ==>
      var s' := Recv(s, p, va, PROC_ANY);
      s'.delivered == s.delivered && s'.procs[p].receiving
  {
    var s1 := Addressed(s, p, va);
    AddressedInv(s, p, va);
    assert QueueOk(s, p) && forall x: nat :: x < |s.procs| ==> Blocked(s1.procs[x]) == Blocked(s.procs[x]);
    assert Recv(s, p, va, PROC_ANY) == Meet(s1, p, va, PROC_ANY);
    q := 0;
    if s.queues[p] != [] {
      q := s.queues[p][0];
      assert q in s.queues[p];
    }
    hide Inv;
    forall x: nat | x < |s.procs| && Blocked(s.procs[x]) == To(p)
      ensures s.queues[p] != [] && s.ticket[q] <= s.ticket[x]
    {
      HeadOldest(s, p, x);
    }
  }

  /** The deadlock test is exact: blocking on `r` keeps the waiting graph free of circles
      exactly when the chain from `r` does not lead back to the sender. */
  lemma DeadlockTestExact(s: State, p: nat, va: nat)
    requires Inv(s) && p < |s.procs| && Runnable(s.procs[p]) && va in s.procs[p].mem
    requires var r := s.procs[p].mem[va].receiver; r < |s.procs| && r != p && !Receptive(Stamped(s, p, va).procs[r], p)
    ensures Acyclic(GraphOf(Send(s, p, va).procs)) <==> !Reaches(GraphOf(s.procs), s.procs[p].mem[va].receiver, p)
  {
    var r := s.procs[p].mem[va].receiver;
    NewEdge(GraphOf(s.procs), p, r);
    assert GraphOf(Send(s, p, va).procs) == GraphOf(s.procs)[p := To(r)];
  }
}
