/** Rendezvous message passing as a state machine: who is blocked on whom, which
    messages wait, which interrupts are pending. Each receiver's queue is a
    sequence here; the linked form is in module Ipc. */
module IpcSpec {
  import opened Common
  import opened IpcGraph

  const PROC_ANY: nat := 0xFFFF_FFFE
  const PROC_INTERRUPT: nat := 0xFFFF_FFFF
  const MSG_INTERRUPT: nat := 0x7FFF_FFFF
  const MSG_EXCEPTION: nat := 0x7EEE_EEEE
  const HW_IRQ_COUNT: nat := 16
  const EXCEPTION_COUNT: nat := 32

  datatype Message = Message(sender: nat, receiver: nat, ready: bool, kind: nat, major: nat, d1: nat, d2: nat, d3: nat,
                             d4: nat)

  /** The status bits other than SENDING and RECEIVING; NORMAL and SUSPEND are 0 and have no bit. */
  datatype Flags = Flags(running: bool, gotInt: bool, gotExc: bool, stop: bool, error: bool, waiting: bool,
                         hanging: bool)

  /** A process: its status, the address of the message it waits with (NULL is None),
      and the messages in its memory by address. */
  datatype Proc = Proc(flags: Flags, sending: bool, receiving: bool, pMsg: Option<nat>, mem: map<nat, Message>)

  datatype Envelope = Envelope(from: nat, to: nat, msg: Message)

  /** `irqs` and `excs` are the pending tables. `sent` logs every send; `delivered` the log
      positions of messages handed over; `ticket` the log position a sender waits with.
      `irqSubs` and `excSubs` name the subscriber of each interrupt and exception, 0 for none. */
  datatype State = State(
    procs: seq<Proc>, queues: seq<seq<nat>>, irqs: seq<bool>, excs: seq<Option<nat>>,
    sent: seq<Envelope>, delivered: seq<nat>, ticket: seq<nat>,
    irqSubs: seq<nat>, excSubs: seq<nat>)

  /** What the scheduler may pick. WAITING and HANGING lie outside the bits it looks at. */
  predicate Runnable(p: Proc) {
    !p.sending && !p.receiving && !p.flags.stop && !p.flags.error
  }

  /** The message a blocked process waits with is in its memory. */
  predicate HasMsg(p: Proc) {
    p.pMsg.Some? && p.pMsg.value in p.mem
  }

  function Msg(p: Proc): Message
    requires HasMsg(p)
  {
    p.mem[p.pMsg.value]
  }

  function WithMsg(p: Proc, m: Message): Proc
    requires HasMsg(p)
  {
    p.(mem := p.mem[p.pMsg.value := m])
  }

  function Blocked(p: Proc): Edge {
    if p.sending && HasMsg(p) then To(Msg(p).receiver) else Nobody
  }

  function GraphOf(ps: seq<Proc>): Graph {
    seq(|ps|, x requires 0 <= x < |ps| => Blocked(ps[x]))
  }

  /** `r` waits for a message that may come from `p`. */
  predicate Receptive(r: Proc, p: nat) {
    r.receiving && HasMsg(r) && Msg(r).ready && (Msg(r).sender == PROC_ANY || Msg(r).sender == p)
  }

  predicate WaitsForInterrupt(r: Proc) {
    r.receiving && HasMsg(r) && (Msg(r).sender == PROC_ANY || Msg(r).sender == PROC_INTERRUPT)
  }

  // ---------- send ----------

  ghost predicate SendEnabled(s: State, p: nat, va: nat) {
    && p < |s.procs| && Runnable(s.procs[p]) && va in s.procs[p].mem
    && var r := s.procs[p].mem[va].receiver;
       r < |s.procs| && r != p && !Reaches(GraphOf(s.procs), r, p)
  }

  /** `msg->sender = sender->pid`, before anything else. */
  function Stamped(s: State, p: nat, va: nat): State
    requires p < |s.procs| && va in s.procs[p].mem
  {
    var q := s.procs[p];
    s.(procs := s.procs[p := q.(mem := q.mem[va := q.mem[va].(sender := p)])])
  }

  function Send(s0: State, p: nat, va: nat): State
    requires p < |s0.procs| && va in s0.procs[p].mem && s0.procs[p].mem[va].receiver < |s0.procs|
    requires |s0.queues| == |s0.ticket| == |s0.procs|
  {
    var s := Stamped(s0, p, va);
    var m := s.procs[p].mem[va];
    var r := m.receiver;
    var log := s.sent + [Envelope(p, r, m)];
    if Receptive(s.procs[r], p) then
      s.(procs := s.procs[r := Woken(s.procs[r], m)], sent := log, delivered := s.delivered + [|s.sent|])
    else
      s.(procs := s.procs[p := s.procs[p].(pMsg := Some(va), sending := true)],
         queues := s.queues[r := s.queues[r] + [p]],
         sent := log, ticket := s.ticket[p := |s.sent|])
  }

  /** The receiver with the message copied in and the ready mark cleared. */
  function Woken(r: Proc, m: Message): Proc
    requires HasMsg(r)
  {
    WithMsg(r, m.(ready := false)).(receiving := false, flags := r.flags.(running := true))
  }

  // ---------- receive ----------

  /** The first pending entry from `i` on; entry 0 never counts. */
  function FirstPending(a: seq<bool>, i: nat): (r: nat)
    requires 0 < i <= |a|
    ensures (exists j :: i <= j < |a| && a[j]) ==> i <= r < |a| && a[r]
    decreases |a| - i
  {
    if i == |a| then 0 else if a[i] then i else FirstPending(a, i + 1)
  }

  lemma {:induction false} FirstPendingIs(a: seq<bool>, i: nat, k: nat)
    requires 0 < i <= k < |a| && a[k] && forall j :: i <= j < k ==> !a[j]
    ensures FirstPending(a, i) == k
    decreases k - i
  {
    if i < k { FirstPendingIs(a, i + 1, k); }
  }

  predicate AnyPending(a: seq<bool>) {
    exists i :: 0 < i < |a| && a[i]
  }

  function Marks(e: seq<Option<nat>>): seq<bool> {
    seq(|e|, i requires 0 <= i < |e| => e[i].Some?)
  }

  predicate TakesInterrupt(f: Flags, from: nat) {
    f.gotInt && (from == PROC_INTERRUPT || from == PROC_ANY)
  }

  predicate TakesException(f: Flags, from: nat) {
    !TakesInterrupt(f, from) && f.gotExc && (from == PROC_INTERRUPT || from == PROC_ANY)
  }

  function TakeInterrupt(s: State, p: nat, va: nat): State
    requires p < |s.procs| && va in s.procs[p].mem && |s.irqs| > 0 && AnyPending(s.irqs)
  {
    var irq := FirstPending(s.irqs, 1);
    var q := s.procs[p];
    var m := q.mem[va].(kind := MSG_INTERRUPT, major := irq, sender := PROC_INTERRUPT);
    var left := s.irqs[irq := false];
    s.(procs := s.procs[p := q.(mem := q.mem[va := m], flags := q.flags.(gotInt := AnyPending(left)))], irqs := left)
  }

  function TakeException(s: State, p: nat, va: nat): State
    requires p < |s.procs| && va in s.procs[p].mem && |s.excs| > 0 && AnyPending(Marks(s.excs))
  {
    var exc := FirstPending(Marks(s.excs), 1);
    var q := s.procs[p];
    var m := q.mem[va].(kind := MSG_EXCEPTION, major := exc, d1 := s.excs[exc].value, sender := PROC_INTERRUPT);
    var left := s.excs[exc := None];
    s.(procs := s.procs[p := q.(mem := q.mem[va := m], flags := q.flags.(gotExc := AnyPending(Marks(left))))],
       excs := left)
  }

  /** Blocks `p` until a message from `from` comes. */
  function Await(s: State, p: nat, va: nat, from: nat): State
    requires p < |s.procs| && va in s.procs[p].mem
  {
    var q := s.procs[p];
    var m := q.mem[va].(ready := true, sender := from);
    s.(procs := s.procs[p := q.(mem := q.mem[va := m], pMsg := Some(va), receiving := true,
                                flags := q.flags.(running := false))])
  }

  /** Hands the waiting message of `q`, position `i` of `p`'s queue, to `p`. */
  function Accept(s: State, p: nat, va: nat, i: nat): State
    requires p < |s.procs| == |s.queues| == |s.ticket| && i < |s.queues[p]|
    requires var q := s.queues[p][i]; q < |s.procs| && HasMsg(s.procs[q])
  {
    var q := s.queues[p][i];
    var ps := s.procs[p := s.procs[p].(mem := s.procs[p].mem[va := Msg(s.procs[q])])];
    s.(procs := ps[q := Released(ps[q])],
       queues := s.queues[p := s.queues[p][..i] + s.queues[p][i + 1..]],
       delivered := s.delivered + [s.ticket[q]])
  }

  function Released(q: Proc): Proc {
    q.(pMsg := None, sending := false, flags := q.flags.(running := true))
  }

  function IndexOf(a: seq<nat>, x: nat): (i: nat)
    ensures x in a ==> i < |a| && a[i] == x
  {
    if a == [] || a[0] == x then 0 else 1 + IndexOf(a[1..], x)
  }

  /** An interrupt or exception is announced and the scan, which takes entry 0 for nothing,
      finds none. */
  predicate Panics(s: State, p: nat, from: nat)
    requires p < |s.procs|
  {
    var f := s.procs[p].flags;
    || (TakesInterrupt(f, from) && !AnyPending(s.irqs))
    || (TakesException(f, from) && !AnyPending(Marks(s.excs)))
  }

  /** What a receiving process may name: any process but itself, any at all, or interrupts;
      and the kernel does not panic. */
  predicate RecvEnabled(s: State, p: nat, va: nat, from: nat) {
    && p < |s.procs| && Runnable(s.procs[p]) && va in s.procs[p].mem
    && from != p && (from < |s.procs| || from == PROC_ANY || from == PROC_INTERRUPT) && !Panics(s, p, from)
  }

  /** `msg->receiver = receiver->pid`, before anything else. */
  function Addressed(s: State, p: nat, va: nat): State
    requires p < |s.procs| && va in s.procs[p].mem
  {
    var q := s.procs[p];
    s.(procs := s.procs[p := q.(mem := q.mem[va := q.mem[va].(receiver := p)])])
  }

  /** Takes a waiting message of the sender asked for, the oldest if any will do, else blocks. */
  function Meet(s: State, p: nat, va: nat, from: nat): State
    requires p < |s.procs| == |s.queues| == |s.ticket| && va in s.procs[p].mem && QueueOk(s, p)
    requires from < |s.procs| || from == PROC_ANY || from == PROC_INTERRUPT
  {
    if from == PROC_INTERRUPT then Await(s, p, va, from)
    else if from == PROC_ANY then
      if s.queues[p] != [] then assert s.queues[p][0] in s.queues[p]; Accept(s, p, va, 0)
      else Await(s, p, va, from)
    else if Blocked(s.procs[from]) == To(p) then Accept(s, p, va, IndexOf(s.queues[p], from))
    else Await(s, p, va, from)
  }

  function Recv(s0: State, p: nat, va: nat, from: nat): State
    requires Inv(s0) && RecvEnabled(s0, p, va, from)
  {
    var f := s0.procs[p].flags;
    var s := Addressed(s0, p, va);
    assert QueueOk(s0, p);
    assert forall x :: 0 <= x < |s.procs| ==> Blocked(s.procs[x]) == Blocked(s0.procs[x]);
    if from == 0 then s
    else if TakesInterrupt(f, from) then TakeInterrupt(s, p, va)
    else if TakesException(f, from) then TakeException(s, p, va)
    else Meet(s, p, va, from)
  }

  // ---------- interrupts and exceptions ----------

  /** What comes of interrupt `irq`; without a subscriber, nothing that is modelled here. */
  function Interrupt(s: State, irq: nat): State
    requires Sizes(s) && irq < HW_IRQ_COUNT
  {
    var p := s.irqSubs[irq];
    var q := s.procs[p];
    if p == 0 then s
    else if WaitsForInterrupt(q) then
      var m := Msg(q).(sender := PROC_INTERRUPT, kind := MSG_INTERRUPT, major := irq);
      s.(procs := s.procs[p := WithMsg(q, m).(receiving := false)])
    else
      s.(procs := s.procs[p := q.(flags := q.flags.(gotInt := true))], irqs := s.irqs[irq := true])
  }

  function ExceptionMsg(s: State, exc: nat, data: nat): State
    requires Sizes(s) && exc < EXCEPTION_COUNT
  {
    var p := s.excSubs[exc];
    var q := s.procs[p];
    if WaitsForInterrupt(q) then
      var m := Msg(q).(sender := PROC_INTERRUPT, kind := MSG_EXCEPTION, major := exc, d1 := data);
      s.(procs := s.procs[p := WithMsg(q, m).(receiving := false)])
    else
      s.(procs := s.procs[p := q.(flags := q.flags.(gotExc := true))], excs := s.excs[exc := Some(data)])
  }

  /** `status &= PROC_STATUS_ERROR`: every other bit goes. */
  function Cleared(s: State, cur: nat): State
    requires cur < |s.procs|
  {
    var c := s.procs[cur];
    s.(procs := s.procs[cur := c.(sending := false, receiving := false,
                                  flags := Flags(false, false, false, false, c.flags.error, false, false))])
  }

  /** The running process `cur` faults: its status keeps only the ERROR bit, and the subscriber is told. */
  function Fault(s: State, cur: nat, exc: nat, data: nat): State
    requires Sizes(s) && cur < |s.procs| && exc < EXCEPTION_COUNT
  {
    ExceptionMsg(Cleared(s, cur), exc, data)
  }

  // ---------- the invariant ----------

  /** Never both sending and receiving; a blocked process waits with a message in its memory. */
  predicate ProcOk(s: State, p: nat)
    requires p < |s.procs|
  {
    var q := s.procs[p];
    && !(q.sending && q.receiving)
    && (q.sending ==> HasMsg(q) && Msg(q).sender == p && Msg(q).receiver != p && Msg(q).receiver < |s.procs|)
    && (q.receiving ==> HasMsg(q) && Msg(q).ready)
  }

  /** The queue of `r` is exactly the processes sending to it, each once. */
  ghost predicate QueueOk(s: State, r: nat)
    requires r < |s.queues| == |s.procs|
  {
    && NoDup(s.queues[r])
    && forall q :: q in s.queues[r] <==> 0 <= q < |s.procs| && Blocked(s.procs[q]) == To(r)
  }

  /** No process waits to send to a process that waits for it. */
  ghost predicate NoMissedRendezvous(s: State) {
    forall p, r :: 0 <= p < |s.procs| && 0 <= r < |s.procs| && Blocked(s.procs[p]) == To(r) ==>
      !Receptive(s.procs[r], p)
  }

  /** A sender's ticket names the log entry of the very message it waits with, not yet delivered. */
  ghost predicate TicketOk(s: State, p: nat)
    requires p < |s.procs| == |s.ticket|
  {
    s.procs[p].sending ==>
      && s.ticket[p] < |s.sent| && s.ticket[p] !in s.delivered
      && HasMsg(s.procs[p]) && s.sent[s.ticket[p]] == Envelope(p, Msg(s.procs[p]).receiver, Msg(s.procs[p]))
  }

  /** Everything sent has been delivered once or waits with its sender. */
  ghost predicate LogOk(s: State)
    requires |s.ticket| == |s.procs|
  {
    && NoDup(s.delivered)
    && (forall t :: t in s.delivered ==> 0 <= t < |s.sent|)
    && forall t: nat :: t < |s.sent| ==> t in s.delivered || Waiting(s, t)
  }

  ghost predicate Waiting(s: State, t: nat)
    requires t < |s.sent| && |s.ticket| == |s.procs|
  {
    var p := s.sent[t].from;
    p < |s.procs| && s.procs[p].sending && s.ticket[p] == t
  }

  /** Queues are in send order. */
  ghost predicate InOrder(s: State, r: nat)
    requires r < |s.queues| == |s.procs| == |s.ticket|
  {
    var q := s.queues[r];
    forall i, j :: 0 <= i < j < |q| && q[i] < |s.procs| && q[j] < |s.procs| ==> s.ticket[q[i]] < s.ticket[q[j]]
  }

  ghost predicate Sizes(s: State) {
    && |s.queues| == |s.ticket| == |s.procs| <= PROC_ANY
    && |s.irqs| == |s.irqSubs| == HW_IRQ_COUNT && |s.excs| == |s.excSubs| == EXCEPTION_COUNT
    && (forall i :: 0 <= i < HW_IRQ_COUNT ==> s.irqSubs[i] < |s.procs|) && s.irqSubs[0] == 0
    && forall i :: 0 <= i < EXCEPTION_COUNT ==> s.excSubs[i] < |s.procs|
  }

  ghost predicate Inv(s: State) {
    && Sizes(s)
    && (forall p: nat :: p < |s.procs| ==> ProcOk(s, p))
    && (forall r: nat :: r < |s.procs| ==> QueueOk(s, r))
    && (forall r: nat :: r < |s.procs| ==> InOrder(s, r))
    && (forall p: nat :: p < |s.procs| ==> TicketOk(s, p))
    && LogOk(s) && NoMissedRendezvous(s) && Acyclic(GraphOf(s.procs))
  }
}
