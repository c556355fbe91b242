/** What each call and each interrupt does, field by field: the status words, the messages, the
    queues and the pending tables, with the numbers of the source. */
module IpcEffects {
  import opened Common
  import opened IpcGraph
  import opened IpcSpec
  import opened IpcRuns
  import Scheduler

  function Bit(b: bool, mask: bv32): bv32 {
    if b then mask else 0
  }

  /** The status word of a process. */
  function Status(p: Proc): bv32 {
    Bit(p.flags.running, 0x001) | Bit(p.flags.gotInt, 0x004) | Bit(p.flags.gotExc, 0x008)
    | Bit(p.flags.stop, 0x010) | Bit(p.flags.error, 0x020) | Bit(p.sending, 0x040) | Bit(p.receiving, 0x080)
    | Bit(p.flags.waiting, 0x100) | Bit(p.flags.hanging, 0x200)
  }

  /** Who may make a call is who the scheduler may pick. */
  lemma RunnableIs(p: Proc)
    ensures Runnable(p) <==> Status(p) & 0xF0 == 0
    ensures Runnable(p) <==> Scheduler.CanRun(Status(p))
  {
  }

  /** Is the bit of value `m` set in the status word? */
  predicate HasBit(p: Proc, m: nat) {
    || (m == 0x001 && p.flags.running) || (m == 0x004 && p.flags.gotInt) || (m == 0x008 && p.flags.gotExc)
    || (m == 0x010 && p.flags.stop) || (m == 0x020 && p.flags.error)
    || (m == 0x040 && p.sending) || (m == 0x080 && p.receiving)
    || (m == 0x100 && p.flags.waiting) || (m == 0x200 && p.flags.hanging)
  }

  /** From `p` to `q` the bits `on` have been set and the bits `off` cleared, and no other changed. */
  ghost predicate Changed(p: Proc, q: Proc, on: set<nat>, off: set<nat>) {
    forall m :: HasBit(q, m) <==> m in on || (HasBit(p, m) && m !in off)
  }

  /** Nothing but the processes `p` and `q`, the queues and the log may differ. */
  ghost predicate Others(s: State, s': State, p: nat, q: nat) {
    && |s'.procs| == |s.procs| && s'.irqSubs == s.irqSubs && s'.excSubs == s.excSubs
    && forall x :: 0 <= x < |s.procs| && x != p && x != q ==> s'.procs[x] == s.procs[x]
  }

  ghost predicate SameLog(s: State, s': State) {
    s'.queues == s.queues && s'.sent == s.sent && s'.delivered == s.delivered && s'.ticket == s.ticket
  }

  // ---------- send ----------

  /** `r` waits in a receive that takes a message from `p`. */
  predicate OpenTo(r: Proc, p: nat) {
    r.receiving && HasMsg(r) && Msg(r).ready && (Msg(r).sender == 0xFFFF_FFFE || Msg(r).sender == p)
  }

  /** A receiver that waits for the message gets it and goes on, and so does the sender. */
  lemma SendReaches(s: State, p: nat, va: nat)
    requires Inv(s) && SendEnabled(s, p, va) && OpenTo(s.procs[s.procs[p].mem[va].receiver], p)
    ensures var s', m := Send(s, p, va), s.procs[p].mem[va].(sender := p);
      var r := m.receiver; var was := s.procs[r];
      && Others(s, s', p, r) && s'.irqs == s.irqs && s'.excs == s.excs
      && Changed(was, s'.procs[r], {0x001}, {0x080})
      && s'.procs[r].mem == was.mem[was.pMsg.value := m.(ready := false)] && s'.procs[r].pMsg == was.pMsg
      && (Runnable(s'.procs[r]) <==> !was.flags.stop && !was.flags.error)
      && Changed(s.procs[p], s'.procs[p], {}, {}) && Runnable(s'.procs[p])
      && s'.procs[p].mem == s.procs[p].mem[va := m]
      && s'.sent == s.sent + [Envelope(p, r, m)] && s'.delivered == s.delivered + [|s.sent|]
      && s'.queues == s.queues && s'.ticket == s.ticket
  {
    var r := s.procs[p].mem[va].receiver;
    assert ProcOk(s, r);
    hide Inv;
  }

  /** Otherwise the sender waits with its message, last in the receiver's queue, and the receiver
      is as it was. */
  lemma SendWaits(s: State, p: nat, va: nat)
    requires Inv(s) && SendEnabled(s, p, va) && !OpenTo(s.procs[s.procs[p].mem[va].receiver], p)
    ensures var s', m := Send(s, p, va), s.procs[p].mem[va].(sender := p);
      var r := m.receiver;
      && Others(s, s', p, p) && s'.irqs == s.irqs && s'.excs == s.excs
      && Changed(s.procs[p], s'.procs[p], {0x040}, {}) && s'.procs[p].pMsg == Some(va)
      && s'.procs[p].mem == s.procs[p].mem[va := m] && !Runnable(s'.procs[p])
      && s'.sent == s.sent + [Envelope(p, r, m)] && s'.delivered == s.delivered
      && s'.queues == s.queues[r := s.queues[r] + [p]] && s'.ticket == s.ticket[p := |s.sent|]
  {
  }

  // ---------- receive ----------

  /** Receiving from 0 names the receiver in the message and does nothing else. */
  lemma RecvNothing(s: State, p: nat, va: nat)
    requires Inv(s) && RecvEnabled(s, p, va, 0)
    ensures var s' := Recv(s, p, va, 0);
      && s' == s.(procs := s'.procs) && Others(s, s', p, p) && s'.procs[p] == s.procs[p].(mem := s'.procs[p].mem)
      && s'.procs[p].mem == s.procs[p].mem[va := s.procs[p].mem[va].(receiver := p)]
  {
    hide Inv;
  }

  /** The receive asks for what an announced interrupt or exception answers too. */
  predicate AsksForAny(from: nat) {
    from == 0xFFFF_FFFF || from == 0xFFFF_FFFE
  }

  /** An announced interrupt comes first: the least one pending, 0 not counted. */
  lemma RecvInterrupt(s: State, p: nat, va: nat, from: nat) returns (i: nat)
    requires Inv(s) && RecvEnabled(s, p, va, from) && AsksForAny(from) && s.procs[p].flags.gotInt
    ensures 0 < i < |s.irqs| == 16 && s.irqs[i] && forall j :: 0 < j < i ==> !s.irqs[j]
    ensures var s', m := Recv(s, p, va, from), s.procs[p].mem[va];
      && Others(s, s', p, p) && SameLog(s, s') && s'.excs == s.excs && s'.irqs == s.irqs[i := false]
      && s'.procs[p].mem
         == s.procs[p].mem[va := m.(receiver := p, sender := 0xFFFF_FFFF, kind := 0x7FFF_FFFF, major := i)]
      && s'.procs[p].pMsg == s.procs[p].pMsg
      && Changed(s.procs[p], s'.procs[p], {}, if exists j :: i < j < 16 && s.irqs[j] then {} else {0x004})
  {
    assert Sizes(s);
    hide Inv;
    i := LeastPending(s.irqs);
    FirstPendingIs(s.irqs, 1, i);
    MoreAfter(s.irqs, i);
  }

  lemma LeastPending(a: seq<bool>) returns (i: nat)
    requires AnyPending(a)
    ensures 0 < i < |a| && a[i] && forall j :: 0 < j < i ==> !a[j]
  {
    i := 1;
    while !a[i]
      invariant 0 < i < |a| && forall j :: 0 < j < i ==> !a[j]
      invariant exists j :: i <= j < |a| && a[j]
      decreases |a| - i
    {
      i := i + 1;
    }
  }

  lemma MoreAfter(a: seq<bool>, i: nat)
    requires 0 < i < |a| && forall j :: 0 < j < i ==> !a[j]
    ensures AnyPending(a[i := false]) <==> exists j :: i < j < |a| && a[j]
  {
    var left := a[i := false];
    if j :| i < j < |a| && a[j] { assert left[j]; }
  }

  lemma TakeExceptionIs(s: State, p: nat, va: nat, from: nat, i: nat)
    requires Inv(s) && RecvEnabled(s, p, va, from) && AsksForAny(from)
    requires !s.procs[p].flags.gotInt && s.procs[p].flags.gotExc
    requires 0 < i < |s.excs| && s.excs[i].Some? && forall j :: 0 < j < i ==> s.excs[j].None?
    ensures var q := s.procs[p];
      var m := q.mem[va].(receiver := p, sender := 0xFFFF_FFFF, kind := 0x7EEE_EEEE, major := i, d1 := s.excs[i].value);
      Recv(s, p, va, from)
      == s.(procs := s.procs[p := q.(mem := q.mem[va := m],
                                     flags := q.flags.(gotExc := AnyPending(Marks(s.excs[i := None]))))],
            excs := s.excs[i := None])
  {
    var a := Marks(s.excs);
    assert a[i] && forall j :: 0 < j < i ==> !a[j];
    hide Inv;
    FirstPendingIs(a, 1, i);
    hide Marks;
    var s1 := Addressed(s, p, va);
    assert Recv(s, p, va, from) == TakeException(s1, p, va);
    hide Recv;
    assert s1.excs == s.excs && s1.procs[p].mem[va] == s.procs[p].mem[va].(receiver := p);
    var m := s.procs[p].mem[va].(receiver := p, sender := 0xFFFF_FFFF, kind := 0x7EEE_EEEE, major := i,
                                 d1 := s.excs[i].value);
    assert s1.procs[p].mem[va := m] == s.procs[p].mem[va := m];
  }

  lemma LeastExc(s: State, p: nat) returns (i: nat)
    requires Sizes(s) && p < |s.procs| && AnyPending(Marks(s.excs))
    ensures 0 < i < |s.excs| == 32 && s.excs[i].Some? && forall j :: 0 < j < i ==> s.excs[j].None?
    ensures AnyPending(Marks(s.excs[i := None])) <==> exists j :: i < j < 32 && s.excs[j].Some?
  {
    var a := Marks(s.excs);
    i := LeastPending(a);
    assert forall j :: 0 < j < |a| ==> (a[j] <==> s.excs[j].Some?);
    MoreAfter(a, i);
    assert Marks(s.excs[i := None]) == a[i := false];
  }

  /** An announced exception comes next, with its data. */
  lemma RecvException(s: State, p: nat, va: nat, from: nat) returns (i: nat)
    requires Inv(s) && RecvEnabled(s, p, va, from) && AsksForAny(from)
    requires !s.procs[p].flags.gotInt && s.procs[p].flags.gotExc
    ensures 0 < i < |s.excs| == 32 && s.excs[i].Some? && forall j :: 0 < j < i ==> s.excs[j].None?
    ensures var s', m := Recv(s, p, va, from), s.procs[p].mem[va];
      && Others(s, s', p, p) && SameLog(s, s') && s'.irqs == s.irqs && s'.excs == s.excs[i := None]
      && s'.procs[p].mem
         == s.procs[p].mem[va := m.(receiver := p, sender := 0xFFFF_FFFF, kind := 0x7EEE_EEEE, major := i,
                                    d1 := s.excs[i].value)]
      && s'.procs[p].pMsg == s.procs[p].pMsg
      && Changed(s.procs[p], s'.procs[p], {}, if exists j :: i < j < 32 && s.excs[j].Some? then {} else {0x008})
  {
    assert Sizes(s);
    i := LeastExc(s, p);
    TakeExceptionIs(s, p, va, from, i);
    hide Inv, Recv, Marks, AnyPending, RecvEnabled;
  }

  /** No interrupt or exception answers the receive. */
  predicate Unannounced(p: Proc, from: nat) {
    AsksForAny(from) ==> !p.flags.gotInt && !p.flags.gotExc
  }

  predicate SendsTo(q: Proc, p: nat) {
    q.sending && HasMsg(q) && Msg(q).receiver == p
  }

  lemma AcceptIs(s: State, p: nat, va: nat, from: nat, q: nat) returns (i: nat)
    requires Inv(s) && RecvEnabled(s, p, va, from) && from != 0 && Unannounced(s.procs[p], from)
    requires q < |s.procs|
    requires from == 0xFFFF_FFFE ==> s.queues[p] != [] && q == s.queues[p][0]
    requires from != 0xFFFF_FFFE ==> from == q && SendsTo(s.procs[q], p)
    ensures var s1 := Addressed(s, p, va);
      && |s.queues| == |s.ticket| == |s.procs| && q != p && SendsTo(s.procs[q], p) && i < |s.queues[p]|
      && s.queues[p][i] == q && HasMsg(s1.procs[q]) && Recv(s, p, va, from) == Accept(s1, p, va, i)
  {
    assert QueueOk(s, p) && Sizes(s);
    assert s.queues[p] != [] ==> s.queues[p][0] in s.queues[p];
    assert Blocked(s.procs[q]) == To(p);
    assert ProcOk(s, q);
    AddressedInv(s, p, va);
    hide Inv;
    i := if from == 0xFFFF_FFFE then 0 else IndexOf(s.queues[p], q);
  }

  /** A waiting message of the process asked for, or the first in the queue if any will do, is
      copied as it is, and both go on. */
  lemma RecvTakes(s: State, p: nat, va: nat, from: nat, q: nat)
    requires Inv(s) && RecvEnabled(s, p, va, from) && from != 0 && Unannounced(s.procs[p], from)
    requires q < |s.procs|
    requires from == 0xFFFF_FFFE ==> s.queues[p] != [] && q == s.queues[p][0]
    requires from != 0xFFFF_FFFE ==> from == q && SendsTo(s.procs[q], p)
    ensures |s.queues| == |s.ticket| == |s.procs| && q != p && SendsTo(s.procs[q], p)
    ensures var s' := Recv(s, p, va, from);
      && Others(s, s', p, q) && s'.irqs == s.irqs && s'.excs == s.excs
      && s'.procs[p].mem == s.procs[p].mem[va := Msg(s.procs[q])] && Changed(s.procs[p], s'.procs[p], {}, {})
      && s'.procs[p].pMsg == s.procs[p].pMsg
      && Changed(s.procs[q], s'.procs[q], {0x001}, {0x040}) && s'.procs[q].pMsg == None
      && s'.procs[q].mem == s.procs[q].mem
      && s'.sent == s.sent && s'.delivered == s.delivered + [s.ticket[q]] && s'.ticket == s.ticket
      && |s'.queues| == |s.queues| && (forall x :: 0 <= x < |s.queues| && x != p ==> s'.queues[x] == s.queues[x])
      && exists i :: 0 <= i < |s.queues[p]| && s.queues[p][i] == q
                     && s'.queues[p] == s.queues[p][..i] + s.queues[p][i + 1..]
  {
    var i := AcceptIs(s, p, va, from, q);
    hide Recv, Inv, QueueOk;
    assert s.queues[p][i] == q;
  }

  /** Without one the receiver waits: for a sender, or, if it asks for interrupts only, for those. */
  lemma RecvWaits(s: State, p: nat, va: nat, from: nat)
    requires Inv(s) && RecvEnabled(s, p, va, from) && from != 0 && Unannounced(s.procs[p], from)
    requires from == 0xFFFF_FFFF || (from == 0xFFFF_FFFE && s.queues[p] == [])
             || (from < |s.procs| && !SendsTo(s.procs[from], p))
    ensures var s', m := Recv(s, p, va, from), s.procs[p].mem[va];
      && Others(s, s', p, p) && SameLog(s, s') && s'.irqs == s.irqs && s'.excs == s.excs
      && Changed(s.procs[p], s'.procs[p], {0x080}, {0x001}) && s'.procs[p].pMsg == Some(va)
      && s'.procs[p].mem == s.procs[p].mem[va := m.(receiver := p, ready := true, sender := from)]
      && !Runnable(s'.procs[p])
  {
    assert Sizes(s) && QueueOk(s, p);
    hide Inv;
    assert Recv(s, p, va, from) == Await(Addressed(s, p, va), p, va, from);
    hide Recv, QueueOk;
  }

  // ---------- interrupts and exceptions ----------

  /** `p` waits in a receive that takes interrupts. */
  predicate OpenToInterrupts(p: Proc) {
    p.receiving && HasMsg(p) && (Msg(p).sender == 0xFFFF_FFFE || Msg(p).sender == 0xFFFF_FFFF)
  }

  /** An interrupt without a subscriber changes nothing here. */
  lemma InterruptUnheard(s: State, irq: nat)
    requires Inv(s) && irq < 16 && s.irqSubs[irq] == 0
    ensures Interrupt(s, irq) == s
  {
  }

  /** A subscriber that waits for it is told which interrupt it is, and goes on. */
  lemma InterruptTold(s: State, irq: nat, p: nat)
    requires Inv(s) && irq < 16 && s.irqSubs[irq] == p && p != 0 && p < |s.procs| && OpenToInterrupts(s.procs[p])
    ensures var s', was := Interrupt(s, irq), s.procs[p];
      && Others(s, s', p, p) && SameLog(s, s') && s'.irqs == s.irqs && s'.excs == s.excs
      && Changed(was, s'.procs[p], {}, {0x080}) && s'.procs[p].pMsg == was.pMsg
      && s'.procs[p].mem
         == was.mem[was.pMsg.value := Msg(was).(sender := 0xFFFF_FFFF, kind := 0x7FFF_FFFF, major := irq)]
  {
    assert Sizes(s);
    hide Inv;
  }

  /** To any other subscriber it is announced, and it is pending. */
  lemma InterruptMarked(s: State, irq: nat, p: nat)
    requires Inv(s) && irq < 16 && s.irqSubs[irq] == p && p != 0 && p < |s.procs| && !OpenToInterrupts(s.procs[p])
    ensures var s', was := Interrupt(s, irq), s.procs[p];
      && Others(s, s', p, p) && SameLog(s, s') && s'.irqs == s.irqs[irq := true] && s'.excs == s.excs
      && Changed(was, s'.procs[p], {0x004}, {}) && s'.procs[p].pMsg == was.pMsg && s'.procs[p].mem == was.mem
  {
    assert Sizes(s);
    hide Inv;
  }

  /** A subscriber that waits for it is told which exception it is and its data, and goes on. */
  lemma ExceptionTold(s: State, exc: nat, data: nat, p: nat)
    requires Inv(s) && exc < 32 && s.excSubs[exc] == p && p < |s.procs| && OpenToInterrupts(s.procs[p])
    ensures var s', was := ExceptionMsg(s, exc, data), s.procs[p];
      && Others(s, s', p, p) && SameLog(s, s') && s'.irqs == s.irqs && s'.excs == s.excs
      && Changed(was, s'.procs[p], {}, {0x080}) && s'.procs[p].pMsg == was.pMsg
      && s'.procs[p].mem
         == was.mem[was.pMsg.value := Msg(was).(sender := 0xFFFF_FFFF, kind := 0x7EEE_EEEE, major := exc, d1 := data)]
  {
    assert Sizes(s);
    hide Inv;
  }

  /** To any other subscriber it is announced, and it is pending with its data. */
  lemma ExceptionMarked(s: State, exc: nat, data: nat, p: nat)
    requires Inv(s) && exc < 32 && s.excSubs[exc] == p && p < |s.procs| && !OpenToInterrupts(s.procs[p])
    ensures var s', was := ExceptionMsg(s, exc, data), s.procs[p];
      && Others(s, s', p, p) && SameLog(s, s') && s'.irqs == s.irqs && s'.excs == s.excs[exc := Some(data)]
      && Changed(was, s'.procs[p], {0x008}, {}) && s'.procs[p].pMsg == was.pMsg && s'.procs[p].mem == was.mem
  {
    assert Sizes(s);
    hide Inv;
  }

  /** A fault leaves the faulting process nothing of its status but the ERROR bit, and its
      subscriber, if it is not the process itself, is told as of any exception. */
  lemma FaultTells(s: State, cur: nat, exc: nat, data: nat)
    requires Inv(s) && cur < |s.procs| && Runnable(s.procs[cur]) && exc < 32 && s.excSubs[exc] != 0
    ensures var s', p := Fault(s, cur, exc, data), s.excSubs[exc];
      && p < |s.procs| && Others(s, s', p, cur) && SameLog(s, s') && s'.irqs == s.irqs
      && s'.procs[cur].mem == s.procs[cur].mem && s'.procs[cur].pMsg == s.procs[cur].pMsg
      && (p != cur ==>
           && (forall m :: HasBit(s'.procs[cur], m) <==> HasBit(s.procs[cur], m) && m == 0x020)
           && s'.procs[p] == ExceptionMsg(s, exc, data).procs[p] && s'.excs == ExceptionMsg(s, exc, data).excs)
      && (p == cur ==>
           && (forall m :: HasBit(s'.procs[cur], m) <==> m == 0x008 || (HasBit(s.procs[cur], m) && m == 0x020))
           && s'.excs == s.excs[exc := Some(data)])
  {
    assert Sizes(s);
    hide Inv;
  }
}
