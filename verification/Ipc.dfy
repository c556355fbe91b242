/** The process table in place: `__send_msg`, `__recv_msg` and the interrupt entry
    points over linked queues, proved against the steps of module IpcSpec.
    A process is named by its index in the table; NULL is -1. */
module Ipc {
  import opened Common
  import opened IpcGraph
  import opened IpcSpec
  import opened IpcRuns

  const NULL: int := -1

  function PidAt(q: seq<nat>, i: int): int {
    if 0 <= i < |q| then q[i] else NULL
  }

  /** From `h`, the body links visit exactly the processes of `q` in order. */
  ghost predicate Linked(body: seq<int>, h: int, q: seq<nat>) {
    && h == PidAt(q, 0)
    && forall i :: 0 <= i < |q| ==> q[i] < |body| && body[q[i]] == PidAt(q, i + 1)
  }

  /** No process is queued twice. */
  ghost predicate Apart(qs: seq<seq<nat>>) {
    forall x, y, i, j {:trigger qs[x][i], qs[y][j]} ::
      0 <= x < |qs| && 0 <= y < |qs| && 0 <= i < |qs[x]| && 0 <= j < |qs[y]| && qs[x][i] == qs[y][j] ==>
        x == y && i == j
  }

  ghost predicate AllLinkedTo(body: seq<int>, head: seq<int>, qs: seq<seq<nat>>) {
    |head| == |qs| == |body| && forall r :: 0 <= r < |qs| ==> Linked(body, head[r], qs[r])
  }

  /** The writes of an enqueue of `p` on queue `r`. */
  ghost predicate Hung(body: seq<int>, qs: seq<seq<nat>>, r: nat, p: nat, body': seq<int>)
    requires r < |qs|
  {
    var q := qs[r];
    && p < |body| && (q != [] ==> q[|q| - 1] < |body|)
    && body' == (if q == [] then body else body[q[|q| - 1] := p])[p := NULL]
  }

  ghost predicate NotQueued(qs: seq<seq<nat>>, p: nat) {
    forall x, i :: 0 <= x < |qs| && 0 <= i < |qs[x]| ==> qs[x][i] != p
  }

  /** The link of an entry that was there: only the last of queue `r` has a new one. */
  lemma HungOld(body: seq<int>, qs: seq<seq<nat>>, r: nat, p: nat, body': seq<int>, x: nat, i: nat)
    requires Apart(qs) && NotQueued(qs, p) && r < |qs| && Hung(body, qs, r, p, body')
    requires x < |qs| && i < |qs[x]| && qs[x][i] < |body|
    ensures body'[qs[x][i]] == if x == r && i == |qs[r]| - 1 then p else body[qs[x][i]]
  {
    assert qs[x][i] != p;
    hide NotQueued;
    if qs[r] != [] {
      var l := |qs[r]| - 1;
      assert qs[r][l] == qs[x][i] ==> x == r && i == l;
    }
  }

  lemma PidMore(q: seq<nat>, p: nat, i: nat)
    ensures PidAt(q + [p], 0) == if q == [] then p else PidAt(q, 0)
    ensures i < |q| ==> (q + [p])[i] == q[i] && PidAt(q + [p], i + 1) == if i == |q| - 1 then p else PidAt(q, i + 1)
    ensures (q + [p])[|q|] == p && PidAt(q + [p], |q| + 1) == NULL
  {
  }

  /** The queue that `p` joins. */
  lemma EnqueuedHere(body: seq<int>, qs: seq<seq<nat>>, r: nat, p: nat, body': seq<int>)
    requires r < |qs| && Linked(body, PidAt(qs[r], 0), qs[r])
    requires Apart(qs) && NotQueued(qs, p) && Hung(body, qs, r, p, body')
    ensures Linked(body', if qs[r] == [] then p else PidAt(qs[r], 0), qs[r] + [p])
  {
    var q := qs[r];
    assert p < |body'| == |body| && body'[p] == NULL;
    hide Apart, NotQueued, Hung, PidAt;
    PidMore(q, p, 0);
    forall i | 0 <= i < |q + [p]| ensures (q + [p])[i] < |body'| && body'[(q + [p])[i]] == PidAt(q + [p], i + 1) {
      PidMore(q, p, i);
      if i < |q| { HungOld(body, qs, r, p, body', r, i); }
    }
  }

  /** Any other. */
  lemma EnqueuedBeside(body: seq<int>, qs: seq<seq<nat>>, r: nat, p: nat, body': seq<int>, x: nat)
    requires x < |qs| && Linked(body, PidAt(qs[x], 0), qs[x])
    requires Apart(qs) && r < |qs| && r != x && NotQueued(qs, p) && Hung(body, qs, r, p, body')
    ensures Linked(body', PidAt(qs[x], 0), qs[x])
  {
    assert |body'| == |body|;
    hide Apart, NotQueued, Hung, PidAt;
    forall i | 0 <= i < |qs[x]| ensures qs[x][i] < |body'| && body'[qs[x][i]] == PidAt(qs[x], i + 1) {
      HungOld(body, qs, r, p, body', x, i);
    }
  }

  lemma Enqueued(body: seq<int>, head: seq<int>, qs: seq<seq<nat>>, r: nat, p: nat, body': seq<int>, head': seq<int>)
    requires AllLinkedTo(body, head, qs) && Apart(qs) && r < |qs| && NotQueued(qs, p) && Hung(body, qs, r, p, body')
    requires head' == if qs[r] == [] then head[r := p] else head
    ensures AllLinkedTo(body', head', qs[r := qs[r] + [p]])
  {
    var qs' := qs[r := qs[r] + [p]];
    assert |body'| == |body|;
    hide Apart, NotQueued, Hung, PidAt;
    forall x | 0 <= x < |qs| ensures Linked(body', head'[x], qs'[x]) {
      assert Linked(body, head[x], qs[x]);
      if x == r { EnqueuedHere(body, qs, r, p, body'); } else { EnqueuedBeside(body, qs, r, p, body', x); }
    }
  }

  /** Taking position `i` out of queue `r`; the removed process's own link no longer matters. */
  lemma Dequeued(body: seq<int>, head: seq<int>, qs: seq<seq<nat>>, r: nat, i: nat, body': seq<int>, head': seq<int>)
    requires AllLinkedTo(body, head, qs) && Apart(qs) && r < |qs| && Relinked(body, qs[r], i, body')
    requires head' == if i == 0 then head[r := PidAt(qs[r], 1)] else head
    ensures AllLinkedTo(body', head', qs[r := qs[r][..i] + qs[r][i + 1..]])
  {
    var qs' := qs[r := qs[r][..i] + qs[r][i + 1..]];
    forall x | 0 <= x < |qs| ensures Linked(body', head'[x], qs'[x]) {
      assert Linked(body, head[x], qs[x]);
      if x == r {
        CutLinked(body, qs, r, i, body');
      } else {
        BesideLinked(body, qs, r, i, body', x);
      }
    }
  }

  /** The head and the links of one queue. */
  lemma LinkAt(body: seq<int>, head: seq<int>, qs: seq<seq<nat>>, r: nat, i: nat)
    requires AllLinkedTo(body, head, qs) && (r < |qs| || r < |head|)
    ensures |head| == |qs| == |body| && head[r] == PidAt(qs[r], 0)
    ensures i < |qs[r]| ==> qs[r][i] < |body| && body[qs[r][i]] == PidAt(qs[r], i + 1)
  {
    assert Linked(body, head[r], qs[r]);
  }

  /** Two places in one queue hold different processes. */
  lemma ApartIn(qs: seq<seq<nat>>, r: nat, i: nat, j: nat)
    requires Apart(qs) && r < |qs| && i < |qs[r]| && j < |qs[r]| && i != j
    ensures qs[r][i] != qs[r][j]
  {
  }

  /** A queue without position `i`: every entry and every link comes from one of the old ones. */
  lemma CutEntry(q: seq<nat>, i: nat, j: nat)
    requires i < |q| && j < |q| - 1
    ensures var q' := q[..i] + q[i + 1..];
      |q'| == |q| - 1 && q'[j] == q[if j >= i then j + 1 else j]
      && PidAt(q', j + 1) == PidAt(q, if j + 1 >= i then j + 2 else j + 1)
  {
  }

  /** What the removal of position `i` of `q` does to the links of the others. */
  ghost predicate Relinked(body: seq<int>, q: seq<nat>, i: nat, body': seq<int>) {
    && i < |q| && |body'| == |body|
    && forall y :: 0 <= y < |body| && y != q[i] ==>
      body'[y] == if i > 0 && y == q[i - 1] then PidAt(q, i + 1) else body[y]
  }

  lemma CutLink(body: seq<int>, qs: seq<seq<nat>>, r: nat, i: nat, body': seq<int>, o: nat)
    requires Apart(qs) && r < |qs| && Relinked(body, qs[r], i, body') && o < |qs[r]| && o != i
    requires qs[r][o] < |body| && body[qs[r][o]] == PidAt(qs[r], o + 1)
    ensures body'[qs[r][o]] == PidAt(qs[r], if o + 1 == i then o + 2 else o + 1)
  {
    hide Apart, PidAt;
    ApartIn(qs, r, o, i);
    if i > 0 && o != i - 1 { ApartIn(qs, r, o, i - 1); }
  }

  lemma CutAt(body: seq<int>, qs: seq<seq<nat>>, r: nat, i: nat, body': seq<int>, j: nat)
    requires r < |qs| && Apart(qs) && Linked(body, PidAt(qs[r], 0), qs[r]) && Relinked(body, qs[r], i, body')
    requires j < |qs[r]| - 1
    ensures var q' := qs[r][..i] + qs[r][i + 1..];
      |q'| == |qs[r]| - 1 && q'[j] < |body'| && body'[q'[j]] == PidAt(q', j + 1)
  {
    hide Apart;
    var q, o := qs[r], if j >= i then j + 1 else j;
    assert i < |q| && |body'| == |body| && q[o] < |body| && body[q[o]] == PidAt(q, o + 1);
    hide Linked, PidAt, Relinked;
    CutEntry(q, i, j);
    CutLink(body, qs, r, i, body', o);
  }

  lemma CutHead(q: seq<nat>, i: nat)
    requires i < |q|
    ensures PidAt(q[..i] + q[i + 1..], 0) == if i == 0 then PidAt(q, 1) else PidAt(q, 0)
  {
  }

  /** The queue itself, past the cut. */
  lemma CutLinked(body: seq<int>, qs: seq<seq<nat>>, r: nat, i: nat, body': seq<int>)
    requires r < |qs| && Apart(qs) && Linked(body, PidAt(qs[r], 0), qs[r]) && Relinked(body, qs[r], i, body')
    ensures var q := qs[r]; var q' := q[..i] + q[i + 1..];
      Linked(body', PidAt(q', 0), q') && PidAt(q', 0) == if i == 0 then PidAt(q, 1) else PidAt(q, 0)
  {
    hide Apart, PidAt;
    assert i < |qs[r]|;
    hide Relinked;
    var q' := qs[r][..i] + qs[r][i + 1..];
    CutHead(qs[r], i);
    forall j | 0 <= j < |q'| ensures q'[j] < |body'| && body'[q'[j]] == PidAt(q', j + 1) {
      CutAt(body, qs, r, i, body', j);
    }
  }

  /** Any other queue. */
  lemma BesideLinked(body: seq<int>, qs: seq<seq<nat>>, r: nat, i: nat, body': seq<int>, x: nat)
    requires r < |qs| && Relinked(body, qs[r], i, body') && Apart(qs) && x < |qs| && x != r
    requires Linked(body, PidAt(qs[x], 0), qs[x])
    ensures Linked(body', PidAt(qs[x], 0), qs[x])
  {
    var q := qs[r];
    forall j | 0 <= j < |qs[x]| ensures qs[x][j] < |body'| && body'[qs[x][j]] == PidAt(qs[x], j + 1) {
      assert qs[r][i] == q[i];
      if i > 0 { assert qs[r][i - 1] == q[i - 1]; }
    }
  }

  lemma InvApart(s: State)
    requires Inv(s)
    ensures Apart(s.queues)
    ensures forall x, i :: 0 <= x < |s.queues| && 0 <= i < |s.queues[x]| ==>
      s.queues[x][i] < |s.procs| && s.procs[s.queues[x][i]].sending
  {
    forall x, y, i, j | 0 <= x < |s.queues| && 0 <= y < |s.queues| && 0 <= i < |s.queues[x]| && 0 <= j < |s.queues[y]|
                        && s.queues[x][i] == s.queues[y][j]
      ensures x == y && i == j
    {
      assert QueueOk(s, x) && QueueOk(s, y);
      assert s.queues[x][i] in s.queues[x] && s.queues[y][j] in s.queues[y];
    }
    forall x, i | 0 <= x < |s.queues| && 0 <= i < |s.queues[x]|
      ensures s.queues[x][i] < |s.procs| && s.procs[s.queues[x][i]].sending
    {
      assert QueueOk(s, x) && s.queues[x][i] in s.queues[x];
    }
  }

  /** After `i` entries: `f` is the first pending one after entry 0 and no other was seen, or 0. */
  predicate Scanned(a: seq<bool>, i: int, f: nat) {
    && 0 <= i <= |a| && (f != 0 ==> f < i && a[f])
    && forall j :: 0 < j < i && j != f ==> !a[j]
  }

  lemma ScanDone(a: seq<bool>, f: nat)
    requires f != 0 ==> f < |a| && a[f] && forall j :: 0 < j < f ==> !a[j]
    ensures f != 0 ==> AnyPending(a) && f == FirstPending(a, 1)
  {
    if f != 0 { FirstPendingIs(a, 1, f); }
  }

  lemma SizesOf(s: State)
    requires Inv(s)
    ensures Sizes(s)
  {
  }

  lemma SenderHasMsg(s: State, p: nat)
    requires Inv(s) && p < |s.procs|
    ensures s.procs[p].sending ==> HasMsg(s.procs[p])
  {
    assert ProcOk(s, p);
  }

  /** What a receive from anybody does, by whether somebody waits. */
  lemma MeetAny(s: State, p: nat, va: nat)
    requires Inv(s) && RecvEnabled(s, p, va, PROC_ANY)
    ensures Sizes(s) && QueueOk(s, p)
    ensures var s' := Meet(s, p, va, PROC_ANY);
      && Inv(s') && (s.queues[p] == [] ==> s' == Await(s, p, va, PROC_ANY))
      && (s.queues[p] != [] ==>
        && s.queues[p][0] < |s.procs| && HasMsg(s.procs[s.queues[p][0]])
        && s' == Accept(s, p, va, 0))
  {
    MeetInv(s, p, va, PROC_ANY);
    if s.queues[p] != [] { AcceptInv(s, p, va, 0); }
    hide Inv, Accept, Await;
  }

  /** What a receive from one process does, by whether it waits. */
  lemma MeetFrom(s: State, p: nat, va: nat, from: nat)
    requires Inv(s) && RecvEnabled(s, p, va, from) && from < |s.procs|
    ensures Sizes(s) && QueueOk(s, p)
    ensures var s', i := Meet(s, p, va, from), IndexOf(s.queues[p], from);
      && Inv(s') && (Blocked(s.procs[from]) != To(p) ==> s' == Await(s, p, va, from))
      && (Blocked(s.procs[from]) == To(p) ==>
        i < |s.queues[p]| && s.queues[p][i] == from && HasMsg(s.procs[from]) && s' == Accept(s, p, va, i))
  {
    MeetInv(s, p, va, from);
    if Blocked(s.procs[from]) == To(p) {
      IndexOfBlocked(s, p, from);
      AcceptInv(s, p, va, IndexOf(s.queues[p], from));
    }
    hide Inv, Accept, Await;
  }

  function Start(procs: seq<Proc>): State {
    State(procs, seq(|procs|, i => []), seq(HW_IRQ_COUNT, i => false), seq(EXCEPTION_COUNT, i => None), [], [],
          seq(|procs|, i => 0), seq(HW_IRQ_COUNT, i => 0), seq(EXCEPTION_COUNT, i => 0))
  }

  lemma StartFresh(procs: seq<Proc>)
    requires 0 < |procs| <= PROC_ANY && forall p :: 0 <= p < |procs| ==> Idle(procs[p])
    ensures Fresh(Start(procs)) && Inv(Start(procs))
  {
    hide Inv;
    FreshInv(Start(procs));
  }

  lemma NoneLinked(body: seq<int>, head: seq<int>, qs: seq<seq<nat>>)
    requires |head| == |qs| == |body| && forall r :: 0 <= r < |qs| ==> qs[r] == [] && head[r] == NULL
    ensures AllLinkedTo(body, head, qs)
  {
  }

  class Kernel {
    const table: array<Proc>
    const head: array<int>
    const body: array<int>
    const irqAvail: array<bool>
    const excData: array<Option<nat>>
    const irqSubs: array<nat>
    const excSubs: array<nat>
    ghost var queues: seq<seq<nat>>
    ghost var sent: seq<Envelope>
    ghost var delivered: seq<nat>
    ghost var ticket: seq<nat>

    ghost function Abs(): State
      reads this, table, irqAvail, excData, irqSubs, excSubs
    {
      State(table[..], queues, irqAvail[..], excData[..], sent, delivered, ticket, irqSubs[..], excSubs[..])
    }

    ghost predicate AllLinked()
      reads this, head, body
    {
      head != body && AllLinkedTo(body[..], head[..], queues)
    }

    ghost predicate Valid()
      reads this, table, irqAvail, excData, irqSubs, excSubs, head, body
    {
      irqSubs != excSubs && Inv(Abs()) && AllLinked()
    }

    /** Follows the chain of sending processes from `dest`; true if it comes to `src`. */
    method IsDeadLock(src: nat, dest: nat) returns (b: bool)
      requires Valid() && dest < table.Length
      ensures b <==> Reaches(GraphOf(table[..]), dest, src)
    {
      ghost var g := GraphOf(table[..]);
      assert Finite(g, dest);
      ghost var k: nat :| Ends(g, dest, k);
      var p: nat := dest;
      while true
        invariant p < table.Length && Ends(g, p, k)
        invariant Reaches(g, dest, src) <==> Reaches(g, p, src)
        decreases k
      {
        assert ProcOk(Abs(), p);
        if table[p].sending {
          var to := Msg(table[p]).receiver;
          assert g[p] == To(to);
          ReachStep(g, p, src);
          if to == src { return true; }
          p := to;
          k := k - 1;
        } else {
          assert g[p] == Nobody;
          return false;
        }
      }
    }

    /** Walks to the end of `r`'s queue and hangs `p` there. */
    method Append(r: nat, p: nat)
      requires AllLinked() && Apart(queues) && r < head.Length && p < head.Length
      requires forall x, i :: 0 <= x < |queues| && 0 <= i < |queues[x]| ==> queues[x][i] != p
      modifies this`queues, head, body
      ensures AllLinked() && queues == old(queues)[r := old(queues)[r] + [p]]
    {
      ghost var q, b, h := queues[r], body[..], head[..];
      assert Linked(b, h[r], q);
      if head[r] != NULL {
        var x := head[r];
        ghost var i := 0;
        while body[x] != NULL
          invariant 0 <= i < |q| && x == q[i]
          decreases |q| - i
        {
          x := body[x];
          i := i + 1;
        }
        body[x] := p;
      } else {
        head[r] := p;
      }
      body[p] := NULL;
      queues := queues[r := q + [p]];
      Enqueued(b, h, old(queues), r, p, body[..], head[..]);
    }

    /** Takes the first process off `r`'s queue; its own link is left as it was. */
    method PopHead(r: nat) returns (p: nat)
      requires AllLinked() && Apart(queues) && r < head.Length && queues[r] != []
      modifies this`queues, head
      ensures AllLinked() && p == old(queues)[r][0]
      ensures queues == old(queues)[r := old(queues)[r][..0] + old(queues)[r][1..]]
    {
      hide AllLinkedTo, Apart;
      ghost var b, h := body[..], head[..];
      LinkAt(b, h, queues, r, 0);
      p := head[r];
      head[r] := body[p];
      queues := queues[r := queues[r][..0] + queues[r][1..]];
      Dequeued(b, h, old(queues), r, 0, body[..], head[..]);
    }

    /** Takes `p` out of `r`'s queue, wherever it stands. */
    method Unlink(r: nat, p: nat, ghost i: nat)
      requires AllLinked() && Apart(queues) && r < head.Length && i < |queues[r]| && queues[r][i] == p
      modifies this`queues, head, body
      ensures AllLinked() && queues == old(queues)[r := old(queues)[r][..i] + old(queues)[r][i + 1..]]
    {
      ghost var q, b, h := queues[r], body[..], head[..];
      assert Linked(b, h[r], q);
      assert forall j :: 0 <= j < |q| ==> queues[r][j] == q[j];
      var x := head[r];
      if x == p {
        head[r] := body[p];
        body[p] := NULL;
      } else {
        var prev := x;
        x := body[x];
        ghost var j := 1;
        while x != p
          invariant 1 <= j <= i && x == q[j] && prev == q[j - 1]
          decreases i - j
        {
          x := body[x];
          prev := body[prev];
          j := j + 1;
        }
        body[prev] := body[x];
        body[p] := NULL;
      }
      queues := queues[r := q[..i] + q[i + 1..]];
      Dequeued(b, h, old(queues), r, i, body[..], head[..]);
    }

    /** `__send_msg`: hands the message over if the receiver waits for it, else blocks the
        sender at the end of the receiver's queue. Halts on a circle of senders, or on
        sending to oneself, with only the stamp written. */
    method SendMsg(p: nat, va: nat) returns (halted: bool)
      requires Valid() && p < table.Length && Runnable(table[p]) && va in table[p].mem
      requires table[p].mem[va].receiver < table.Length
      modifies this, table, head, body
      ensures halted <==> !old(SendEnabled(Abs(), p, va))
      ensures Valid() && Abs() == if halted then Stamped(old(Abs()), p, va) else Send(old(Abs()), p, va)
    {
      hide Inv, AllLinkedTo, Apart, Acyclic, Reaches;
      ghost var s0 := Abs();
      table[p] := table[p].(mem := table[p].mem[va := table[p].mem[va].(sender := p)]);
      ghost var s := Stamped(s0, p, va);
      assert Abs() == s;
      StampedInv(s0, p, va);
      SizesOf(s);
      var m := table[p].mem[va];
      var r := m.receiver;
      var dead := IsDeadLock(p, r);
      if dead || m.receiver == m.sender { return true; }
      SendInv(s0, p, va);
      assert ProcOk(s, r);
      if table[r].receiving && Msg(table[r]).ready && (Msg(table[r]).sender == PROC_ANY || Msg(table[r]).sender == p) {
        table[r] := Woken(table[r], m);
        delivered := delivered + [|sent|];
      } else {
        InvApart(s);
        LinkAt(body[..], head[..], queues, r, 0);
        table[p] := table[p].(pMsg := Some(va), sending := true);
        Append(r, p);
        ticket := ticket[p := |sent|];
      }
      sent := sent + [Envelope(p, r, m)];
      assert Abs() == Send(s0, p, va);
      return false;
    }

    /** The first pending interrupt after entry 0, and whether another is pending. */
    method ScanInterrupts() returns (irq: nat, hasSecond: bool)
      ensures irq == 0 <==> !AnyPending(irqAvail[..])
      ensures irq != 0 ==> irq == FirstPending(irqAvail[..], 1) < irqAvail.Length
      ensures irq != 0 ==> (hasSecond <==> AnyPending(irqAvail[..][irq := false]))
    {
      irq, hasSecond := 0, false;
      ghost var a := irqAvail[..];
      for i: int := 0 to irqAvail.Length
        invariant Scanned(a, i, irq) && !hasSecond
      {
        if irqAvail[i] {
          if irq != 0 {
            hasSecond := true;
            assert a[irq := false][i];
            break;
          }
          irq := i;
        }
      }
      ScanDone(a, irq);
    }

    /** The same over the exceptions, with the data of the one found. */
    method ScanExceptions() returns (exc: nat, data: nat, hasSecond: bool)
      ensures exc == 0 <==> !AnyPending(Marks(excData[..]))
      ensures exc != 0 ==> exc == FirstPending(Marks(excData[..]), 1) < excData.Length && excData[exc] == Some(data)
      ensures exc != 0 ==> (hasSecond <==> AnyPending(Marks(excData[..])[exc := false]))
    {
      exc, data, hasSecond := 0, 0, false;
      ghost var a := Marks(excData[..]);
      for i: int := 0 to excData.Length
        invariant Scanned(a, i, exc) && !hasSecond
        invariant exc != 0 ==> excData[exc] == Some(data)
      {
        if excData[i].Some? {
          if exc != 0 {
            hasSecond := true;
            assert a[exc := false][i];
            break;
          }
          exc := i;
          data := excData[i].value;
        }
      }
      ScanDone(a, exc);
    }

    /** Takes the first pending interrupt after entry 0; panics if there is none. */
    method TakePendingInterrupt(p: nat, va: nat) returns (panicked: bool)
      requires p < table.Length && va in table[p].mem && table[p].flags.gotInt
      modifies table, irqAvail
      ensures panicked <==> !AnyPending(old(irqAvail[..]))
      ensures Abs() == if panicked then old(Abs()) else TakeInterrupt(old(Abs()), p, va)
    {
      ghost var a := irqAvail[..];
      var irq, hasSecond := ScanInterrupts();
      if irq == 0 { return true; }
      var q := table[p];
      var m := q.mem[va].(kind := MSG_INTERRUPT, major := irq, sender := PROC_INTERRUPT);
      q := q.(mem := q.mem[va := m]);
      if !hasSecond { q := q.(flags := q.flags.(gotInt := false)); }
      table[p] := q;
      irqAvail[irq] := false;
      assert irqAvail[..] == a[irq := false];
      return false;
    }

    /** Takes the first pending exception after entry 0; panics if there is none. */
    method TakePendingException(p: nat, va: nat) returns (panicked: bool)
      requires p < table.Length && va in table[p].mem && table[p].flags.gotExc
      modifies table, excData
      ensures panicked <==> !AnyPending(Marks(old(excData[..])))
      ensures Abs() == if panicked then old(Abs()) else TakeException(old(Abs()), p, va)
    {
      ghost var e := excData[..];
      var exc, data, hasSecond := ScanExceptions();
      if exc == 0 { return true; }
      var q := table[p];
      var m := q.mem[va].(kind := MSG_EXCEPTION, major := exc, d1 := data, sender := PROC_INTERRUPT);
      q := q.(mem := q.mem[va := m]);
      if !hasSecond { q := q.(flags := q.flags.(gotExc := false)); }
      table[p] := q;
      excData[exc] := None;
      assert excData[..] == e[exc := None] && Marks(e[exc := None]) == Marks(e)[exc := false];
      return false;
    }

    /** Blocks `p` until a message from `from` comes. */
    method Block(p: nat, va: nat, from: nat)
      requires p < table.Length && va in table[p].mem
      modifies table
      ensures Abs() == Await(old(Abs()), p, va, from)
    {
      var q := table[p];
      q := q.(mem := q.mem[va := q.mem[va].(ready := true, sender := from)]);
      table[p] := q.(pMsg := Some(va), receiving := true, flags := q.flags.(running := false));
    }

    /** Copies the message of `q`, just taken off the queue of `p`, and releases `q`. */
    method Deliver(p: nat, va: nat, q: nat, ghost s: State, ghost i: nat)
      requires Inv(s) && p < |s.procs| && Runnable(s.procs[p]) && va in s.procs[p].mem && i < |s.queues[p]|
      requires q == s.queues[p][i] < |s.procs| && HasMsg(s.procs[q])
      requires Abs() == s.(queues := s.queues[p := s.queues[p][..i] + s.queues[p][i + 1..]])
      modifies this`delivered, table
      ensures Abs() == Accept(s, p, va, i) && Inv(Abs())
    {
      AcceptInv(s, p, va, i);
      table[p] := table[p].(mem := table[p].mem[va := Msg(table[q])]);
      table[q] := table[q].(pMsg := None, sending := false, flags := table[q].flags.(running := true));
      delivered := delivered + [ticket[q]];
      assert Abs() == Accept(s, p, va, i);
    }

    method ReceiveAny(p: nat, va: nat)
      requires Valid() && RecvEnabled(Abs(), p, va, PROC_ANY)
      modifies this`queues, this`delivered, table, head
      ensures Valid() && QueueOk(old(Abs()), p) && Abs() == Meet(old(Abs()), p, va, PROC_ANY)
    {
      hide Inv, AllLinkedTo, Apart, QueueOk, Meet, Accept, Await, Panics;
      ghost var s := Abs();
      MeetAny(s, p, va);
      InvApart(s);
      LinkAt(body[..], head[..], queues, p, 0);
      if head[p] != NULL {
        var q := PopHead(p);
        Deliver(p, va, q, s, 0);
      } else {
        Block(p, va, PROC_ANY);
      }
    }

    method ReceiveFrom(p: nat, va: nat, from: nat)
      requires Valid() && RecvEnabled(Abs(), p, va, from) && from < table.Length
      modifies this`queues, this`delivered, table, head, body
      ensures Valid() && QueueOk(old(Abs()), p) && Abs() == Meet(old(Abs()), p, va, from)
    {
      hide Inv, AllLinkedTo, Apart, QueueOk, Meet, Accept, Await, Panics;
      ghost var s := Abs();
      MeetFrom(s, p, va, from);
      InvApart(s);
      SenderHasMsg(s, from);
      if table[from].sending && Msg(table[from]).receiver == p {
        ghost var i := IndexOf(queues[p], from);
        LinkAt(body[..], head[..], queues, p, i);
        Unlink(p, from, i);
        Deliver(p, va, from, s, i);
      } else {
        Block(p, va, from);
      }
    }

    /** The rendezvous: the end of `__recv_msg`, once nothing is pending. */
    method Rendezvous(p: nat, va: nat, from: nat)
      requires Valid() && RecvEnabled(Abs(), p, va, from)
      modifies this`queues, this`delivered, table, head, body
      ensures Valid() && QueueOk(old(Abs()), p) && Abs() == Meet(old(Abs()), p, va, from)
    {
      ghost var s := Abs();
      MeetInv(s, p, va, from);
      if from == PROC_INTERRUPT {
        Block(p, va, from);
      } else if from == PROC_ANY {
        ReceiveAny(p, va);
      } else {
        ReceiveFrom(p, va, from);
      }
    }

    /** `__recv_msg`: takes a pending interrupt or exception, else a waiting message, else
        blocks. Halts on receiving from oneself, and where an interrupt or exception is
        announced and none after entry 0 is pending, with only the address written. */
    method RecvMsg(p: nat, va: nat, from: nat) returns (halted: bool)
      requires Valid() && p < table.Length && Runnable(table[p]) && va in table[p].mem
      requires from < table.Length || from == PROC_ANY || from == PROC_INTERRUPT
      modifies this, table, head, body, irqAvail, excData
      ensures halted <==> from == p || Panics(old(Abs()), p, from)
      ensures Valid() && Abs() == if halted then Addressed(old(Abs()), p, va) else Recv(old(Abs()), p, va, from)
    {
      hide Inv, AllLinkedTo, Meet, TakeInterrupt, TakeException, FirstPending;
      ghost var s0 := Abs();
      var f := table[p].flags;
      table[p] := table[p].(mem := table[p].mem[va := table[p].mem[va].(receiver := p)]);
      ghost var s := Addressed(s0, p, va);
      assert Abs() == s;
      AddressedInv(s0, p, va);
      if p == from { return true; }
      if !Panics(s0, p, from) { RecvInv(s0, p, va, from); }
      if from == 0 { return false; }
      if f.gotInt && (from == PROC_INTERRUPT || from == PROC_ANY) {
        halted := TakePendingInterrupt(p, va);
        return;
      }
      if f.gotExc && (from == PROC_INTERRUPT || from == PROC_ANY) {
        halted := TakePendingException(p, va);
        return;
      }
      Rendezvous(p, va, from);
      return false;
    }

    method SendInterruptMsg(irq: nat, pid: nat)
      requires Valid() && irq < irqAvail.Length && pid == irqSubs[irq] && pid != 0
      modifies table, irqAvail
      ensures Valid() && Abs() == Interrupt(old(Abs()), irq)
    {
      ghost var s := Abs();
      InterruptInv(s, irq);
      assert ProcOk(s, pid);
      var q := table[pid];
      if q.receiving {
        var m := Msg(q);
        if m.sender == PROC_ANY || m.sender == PROC_INTERRUPT {
          m := m.(sender := PROC_INTERRUPT, kind := MSG_INTERRUPT, major := irq);
          table[pid] := WithMsg(q, m).(receiving := false);
          assert Abs() == Interrupt(s, irq);
          return;
        }
      }
      table[pid] := q.(flags := q.flags.(gotInt := true));
      irqAvail[irq] := true;
      assert Abs() == Interrupt(s, irq);
    }

    /** A hardware interrupt, for its subscriber if it has one. */
    method HandleIrq(irq: nat)
      requires Valid() && irq < irqSubs.Length
      modifies table, irqAvail
      ensures Valid() && Abs() == Interrupt(old(Abs()), irq)
    {
      if irqSubs[irq] != 0 { SendInterruptMsg(irq, irqSubs[irq]); }
    }

    method SendExceptionMsg(exc: nat, data: nat, pid: nat)
      requires Valid() && exc < excData.Length && pid == excSubs[exc]
      modifies table, excData
      ensures Valid() && Abs() == ExceptionMsg(old(Abs()), exc, data)
    {
      ghost var s := Abs();
      ExceptionMsgInv(s, exc, data);
      assert ProcOk(s, pid);
      var q := table[pid];
      if q.receiving {
        var m := Msg(q);
        if m.sender == PROC_ANY || m.sender == PROC_INTERRUPT {
          m := m.(sender := PROC_INTERRUPT, kind := MSG_EXCEPTION, major := exc, d1 := data);
          table[pid] := WithMsg(q, m).(receiving := false);
          assert Abs() == ExceptionMsg(s, exc, data);
          return;
        }
      }
      table[pid] := q.(flags := q.flags.(gotExc := true));
      excData[exc] := Some(data);
      assert Abs() == ExceptionMsg(s, exc, data);
    }

    /** The fault of the running process `cur`, up to the call of the scheduler; false if nobody
        subscribes, where the source prints and stops. */
    method FaultHandler(cur: nat, exc: nat, data: nat) returns (told: bool)
      requires Valid() && cur < table.Length && Runnable(table[cur]) && exc < excSubs.Length
      modifies table, excData
      ensures told <==> excSubs[exc] != 0
      ensures Valid() && Abs() == if told then Fault(old(Abs()), cur, exc, data) else old(Abs())
    {
      if excSubs[exc] == 0 { return false; }
      ghost var s := Abs();
      FaultInv(s, cur, exc, data);
      var e := table[cur].flags.error;
      var f := Flags(false, false, false, false, e, false, false);
      table[cur] := table[cur].(sending := false, receiving := false, flags := f);
      assert Abs() == Cleared(s, cur);
      SendExceptionMsg(exc, data, excSubs[exc]);
      return true;
    }

    /** `REG_INT_MSG`: refused for the clock, for a number too high and for a taken interrupt. */
    method RegIntMsg(irq: nat, sender: nat) returns (panicked: bool)
      requires Valid() && sender < table.Length
      modifies irqSubs
      ensures Valid() && (panicked <==> !old(Enabled(Abs(), AsksIrq(irq, sender))))
      ensures Abs() == if panicked then old(Abs()) else Step(old(Abs()), AsksIrq(irq, sender))
    {
      if irq == 0 { return true; }
      if irq >= HW_IRQ_COUNT { return true; }
      if irqSubs[irq] != 0 { return true; }
      ghost var s := Abs();
      StepInv(s, AsksIrq(irq, sender));
      irqSubs[irq] := sender;
      assert Abs() == Step(s, AsksIrq(irq, sender));
      return false;
    }

    /** `REG_EXC_MSG`: refused for a number too high and for a taken exception; not for 0. */
    method RegExcMsg(exc: nat, sender: nat) returns (panicked: bool)
      requires Valid() && sender < table.Length
      modifies excSubs
      ensures Valid() && (panicked <==> !old(Enabled(Abs(), AsksExc(exc, sender))))
      ensures Abs() == if panicked then old(Abs()) else Step(old(Abs()), AsksExc(exc, sender))
    {
      if exc >= EXCEPTION_COUNT { return true; }
      if excSubs[exc] != 0 { return true; }
      ghost var s := Abs();
      StepInv(s, AsksExc(exc, sender));
      excSubs[exc] := sender;
      assert Abs() == Step(s, AsksExc(exc, sender));
      return false;
    }

    /** Idle processes, nothing queued or pending, nobody subscribed. */
    constructor (procs: seq<Proc>)
      requires 0 < |procs| <= PROC_ANY
      requires forall p :: 0 <= p < |procs| ==> Idle(procs[p])
      ensures Valid() && Fresh(Abs()) && table[..] == procs
      ensures fresh(table) && fresh(head) && fresh(body) && fresh(irqAvail) && fresh(excData)
      ensures fresh(irqSubs) && fresh(excSubs)
    {
      table := new Proc[|procs|](i requires 0 <= i < |procs| => procs[i]);
      head := new int[|procs|](i => NULL);
      body := new int[|procs|](i => NULL);
      irqAvail := new bool[HW_IRQ_COUNT](i => false);
      excData := new Option<nat>[EXCEPTION_COUNT](i => None);
      irqSubs := new nat[HW_IRQ_COUNT](i => 0);
      excSubs := new nat[EXCEPTION_COUNT](i => 0);
      queues := seq(|procs|, i => []);
      sent, delivered, ticket := [], [], seq(|procs|, i => 0);
      new;
      hide Inv, AllLinkedTo, Fresh, Idle;
      assert table[..] == procs && queues == Start(procs).queues && ticket == Start(procs).ticket;
      assert irqAvail[..] == Start(procs).irqs && excData[..] == Start(procs).excs;
      assert irqSubs[..] == Start(procs).irqSubs && excSubs[..] == Start(procs).excSubs;
      StartFresh(procs);
      NoneLinked(body[..], head[..], queues);
    }
  }
}
