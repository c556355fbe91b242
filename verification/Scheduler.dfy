/** The round-robin scheduler over the linked process list. `hlt` waits for an interrupt;
    here it changes no status. */
module Scheduler {
  const NULL: int := -1

  const PROC_STATUS_STOP: bv32 := 0x010
  const PROC_STATUS_ERROR: bv32 := 0x020
  const PROC_STATUS_SENDING: bv32 := 0x040
  const PROC_STATUS_RECEIVING: bv32 := 0x080
  const PROC_STATUS_WAITING: bv32 := 0x100
  const PROC_STATUS_HANGING: bv32 := 0x200
  const UNRUNNABLE: bv32 :=
    PROC_STATUS_RECEIVING | PROC_STATUS_SENDING | PROC_STATUS_STOP | PROC_STATUS_ERROR | PROC_STATUS_WAITING
    | PROC_STATUS_HANGING

  predicate CanRun(status: bv32) {
    (status & 0xFF) & UNRUNNABLE == 0
  }

  /** The mask hides two of the bits it is meant to test: a process that is only WAITING or
      HANGING is picked. */
  lemma MaskHides(status: bv32)
    ensures CanRun(status) <==> status & 0xF0 == 0
    ensures CanRun(0x100) && CanRun(0x200) && PROC_STATUS_WAITING == 0x100 && PROC_STATUS_HANGING == 0x200
  {
  }

  // ---------- the round ----------

  /** The place `k` steps after place `i` of a ring of `n`. */
  function Around(i: nat, k: nat, n: nat): (p: nat)
    requires i < n && k <= n
    ensures p < n
  {
    if i + k < n then i + k else i + k - n
  }

  /** The steps from place `i`, `k` at least, to the first place that can run. */
  function Gap(run: seq<bool>, i: nat, k: nat): (g: nat)
    requires i < |run| && k <= |run| && exists j :: k <= j <= |run| && run[Around(i, j, |run|)]
    ensures k <= g <= |run| && run[Around(i, g, |run|)]
    ensures forall j :: k <= j < g ==> !run[Around(i, j, |run|)]
    decreases |run| - k
  {
    if run[Around(i, k, |run|)] then k else Gap(run, i, k + 1)
  }

  /** How far ahead of place `i` place `j` is; a full round if they are the same. */
  function Ahead(i: nat, j: nat, n: nat): (d: nat)
    requires i < n && j < n
    ensures 1 <= d <= n && Around(i, d, n) == j
  {
    if j > i then j - i else j + n - i
  }

  predicate AnyRunnable(run: seq<bool>) {
    exists j :: 0 <= j < |run| && run[j]
  }

  lemma SomeAhead(run: seq<bool>, i: nat)
    requires i < |run| && AnyRunnable(run)
    ensures exists j :: 1 <= j <= |run| && run[Around(i, j, |run|)]
  {
    var j :| 0 <= j < |run| && run[j];
    assert run[Around(i, Ahead(i, j, |run|), |run|)];
  }

  /** The place picked after place `i`. */
  function Pick(run: seq<bool>, i: nat): (p: nat)
    requires i < |run| && AnyRunnable(run)
    ensures p < |run| && run[p]
  {
    SomeAhead(run, i);
    Around(i, Gap(run, i, 1), |run|)
  }

  function Picks(run: seq<bool>, i: nat, m: nat): (p: nat)
    requires i < |run| && AnyRunnable(run)
    ensures p < |run|
    decreases m
  {
    if m == 0 then i else Picks(run, Pick(run, i), m - 1)
  }

  /** Nobody starves: while the statuses stay, whoever can run is picked within as many
      calls as it is places ahead, a round at most. */
  lemma {:induction false} EverybodyRuns(run: seq<bool>, i: nat, j: nat) returns (m: nat)
    requires i < |run| && j < |run| && run[j]
    ensures AnyRunnable(run) && 1 <= m <= Ahead(i, j, |run|) <= |run| && Picks(run, i, m) == j
    decreases Ahead(i, j, |run|)
  {
    SomeAhead(run, i);
    var g := Gap(run, i, 1);
    assert g <= Ahead(i, j, |run|);
    if g == Ahead(i, j, |run|) {
      m := 1;
      assert Picks(run, Pick(run, i), 0) == j;
    } else {
      m := EverybodyRuns(run, Pick(run, i), j);
      m := m + 1;
    }
  }

  // ---------- the process list in place ----------

  /** The list `order`, linked through `next`. */
  ghost predicate Linked(order: seq<nat>, next: seq<int>) {
    && order != [] && (forall i :: 0 <= i < |order| ==> order[i] < |next|)
    && (forall i, j :: 0 <= i < j < |order| ==> order[i] != order[j])
    && forall i :: 0 <= i < |order| ==> next[order[i]] == if i + 1 < |order| then order[i + 1] else NULL
  }

  function RunOf(order: seq<nat>, status: seq<bv32>): seq<bool>
    requires forall i :: 0 <= i < |order| ==> order[i] < |status|
  {
    seq(|order|, i requires 0 <= i < |order| => CanRun(status[order[i]]))
  }

  /** One step along the list, from its end to its head; it comes back after a full round. */
  lemma Advance(order: seq<nat>, next: seq<int>, i: nat, k: nat)
    requires Linked(order, next) && i < |order| && k < |order|
    ensures var p := order[Around(i, k, |order|)];
      order[Around(i, k + 1, |order|)] == if next[p] == NULL then order[0] else next[p]
    ensures order[Around(i, k + 1, |order|)] == order[i] <==> k + 1 == |order|
  {
    var q := Around(i, k, |order|);
    assert next[order[q]] == if q + 1 < |order| then order[q + 1] else NULL;
    assert Around(i, k + 1, |order|) == if q + 1 < |order| then q + 1 else 0;
  }

  class RunQueue {
    const next: array<int>
    const status: array<bv32>
    const list: int
    var running: int
    ghost const order: seq<nat>

    ghost predicate Valid()
      reads this, next, status
    {
      && Linked(order, next[..]) && list == order[0] && next.Length == status.Length
      && (running == NULL || running in order)
    }

    /** Who can run, in list order. */
    ghost function Run(): seq<bool>
      requires Valid()
      reads this, next, status
    {
      RunOf(order, status[..])
    }

    /** `scheduler`: the next process in the list that can run. It halts exactly if it
        comes back to the one it left. */
    method Schedule(ghost i: nat) returns (halted: bool)
      requires Valid()
      requires running != NULL ==> i < |order| && running == order[i] && AnyRunnable(Run())
      modifies this`running
      ensures Valid()
      ensures old(running) == NULL ==> running == NULL && !halted
      ensures old(running) != NULL ==> running == order[Pick(Run(), i)] && (halted <==> running == old(running))
    {
      halted := false;
      if running == NULL { return; }
      var cur := running;
      ghost var k, n, run := 0, |order|, Run();
      SomeAhead(run, i);
      ghost var g := Gap(run, i, 1);
      while true
        invariant 0 <= k < g && running == order[Around(i, k, n)] && !halted
        decreases n - k
      {
        Advance(order, next[..], i, k);
        if next[running] == NULL {
          running := list;
        } else {
          running := next[running];
        }
        k := k + 1;
        if running == cur { halted := true; }
        assert run[Around(i, k, n)] == CanRun(status[running]);
        if CanRun(status[running]) { break; }
      }
    }
  }
}
