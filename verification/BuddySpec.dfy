/** The buddy allocator on block numbers: block `i` of order `k` is the run of
    2^k pages that starts at page i * 2^k. Its buddy is `i` with the lowest bit
    flipped, its parent is i / 2. A state is the sequence of free lists. */
module BuddySpec {
  import opened Common

  const MAX_ORDER: nat := 11
  const TOP: nat := 10

  type Lists = s: seq<seq<nat>> | |s| == MAX_ORDER witness [[], [], [], [], [], [], [], [], [], [], []]

  function Buddy(i: nat): (b: nat)
    ensures b != i && b / 2 == i / 2 && (b == 2 * (i / 2) || b == 2 * (i / 2) + 1)
  {
    if i % 2 == 0 then i + 1 else i - 1
  }

  /** The block `d` orders up that contains block `i`: i >> d. */
  function Up(i: nat, d: nat): nat {
    if d == 0 then i else Up(i / 2, d - 1)
  }

  /** How many blocks of order `k` there are when `tops` is the number of top-order blocks. */
  function Count(tops: nat, k: nat): nat
    decreases MAX_ORDER - k
  {
    if k + 1 >= MAX_ORDER then tops else 2 * Count(tops, k + 1)
  }

  /** Block `i` of order `k` lies inside some block on a free list. */
  predicate Covered(ls: Lists, k: nat, i: nat)
    decreases MAX_ORDER - k
  {
    k < MAX_ORDER && (i in ls[k] || Covered(ls, k + 1, i / 2))
  }

  predicate FreePage(ls: Lists, p: nat) {
    Covered(ls, 0, p)
  }

  /** What holds of every listed block: it is in range, no larger listed block
      contains it, and below the top order its buddy is not listed with it. */
  ghost predicate Listed(ls: Lists, tops: nat, k: nat, i: nat)
    requires k < MAX_ORDER
  {
    && i < Count(tops, k)
    && !Covered(ls, k + 1, i / 2)
    && (k + 1 < MAX_ORDER ==> Buddy(i) !in ls[k])
  }

  ghost predicate Inv(ls: Lists, tops: nat) {
    forall k :: 0 <= k < MAX_ORDER ==> NoDup(ls[k]) && forall i :: i in ls[k] ==> Listed(ls, tops, k, i)
  }

  // ---------- the two operations ----------

  /** Splitting on demand: the lower half goes on the list, the upper half is returned. */
  function Alloc(ls: Lists, k: nat): (Lists, Option<nat>)
    decreases MAX_ORDER - k
  {
    if k >= MAX_ORDER then (ls, None)
    else if ls[k] == [] then
      var (ls1, r) := Alloc(ls, k + 1);
      if r.None? then (ls, None) else (ls1[k := [2 * r.value] + ls1[k]], Some(2 * r.value + 1))
    else (ls[k := ls[k][1..]], Some(ls[k][0]))
  }

  function Without(s: seq<nat>, x: nat): seq<nat> {
    if s == [] then [] else if s[0] == x then s[1..] else [s[0]] + Without(s[1..], x)
  }

  /** Merging with the buddy as long as it is free. */
  function Free(ls: Lists, k: nat, i: nat): Lists
    requires k < MAX_ORDER
    decreases MAX_ORDER - k
  {
    if k + 1 < MAX_ORDER && Buddy(i) in ls[k] then Free(ls[k := Without(ls[k], Buddy(i))], k + 1, i / 2)
    else ls[k := [i] + ls[k]]
  }

  // ---------- taking a block off a list, putting one on ----------

  lemma {:induction false} WithoutMember(s: seq<nat>, x: nat)
    requires NoDup(s) && x in s
    ensures NoDup(Without(s, x)) && |Without(s, x)| == |s| - 1
    ensures forall y :: y in Without(s, x) <==> y in s && y != x
  {
    if s[0] != x {
      var t := s[1..];
      assert forall y :: y in s <==> y == s[0] || y in t;
      WithoutMember(t, x);
      assert Without(s, x) == [s[0]] + Without(t, x);
      assert s[0] !in t;
    } else {
      assert forall y :: y in s[1..] ==> y != x;
      assert forall y :: y in s <==> y == x || y in s[1..];
    }
  }

  lemma {:induction false} UpStep(x: nat, d: nat)
    ensures Up(x, d + 1) == Up(x, d) / 2
  {
    if d > 0 { UpStep(x / 2, d - 1); }
  }

  /** A block above order `k` does not notice a change of list `k`. */
  lemma {:induction false} CoveredAbove(ls: Lists, k: nat, l: seq<nat>, j: nat, x: nat)
    requires k < j && k < MAX_ORDER
    ensures Covered(ls[k := l], j, x) == Covered(ls, j, x)
    decreases MAX_ORDER - j
  {
    if j < MAX_ORDER { CoveredAbove(ls, k, l, j + 1, x / 2); }
  }

  lemma {:induction false} CoveredSub(ls: Lists, k: nat, i: nat, j: nat, x: nat)
    requires j <= k && Up(x, k - j) == i && Covered(ls, k, i)
    ensures Covered(ls, j, x)
    decreases k - j
  {
    if j < k { CoveredSub(ls, k, i, j + 1, x / 2); }
  }

  /** Taking `r` off list `k` uncovers exactly the blocks inside `r`. */
  lemma {:induction false} CoveredTake(ls: Lists, tops: nat, k: nat, r: nat, l: seq<nat>, j: nat, x: nat)
    requires Inv(ls, tops) && j <= k < MAX_ORDER && r in ls[k]
    requires forall y :: y in l <==> y in ls[k] && y != r
    ensures Covered(ls[k := l], j, x) <==> Covered(ls, j, x) && Up(x, k - j) != r
    decreases k - j
  {
    CoveredAbove(ls, k, l, k + 1, Up(x, k - j) / 2);
    if j == k {
      if x == r { assert Listed(ls, tops, k, r); }
    } else {
      CoveredTake(ls, tops, k, r, l, j + 1, x / 2);
      if x in ls[j] {
        assert Listed(ls, tops, j, x);
        if Up(x, k - j) == r { CoveredSub(ls, k, r, j + 1, x / 2); }
      }
    }
  }

  /** Putting `r` on list `k` covers exactly the blocks inside `r` as well. */
  lemma {:induction false} CoveredPut(ls: Lists, k: nat, r: nat, j: nat, x: nat)
    requires j <= k < MAX_ORDER
    ensures Covered(ls[k := [r] + ls[k]], j, x) <==> Covered(ls, j, x) || Up(x, k - j) == r
    decreases k - j
  {
    CoveredAbove(ls, k, [r] + ls[k], k + 1, Up(x, k - j) / 2);
    if j < k { CoveredPut(ls, k, r, j + 1, x / 2); }
  }

  lemma {:induction false} TakeInv(ls: Lists, tops: nat, k: nat, r: nat, l: seq<nat>)
    requires Inv(ls, tops) && k < MAX_ORDER && r in ls[k]
    requires NoDup(l) && forall y :: y in l <==> y in ls[k] && y != r
    ensures Inv(ls[k := l], tops)
  {
    var ls' := ls[k := l];
    forall m, i | 0 <= m < MAX_ORDER && i in ls'[m] ensures Listed(ls', tops, m, i) {
      assert Listed(ls, tops, m, i);
      if m < k { CoveredTake(ls, tops, k, r, l, m + 1, i / 2); } else { CoveredAbove(ls, k, l, m + 1, i / 2); }
    }
  }

  /** Nothing of block `i` of order `k` is free. */
  ghost predicate Unfree(ls: Lists, k: nat, i: nat) {
    forall j: nat, x: nat {:trigger Covered(ls, j, x)} :: j <= k && Up(x, k - j) == i ==> !Covered(ls, j, x)
  }

  lemma {:induction false} PutInv(ls: Lists, tops: nat, k: nat, r: nat)
    requires Inv(ls, tops) && k < MAX_ORDER && r < Count(tops, k) && Unfree(ls, k, r)
    requires k + 1 < MAX_ORDER ==> Buddy(r) !in ls[k]
    ensures Inv(ls[k := [r] + ls[k]], tops)
  {
    var ls' := ls[k := [r] + ls[k]];
    forall m, i | 0 <= m < MAX_ORDER && i in ls'[m] ensures Listed(ls', tops, m, i) {
      PutListed(ls, tops, k, r, m, i);
    }
    assert !Covered(ls, k, r);
    forall m | 0 <= m < MAX_ORDER ensures NoDup(ls'[m]) { assert NoDup(ls[m]); }
    hide Listed, Covered, Count, Unfree;
  }

  /** A listed block below order `k` is not inside a block nothing of which is free. */
  lemma NotInside(ls: Lists, k: nat, r: nat, m: nat, i: nat)
    requires Unfree(ls, k, r) && m < k < MAX_ORDER && i in ls[m]
    ensures Up(i / 2, k - (m + 1)) != r
  {
    assert Covered(ls, m, i);
    assert Up(i, k - m) == Up(i / 2, k - (m + 1));
    hide Covered, Up;
  }

  lemma PutBelow(ls: Lists, tops: nat, k: nat, r: nat, m: nat, i: nat)
    requires m < k < MAX_ORDER && Unfree(ls, k, r) && i in ls[m] && Listed(ls, tops, m, i)
    ensures Listed(ls[k := [r] + ls[k]], tops, m, i)
  {
    assert !Covered(ls, k, r);
    hide Count;
    NotInside(ls, k, r, m, i);
    hide Unfree;
    CoveredPut(ls, k, r, m + 1, i / 2);
    hide Covered, Up;
  }

  lemma BuddyBack(i: nat)
    ensures Buddy(Buddy(i)) == i
  {
  }

  lemma PutBeside(ls: Lists, tops: nat, k: nat, r: nat, i: nat)
    requires k < MAX_ORDER && r < Count(tops, k) && !Covered(ls, k, r) && (k + 1 < MAX_ORDER ==> Buddy(r) !in ls[k])
    requires i == r || (i in ls[k] && Listed(ls, tops, k, i))
    ensures Listed(ls[k := [r] + ls[k]], tops, k, i)
  {
    CoveredAbove(ls, k, [r] + ls[k], k + 1, i / 2);
    BuddyBack(i);
    hide Count, Covered, Buddy;
  }

  lemma PutAbove(ls: Lists, tops: nat, k: nat, r: nat, m: nat, i: nat)
    requires k < m < MAX_ORDER && Listed(ls, tops, m, i)
    ensures Listed(ls[k := [r] + ls[k]], tops, m, i)
  {
    CoveredAbove(ls, k, [r] + ls[k], m + 1, i / 2);
    hide Count, Covered, Buddy;
  }

  lemma PutListed(ls: Lists, tops: nat, k: nat, r: nat, m: nat, i: nat)
    requires Inv(ls, tops) && k < MAX_ORDER && r < Count(tops, k) && Unfree(ls, k, r)
    requires k + 1 < MAX_ORDER ==> Buddy(r) !in ls[k]
    requires m < MAX_ORDER && i in ls[k := [r] + ls[k]][m]
    ensures Listed(ls[k := [r] + ls[k]], tops, m, i)
  {
    assert !Covered(ls, k, r) by { assert Up(r, 0) == r; }
    if m != k || i != r { assert Listed(ls, tops, m, i); }
    hide Inv, Count, Unfree, Up, Covered, Listed;
    if m < k {
      PutBelow(ls, tops, k, r, m, i);
    } else if m == k {
      PutBeside(ls, tops, k, r, i);
    } else {
      PutAbove(ls, tops, k, r, m, i);
    }
  }

  // ---------- allocation ----------

  /** A block of order `k` or larger is free. */
  predicate Available(ls: Lists, k: nat)
    decreases MAX_ORDER - k
  {
    k < MAX_ORDER && (ls[k] != [] || Available(ls, k + 1))
  }

  predicate Took(ls: Lists, ls': Lists, k: nat, r: nat, j: nat, x: nat)
    requires j <= k
  {
    && (Covered(ls', j, x) <==> Covered(ls, j, x) && Up(x, k - j) != r)
    && (Up(x, k - j) == r ==> Covered(ls, j, x))
  }

  /** All of block `r` of order `k` was free in `ls`, and `ls'` is the rest. */
  ghost predicate Takes(ls: Lists, ls': Lists, k: nat, r: nat) {
    forall j: nat, x: nat {:trigger Covered(ls', j, x)} {:trigger Took(ls, ls', k, r, j, x)} ::
      j <= k ==> Took(ls, ls', k, r, j, x)
  }

  predicate Added(ls: Lists, ls': Lists, k: nat, i: nat, j: nat, x: nat)
    requires j <= k
  {
    Covered(ls', j, x) <==> Covered(ls, j, x) || Up(x, k - j) == i
  }

  /** `ls'` covers what `ls` covers and block `i` of order `k`. */
  ghost predicate Adds(ls: Lists, ls': Lists, k: nat, i: nat) {
    forall j: nat, x: nat {:trigger Covered(ls', j, x)} {:trigger Added(ls, ls', k, i, j, x)} ::
      j <= k ==> Added(ls, ls', k, i, j, x)
  }

  /** Allocation keeps the invariant, fails exactly when nothing large enough is free
      (leaving all as it was), and otherwise takes exactly the returned block, all of
      which was free, out of the free blocks. */
  lemma {:induction false} AllocSound(ls: Lists, tops: nat, k: nat)
    requires Inv(ls, tops)
    ensures var (ls', r) := Alloc(ls, k);
      && Inv(ls', tops)
      && (r.None? <==> !Available(ls, k)) && (r.None? ==> ls' == ls)
      && (forall m :: 0 <= m < k && m < MAX_ORDER ==> ls'[m] == ls[m])
      && (r.Some? ==> k < MAX_ORDER && r.value < Count(tops, k))
    ensures var (ls', r) := Alloc(ls, k);
      r.Some? ==> Takes(ls, ls', k, r.value)
    decreases MAX_ORDER - k
  {
    var (ls', r) := Alloc(ls, k);
    if k < MAX_ORDER {
      if ls[k] == [] {
        AllocSound(ls, tops, k + 1);
        var (ls1, r1) := Alloc(ls, k + 1);
        if r1.Some? { SplitSound(ls, tops, k); }
      } else {
        HeadSound(ls, tops, k);
      }
    }
  }

  /** The first block of a list is free and leaves. */
  lemma HeadSound(ls: Lists, tops: nat, k: nat)
    requires Inv(ls, tops) && k < MAX_ORDER && ls[k] != []
    ensures var b, ls' := ls[k][0], ls[k := ls[k][1..]]; Inv(ls', tops) && b < Count(tops, k) && Takes(ls, ls', k, b)
  {
    var b, rest := ls[k][0], ls[k][1..];
    var ls' := ls[k := rest];
    assert Listed(ls, tops, k, b) && NoDup(ls[k]);
    assert forall y :: y in ls[k] <==> y == b || y in rest;
    assert b !in rest && NoDup(rest);
    TakeInv(ls, tops, k, b, rest);
    forall j: nat, x: nat {:trigger Took(ls, ls', k, b, j, x)} | j <= k ensures Took(ls, ls', k, b, j, x)
    {
      hide Inv;
      CoveredTake(ls, tops, k, b, rest, j, x);
      if Up(x, k - j) == b { CoveredSub(ls, k, b, j, x); }
    }
  }

  lemma {:induction false} SplitSound(ls: Lists, tops: nat, k: nat)
    requires Inv(ls, tops) && k < MAX_ORDER && ls[k] == []
    requires var (ls1, r) := Alloc(ls, k + 1);
      && r.Some? && k + 1 < MAX_ORDER && r.value < Count(tops, k + 1) && Inv(ls1, tops)
      && (forall m :: 0 <= m < k + 1 ==> ls1[m] == ls[m]) && Takes(ls, ls1, k + 1, r.value)
    ensures var (ls', r) := Alloc(ls, k);
      && r.Some? && Inv(ls', tops) && r.value < Count(tops, k) && Takes(ls, ls', k, r.value)
  {
    var (ls1, r) := Alloc(ls, k + 1);
    assert Alloc(ls, k).0 == ls1[k := [2 * r.value] + ls1[k]] && Alloc(ls, k).1 == Some(2 * r.value + 1);
    assert Count(tops, k) == 2 * Count(tops, k + 1);
    hide Alloc, Count, Inv;
    HalvesSound(ls, ls1, tops, k, r.value);
  }

  /** Of block `r` of order `k + 1`, just taken, the lower half goes on list `k`. */
  lemma HalvesSound(ls: Lists, ls1: Lists, tops: nat, k: nat, r: nat)
    requires k + 1 < MAX_ORDER && Inv(ls1, tops) && Takes(ls, ls1, k + 1, r) && ls[k] == ls1[k] == []
    requires r < Count(tops, k + 1)
    ensures Inv(ls1[k := [2 * r] + ls1[k]], tops)
    ensures Takes(ls, ls1[k := [2 * r] + ls1[k]], k, 2 * r + 1)
  {
    hide Inv;
    var lower, upper, ls' := 2 * r, 2 * r + 1, ls1[k := [2 * r] + ls1[k]];
    assert Count(tops, k) == 2 * Count(tops, k + 1);
    forall j: nat, x: nat {:trigger Covered(ls1, j, x)} | j <= k && Up(x, k - j) == lower ensures !Covered(ls1, j, x) {
      UpStep(x, k - j);
      assert Took(ls, ls1, k + 1, r, j, x);
    }
    assert Unfree(ls1, k, lower);
    PutInv(ls1, tops, k, lower);
    hide Count, Unfree;
    forall j: nat, x: nat {:trigger Took(ls, ls', k, upper, j, x)} | j <= k ensures Took(ls, ls', k, upper, j, x)
    {
      CoveredPut(ls1, k, lower, j, x);
      UpStep(x, k - j);
      assert Took(ls, ls1, k + 1, r, j, x);
    }
    assert Takes(ls, ls', k, upper);
  }

  // ---------- freeing ----------

  /** Freeing a block none of whose pages is free keeps the invariant and adds
      exactly that block to the free blocks. */
  lemma {:induction false} FreeSound(ls: Lists, tops: nat, k: nat, i: nat)
    requires Inv(ls, tops) && k < MAX_ORDER && i < Count(tops, k) && Unfree(ls, k, i)
    ensures Inv(Free(ls, k, i), tops)
    ensures forall m :: 0 <= m < k ==> Free(ls, k, i)[m] == ls[m]
    ensures Adds(ls, Free(ls, k, i), k, i)
    decreases MAX_ORDER - k
  {
    var ls' := Free(ls, k, i);
    var b := Buddy(i);
    if k + 1 < MAX_ORDER && b in ls[k] {
      var l := Without(ls[k], b);
      var ls1 := ls[k := l];
      assert Listed(ls, tops, k, b);
      WithoutMember(ls[k], b);
      TakeInv(ls, tops, k, b, l);
      MergeUnfree(ls, tops, k, i);
      assert i / 2 < Count(tops, k + 1);
      FreeSound(ls1, tops, k + 1, i / 2);
      forall j: nat, x: nat {:trigger Added(ls, ls', k, i, j, x)} | j <= k ensures Added(ls, ls', k, i, j, x)
      {
        UpStep(x, k - j);
        CoveredTake(ls, tops, k, b, l, j, x);
        assert Added(ls1, ls', k + 1, i / 2, j, x);
        if Up(x, k - j) == b { CoveredSub(ls, k, b, j, x); }
      }
    } else {
      PutInv(ls, tops, k, i);
      forall j: nat, x: nat {:trigger Added(ls, ls', k, i, j, x)} | j <= k ensures Added(ls, ls', k, i, j, x)
      {
        CoveredPut(ls, k, i, j, x);
      }
    }
  }

  lemma MergeUnfree(ls: Lists, tops: nat, k: nat, i: nat)
    requires Inv(ls, tops) && k + 1 < MAX_ORDER && Unfree(ls, k, i) && Buddy(i) in ls[k]
    ensures Unfree(ls[k := Without(ls[k], Buddy(i))], k + 1, i / 2)
  {
    var b := Buddy(i);
    var ls1 := ls[k := Without(ls[k], b)];
    assert Listed(ls, tops, k, b);
    WithoutMember(ls[k], b);
    forall j: nat, x: nat {:trigger Covered(ls1, j, x)} | j <= k + 1 && Up(x, k + 1 - j) == i / 2
      ensures !Covered(ls1, j, x)
    {
      if j == k + 1 {
        assert x == i / 2 == b / 2;
        CoveredAbove(ls, k, Without(ls[k], b), j, x);
      } else {
        UpStep(x, k - j);
        CoveredTake(ls, tops, k, b, Without(ls[k], b), j, x);
      }
    }
  }

  lemma ListedInRange(ls: Lists, tops: nat, k: nat, i: nat)
    requires Inv(ls, tops) && k < MAX_ORDER && i in ls[k]
    ensures i < Count(tops, k)
  {
    assert Listed(ls, tops, k, i);
  }

  /** The range test of the code lets through the block just past the last one: freeing keeps the
      invariant for every block in range and breaks it for that one. */
  lemma FreeExact(ls: Lists, tops: nat, k: nat, i: nat)
    requires Inv(ls, tops) && k < MAX_ORDER && i <= Count(tops, k) && (i < Count(tops, k) ==> Unfree(ls, k, i))
    ensures Inv(Free(ls, k, i), tops) <==> i < Count(tops, k)
  {
    if i < Count(tops, k) {
      FreeSound(ls, tops, k, i);
    } else {
      if k + 1 < MAX_ORDER && Buddy(i) in ls[k] { ListedInRange(ls, tops, k, Buddy(i)); }
      var ls' := ls[k := [i] + ls[k]];
      assert Free(ls, k, i) == ls' && i in ls'[k] && !Listed(ls', tops, k, i);
    }
  }

  // ---------- which block, and what is left on the lists ----------

  function Power(d: nat): nat {
    if d == 0 then 1 else 2 * Power(d - 1)
  }

  /** The last of the blocks `d` orders down inside block `x`. */
  function LastIn(x: nat, d: nat): nat {
    if d == 0 then x else 2 * LastIn(x, d - 1) + 1
  }

  lemma {:induction false} LastInIs(x: nat, d: nat)
    ensures LastIn(x, d) == (x + 1) * Power(d) - 1
    decreases d
  {
    if d > 0 { LastInIs(x, d - 1); }
  }

  /** List `j` lost its head, the lists from `k` up to it got the lower half of a split each. */
  ghost predicate CutDown(ls: Lists, ls': Lists, k: nat, j: nat)
    requires k <= j < MAX_ORDER && ls[j] != []
  {
    && ls'[j] == ls[j][1..]
    && (forall m :: k <= m < j ==> ls'[m] == [2 * LastIn(ls[j][0], j - m - 1)])
    && forall m :: 0 <= m < MAX_ORDER && (m < k || m > j) ==> ls'[m] == ls[m]
  }

  /** The head of the smallest list that is large enough is cut down to its highest part; of every
      split the lower half is left, alone on its list. */
  lemma {:induction false} AllocWhich(ls: Lists, k: nat) returns (j: nat)
    requires k < MAX_ORDER
    ensures k <= j <= MAX_ORDER && forall m :: k <= m < j ==> ls[m] == []
    ensures j == MAX_ORDER ==> Alloc(ls, k) == (ls, None)
    ensures j < MAX_ORDER ==>
      && ls[j] != [] && Alloc(ls, k).1 == Some(LastIn(ls[j][0], j - k)) && CutDown(ls, Alloc(ls, k).0, k, j)
    decreases MAX_ORDER - k
  {
    if ls[k] != [] {
      j := k;
    } else if k + 1 == MAX_ORDER {
      j := MAX_ORDER;
      assert Alloc(ls, k + 1) == (ls, None);
    } else {
      j := AllocWhich(ls, k + 1);
      if j < MAX_ORDER { CutOnce(ls, Alloc(ls, k + 1).0, k, j); }
    }
  }

  lemma CutOnce(ls: Lists, ls1: Lists, k: nat, j: nat)
    requires k + 1 <= j < MAX_ORDER && ls[j] != [] && ls[k] == [] && CutDown(ls, ls1, k + 1, j)
    ensures CutDown(ls, ls1[k := [2 * LastIn(ls[j][0], j - k - 1)] + ls1[k]], k, j)
  {
    hide LastIn;
  }

  /** The buddies of block `i` and of what it is merged to left the lists from `k` up to `j`. */
  ghost predicate BuddiesOut(ls: Lists, ls': Lists, k: nat, i: nat, j: nat)
    requires k <= j < MAX_ORDER
  {
    && (forall m :: k <= m < j ==>
         Buddy(Up(i, m - k)) in ls[m] && ls'[m] == Without(ls[m], Buddy(Up(i, m - k))))
    && forall m :: 0 <= m < MAX_ORDER && (m < k || m > j) ==> ls'[m] == ls[m]
  }

  /** The block is merged with its buddy for as long as that is listed; what comes of it is put first
      on its list, and each buddy leaves its own. */
  lemma {:induction false} FreeWhich(ls: Lists, k: nat, i: nat) returns (j: nat)
    requires k < MAX_ORDER
    ensures k <= j < MAX_ORDER && Free(ls, k, i)[j] == [Up(i, j - k)] + ls[j]
    ensures j + 1 < MAX_ORDER ==> Buddy(Up(i, j - k)) !in ls[j]
    ensures BuddiesOut(ls, Free(ls, k, i), k, i, j)
    decreases MAX_ORDER - k
  {
    hide Buddy, Without;
    if k + 1 < MAX_ORDER && Buddy(i) in ls[k] {
      var ls1 := ls[k := Without(ls[k], Buddy(i))];
      j := FreeWhich(ls1, k + 1, i / 2);
      assert Up(i, j - k) == Up(i / 2, j - (k + 1));
      OneMoreOut(ls, Free(ls1, k + 1, i / 2), k, i, j);
    } else {
      j := k;
    }
  }

  lemma OneMoreOut(ls: Lists, ls': Lists, k: nat, i: nat, j: nat)
    requires k + 1 <= j < MAX_ORDER && Buddy(i) in ls[k]
    requires BuddiesOut(ls[k := Without(ls[k], Buddy(i))], ls', k + 1, i / 2, j)
    ensures BuddiesOut(ls, ls', k, i, j)
  {
    hide Buddy, Without;
    var ls1 := ls[k := Without(ls[k], Buddy(i))];
    forall m | k <= m < j
      ensures Buddy(Up(i, m - k)) in ls[m] && ls'[m] == Without(ls[m], Buddy(Up(i, m - k)))
    {
      if m > k { assert Up(i, m - k) == Up(i / 2, m - (k + 1)) && ls1[m] == ls[m]; }
    }
  }

  // ---------- allocate and free at once ----------

  /** Freeing the block just allocated puts every list back as it was, entry by entry. */
  lemma {:induction false} AllocFreeRestores(ls: Lists, tops: nat, k: nat)
    requires Inv(ls, tops) && Alloc(ls, k).1.Some?
    ensures k < MAX_ORDER
    ensures Free(Alloc(ls, k).0, k, Alloc(ls, k).1.value) == ls
    decreases MAX_ORDER - k
  {
    var (ls', r) := Alloc(ls, k);
    if ls[k] == [] {
      var (ls1, r1) := Alloc(ls, k + 1);
      AllocFreeRestores(ls, tops, k + 1);
      AllocSound(ls, tops, k + 1);
      var lower := 2 * r1.value;
      assert ls'[k] == [lower] && Buddy(r.value) == lower;
      assert Without([lower], lower) == [];
      assert ls1[k] == [] && ls' == ls1[k := [lower] + ls1[k]];
      assert ls'[k := []] == ls1;
    } else {
      assert Listed(ls, tops, k, ls[k][0]);
      assert [r.value] + ls'[k] == ls[k];
      assert ls'[k := ls[k]] == ls;
    }
  }

  // ---------- the free lists are determined by the free pages ----------

  /** Every page of block `i` of order `k` is free. */
  predicate AllFree(ls: Lists, k: nat, i: nat) {
    if k == 0 then FreePage(ls, i) else AllFree(ls, k - 1, 2 * i) && AllFree(ls, k - 1, 2 * i + 1)
  }

  /** A block all of whose pages are free lies inside one listed block: the pieces have been merged. */
  lemma {:induction false} AllFreeIsCovered(ls: Lists, tops: nat, k: nat, i: nat)
    requires Inv(ls, tops) && k < MAX_ORDER
    ensures AllFree(ls, k, i) <==> Covered(ls, k, i)
  {
    hide Count, Listed;
    if k > 0 {
      AllFreeIsCovered(ls, tops, k - 1, 2 * i);
      AllFreeIsCovered(ls, tops, k - 1, 2 * i + 1);
      if 2 * i in ls[k - 1] { BuddyOut(ls, tops, k - 1, i); }
      hide Inv;
    }
  }

  lemma BuddyOut(ls: Lists, tops: nat, k: nat, i: nat)
    requires Inv(ls, tops) && k + 1 < MAX_ORDER && 2 * i in ls[k]
    ensures 2 * i + 1 !in ls[k]
  {
    assert Listed(ls, tops, k, 2 * i);
  }

  /** A block is listed exactly when all its pages are free and those of its parent are not. */
  lemma ListedIffMaximal(ls: Lists, tops: nat, k: nat, i: nat)
    requires Inv(ls, tops) && k < MAX_ORDER
    ensures i in ls[k] <==> AllFree(ls, k, i) && (k + 1 == MAX_ORDER || !AllFree(ls, k + 1, i / 2))
  {
    AllFreeIsCovered(ls, tops, k, i);
    if k + 1 < MAX_ORDER { AllFreeIsCovered(ls, tops, k + 1, i / 2); }
    if i in ls[k] { assert Listed(ls, tops, k, i); }
  }

  ghost predicate SameFreePages(ls: Lists, ms: Lists) {
    forall p: nat :: FreePage(ls, p) == FreePage(ms, p)
  }

  lemma {:induction false} SameAllFree(ls: Lists, ms: Lists, k: nat, i: nat)
    requires SameFreePages(ls, ms)
    ensures AllFree(ls, k, i) == AllFree(ms, k, i)
  {
    if k > 0 {
      SameAllFree(ls, ms, k - 1, 2 * i);
      SameAllFree(ls, ms, k - 1, 2 * i + 1);
    }
  }

  /** Canonicity: two states with the same free pages list the same blocks, order by order. */
  lemma Canonical(ls: Lists, ms: Lists, tops: nat, k: nat)
    requires Inv(ls, tops) && Inv(ms, tops) && SameFreePages(ls, ms) && k < MAX_ORDER
    ensures forall i :: i in ls[k] <==> i in ms[k]
    ensures multiset(ls[k]) == multiset(ms[k])
  {
    forall i: nat ensures i in ls[k] <==> i in ms[k] {
      ListedIffMaximal(ls, tops, k, i);
      ListedIffMaximal(ms, tops, k, i);
      SameAllFree(ls, ms, k, i);
      SameAllFree(ls, ms, k + 1, i / 2);
    }
    NoDupMultiset(ls[k]);
    NoDupMultiset(ms[k]);
  }

  lemma {:induction false} NoDupMultiset(s: seq<nat>)
    requires NoDup(s)
    ensures forall x :: multiset(s)[x] == if x in s then 1 else 0
  {
    if s != [] {
      assert s == [s[0]] + s[1..];
      NoDupMultiset(s[1..]);
    }
  }

  // ---------- runs ----------

  /** A request as the callers make them; a block may be freed in pieces. */
  datatype Request = Take(order: nat) | Give(order: nat, block: nat)

  /** What a request asks of its caller: to give back only pages that are out. */
  ghost predicate Fair(ls: Lists, tops: nat, q: Request) {
    q.Give? ==>
      && q.order < MAX_ORDER && q.block < Count(tops, q.order)
      && forall p: nat :: Up(p, q.order) == q.block ==> !FreePage(ls, p)
  }

  function Serve(ls: Lists, q: Request): Lists {
    match q
    case Take(k) => Alloc(ls, k).0
    case Give(k, i) => if k < MAX_ORDER then Free(ls, k, i) else ls
  }

  /** The free pages as a caller would track them. */
  ghost predicate PageStep(ls: Lists, q: Request, p: nat, free: bool) {
    match q
    case Take(k) => var r := Alloc(ls, k).1; free == (FreePage(ls, p) && (r.Some? ==> Up(p, k) != r.value))
    case Give(k, i) => free == (FreePage(ls, p) || Up(p, k) == i)
  }

  lemma {:induction false} FirstPage(k: nat, i: nat) returns (p: nat)
    ensures Up(p, k) == i
  {
    if k == 0 { p := i; } else { p := FirstPage(k - 1, 2 * i); UpStep(p, k - 1); }
  }

  lemma {:induction false} UpUp(x: nat, d: nat, e: nat)
    ensures Up(Up(x, d), e) == Up(x, d + e)
  {
    if d > 0 { UpUp(x / 2, d - 1, e); }
  }

  /** No free page inside a block: nothing of it is listed or covered. */
  lemma PagesUnfree(ls: Lists, k: nat, i: nat)
    requires forall p: nat :: Up(p, k) == i ==> !FreePage(ls, p)
    ensures Unfree(ls, k, i)
  {
    forall j: nat, x: nat {:trigger Covered(ls, j, x)} | j <= k && Up(x, k - j) == i ensures !Covered(ls, j, x) {
      var p := FirstPage(j, x);
      UpUp(p, j, k - j);
      if Covered(ls, j, x) { CoveredSub(ls, j, x, 0, p); }
    }
  }

  /** One request keeps the invariant and changes exactly the pages it should. */
  lemma ServeSound(ls: Lists, tops: nat, q: Request)
    requires Inv(ls, tops) && Fair(ls, tops, q)
    ensures Inv(Serve(ls, q), tops)
    ensures forall p: nat :: PageStep(ls, q, p, FreePage(Serve(ls, q), p))
  {
    match q
    case Take(k) =>
      AllocSound(ls, tops, k);
      var (ls', r) := Alloc(ls, k);
      if r.Some? { assert forall p: nat :: Took(ls, ls', k, r.value, 0, p); }
    case Give(k, i) =>
      PagesUnfree(ls, k, i);
      FreeSound(ls, tops, k, i);
      assert forall p: nat :: Added(ls, Free(ls, k, i), k, i, 0, p);
  }

  function Run(ls: Lists, qs: seq<Request>): Lists
    decreases qs
  {
    if qs == [] then ls else Run(Serve(ls, qs[0]), qs[1..])
  }

  ghost predicate FairRun(ls: Lists, tops: nat, qs: seq<Request>)
    decreases qs
  {
    qs == [] || (Fair(ls, tops, qs[0]) && FairRun(Serve(ls, qs[0]), tops, qs[1..]))
  }

  lemma {:induction false} RunSound(ls: Lists, tops: nat, qs: seq<Request>)
    requires Inv(ls, tops) && FairRun(ls, tops, qs)
    ensures Inv(Run(ls, qs), tops)
    decreases qs
  {
    if qs != [] {
      ServeSound(ls, tops, qs[0]);
      RunSound(Serve(ls, qs[0]), tops, qs[1..]);
    }
  }

  /** However two runs got there, equal free pages mean equal free lists up to order. */
  lemma RunsCanonical(ls: Lists, ms: Lists, tops: nat, qs: seq<Request>, rs: seq<Request>, k: nat)
    requires Inv(ls, tops) && FairRun(ls, tops, qs) && Inv(ms, tops) && FairRun(ms, tops, rs)
    requires SameFreePages(Run(ls, qs), Run(ms, rs)) && k < MAX_ORDER
    ensures multiset(Run(ls, qs)[k]) == multiset(Run(ms, rs)[k])
  {
    RunSound(ls, tops, qs);
    RunSound(ms, tops, rs);
    Canonical(Run(ls, qs), Run(ms, rs), tops, k);
  }

  // ---------- freeing page by page ----------

  function FreePages(ls: Lists, ps: seq<nat>): Lists
    decreases ps
  {
    if ps == [] then ls else FreePages(Free(ls, 0, ps[0]), ps[1..])
  }

  lemma {:induction false} FreePagesSound(ls: Lists, tops: nat, ps: seq<nat>)
    requires Inv(ls, tops) && NoDup(ps)
    requires forall p :: p in ps ==> p < Count(tops, 0) && !FreePage(ls, p)
    ensures Inv(FreePages(ls, ps), tops)
    ensures forall p: nat :: FreePage(FreePages(ls, ps), p) <==> FreePage(ls, p) || p in ps
    decreases ps
  {
    if ps != [] {
      var q := Give(0, ps[0]);
      assert ps[0] in ps && forall p: nat :: Up(p, 0) == p;
      ServeSound(ls, tops, q);
      assert forall p: nat :: PageStep(ls, q, p, FreePage(Serve(ls, q), p));
      assert forall p :: p in ps <==> p == ps[0] || p in ps[1..];
      FreePagesSound(Free(ls, 0, ps[0]), tops, ps[1..]);
    }
  }

  /** Freeing a block page by page, in any order, ends with the same blocks listed as freeing it at once. */
  lemma PageByPage(ls: Lists, tops: nat, k: nat, i: nat, ps: seq<nat>, m: nat)
    requires Inv(ls, tops) && Fair(ls, tops, Give(k, i)) && m < MAX_ORDER
    requires NoDup(ps) && forall p: nat :: p in ps <==> Up(p, k) == i
    ensures multiset(FreePages(ls, ps)[m]) == multiset(Free(ls, k, i)[m])
  {
    forall p | p in ps ensures p < Count(tops, 0) { InRange(tops, k, i, p); }
    FreePagesSound(ls, tops, ps);
    ServeSound(ls, tops, Give(k, i));
    assert forall p: nat :: PageStep(ls, Give(k, i), p, FreePage(Free(ls, k, i), p));
    Canonical(FreePages(ls, ps), Free(ls, k, i), tops, m);
  }

  lemma {:induction false} InRange(tops: nat, k: nat, i: nat, p: nat)
    requires k < MAX_ORDER && i < Count(tops, k) && Up(p, k) == i
    ensures p < Count(tops, 0)
  {
    if k > 0 {
      UpStep(p, k - 1);
      InRange(tops, k - 1, Up(p, k - 1), p);
    }
  }
}
