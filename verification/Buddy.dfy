/** The buddy allocator's state in place: list heads and counts per order, the
    pointer words of every page, one bit per pair of buddies, and the page table
    of types and reference counts. */
module Buddy {
  import opened Common
  import opened BuddySpec
  import opened BuddyLinks
  import opened Words

  const PAGE_TYPE_FREE_USABLE: nat := 0x11

  /** Exactly one of the two buddies of pair `b` is listed. */
  predicate PairBit(ls: Lists, k: nat, b: nat)
    requires k < MAX_ORDER
  {
    (2 * b in ls[k]) != (2 * b + 1 in ls[k])
  }

  /** Pair `b` of the top order is a block without a buddy. */
  predicate LastOdd(tops: nat, k: nat, b: nat) {
    k == TOP && 2 * b + 1 == tops
  }

  lemma {:induction false} UpHalf(p: nat, d: nat)
    ensures Up(p, d + 1) <= p / 2
  {
    if d > 0 { UpHalf(p / 2, d - 1); }
  }

  predicate InBlock(p: nat, k: nat, i: nat) {
    Shl(i, k) <= p < Shl(i, k) + Shl(1, k)
  }

  /** Taking a block off its list or putting one on flips its pair's bit and no other. */
  lemma FlipTake(ls: Lists, k: nat, l: seq<nat>, r: nat, m: nat, c: nat)
    requires k < MAX_ORDER && m < MAX_ORDER && r in ls[k]
    requires forall y :: y in l <==> y in ls[k] && y != r
    ensures PairBit(ls[k := l], m, c) == if m == k && c == r / 2 then !PairBit(ls, m, c) else PairBit(ls, m, c)
  {
  }

  lemma FlipPut(ls: Lists, k: nat, r: nat, m: nat, c: nat)
    requires k < MAX_ORDER && m < MAX_ORDER && r !in ls[k]
    ensures PairBit(ls[k := [r] + ls[k]], m, c) ==
      if m == k && c == r / 2 then !PairBit(ls, m, c) else PairBit(ls, m, c)
  {
  }

  lemma TakenOff(ls: Lists, tops: nat, pages: nat, k: nat, x: nat, w: Links)
    requires Inv(ls, tops) && k < MAX_ORDER && x in ls[k] && AllChains(w, ls, pages)
    ensures Inv(ls[k := Without(ls[k], x)], tops)
    ensures |Without(ls[k], x)| == |ls[k]| - 1 && forall y :: y in Without(ls[k], x) <==> y in ls[k] && y != x
    ensures var p := Shl(x, k);
      && p < pages && |w.next| == |w.prev| == pages && k < |w.heads|
      && (w.prev[p] != NULL ==> 0 <= w.prev[p] < pages) && (w.next[p] != NULL ==> 0 <= w.next[p] < pages)
      && AllChains(Detached(w, p, k), ls[k := Without(ls[k], x)], pages)
  {
    WithoutMember(ls[k], x);
    TakeInv(ls, tops, k, x, Without(ls[k], x));
    DetachChains(w, ls, tops, pages, k, x);
  }

  lemma HeadNew(l: seq<nat>, ls: Lists, tops: nat, k: nat, x: nat)
    requires Inv(ls, tops) && k < MAX_ORDER && ls[k] == [x] + l
    ensures x !in l
  {
    assert NoDup(ls[k]) && ls[k][0] == x;
    forall i | 0 <= i < |l| ensures l[i] != x { assert l[i] == ls[k][i + 1]; }
  }

  lemma PutOn(ls: Lists, tops: nat, pages: nat, k: nat, x: nat, w: Links)
    requires Inv(ls, tops) && k < MAX_ORDER && AllChains(w, ls, pages) && pages == Count(tops, 0)
    requires x < Count(tops, k) && Inv(ls[k := [x] + ls[k]], tops)
    ensures x !in ls[k]
    ensures var p := Shl(x, k);
      && p + Shl(1, k) <= pages && |w.next| == |w.prev| == pages && k < |w.heads| && p < pages
      && (w.heads[k] != NULL ==> 0 <= w.heads[k] < pages)
      && AllChains(Attached(w, p, k), ls[k := [x] + ls[k]], pages)
  {
    HeadNew(ls[k], ls[k := [x] + ls[k]], tops, k, x);
    hide Inv, Shl, Count, Attached, Chain;
    ShlInRange(tops, k, x);
    UpRange(Shl(x, k), k, x);
    AttachChains(w, ls, tops, pages, k, x);
  }

  lemma HeadListed(w: Links, ls: Lists, tops: nat, pages: nat, k: nat)
    requires Inv(ls, tops) && k < MAX_ORDER && AllChains(w, ls, pages) && ls[k] != []
    ensures w.heads[k] == Shl(ls[k][0], k) && Without(ls[k], ls[k][0]) == ls[k][1..]
  {
    assert Chain(w, k, ls[k]);
  }

  /** What is known of a block about to be freed. */
  lemma FreeReady(ls: Lists, tops: nat, k: nat, i: nat)
    requires Inv(ls, tops) && k < MAX_ORDER && i < Count(tops, k) && Fair(ls, tops, Give(k, i))
    ensures i !in ls[k]
    ensures Unfree(ls, k, i)
    ensures Shl(i, k) + Shl(1, k) <= Count(tops, 0) && Up(Shl(i, k), k + 1) == i / 2 && Up(Shl(i, k), k) == i
  {
    hide Count, Shl;
    PagesUnfree(ls, k, i);
    assert !Covered(ls, k, i) by { assert Up(i, 0) == i; }
    ShlInRange(tops, k, i);
    UpShl(i, k);
  }

  /** After the flip the bit is 0 exactly when the buddy is listed. */
  lemma BitTells(ls: Lists, tops: nat, k: nat, i: nat)
    requires k < MAX_ORDER && i !in ls[k]
    ensures PairBit(ls, k, i / 2) <==> BuddySpec.Buddy(i) in ls[k]
  {
  }

  /** The buddy's address, as the code computes it. */
  lemma BuddyPage(tops: nat, k: nat, i: nat)
    requires k + 1 < MAX_ORDER && i < Count(tops, k)
    ensures var b := BuddySpec.Buddy(i);
      && Shl(b, k) == (if Shl(i, k) == Shl(i / 2, k + 1) then Shl(i, k) + Shl(1, k) else Shl(i, k) - Shl(1, k))
      && (if Shl(b, k) < Shl(i, k) then Shl(b, k) else Shl(i, k)) == Shl(i / 2, k + 1)
      && i / 2 < Count(tops, k + 1)
  {
    hide Shl;
    ShlStep(i / 2, k);
    ShlAdd(2 * (i / 2), 1, k);
  }

  lemma MergeFair(ls: Lists, tops: nat, k: nat, i: nat)
    requires Inv(ls, tops) && k + 1 < MAX_ORDER && i < Count(tops, k) && Unfree(ls, k, i) && BuddySpec.Buddy(i) in ls[k]
    ensures Fair(ls[k := Without(ls[k], BuddySpec.Buddy(i))], tops, Give(k + 1, i / 2))
    ensures Up(Shl(i / 2, k + 1), k + 1) == i / 2 && Shl(i / 2, k + 1) < Count(tops, 0)
    ensures Shl(i / 2, k + 1) <= Shl(i, k) && Shl(i, k) + Shl(1, k) <= Shl(i / 2, k + 1) + Shl(1, k + 1)
  {
    hide Shl, Inv, Count, Covered, Without;
    var ls1 := ls[k := Without(ls[k], BuddySpec.Buddy(i))];
    MergeUnfree(ls, tops, k, i);
    assert forall p: nat :: Up(p, k + 1) == i / 2 ==> !Covered(ls1, 0, p);
    hide Unfree;
    MergeRange(tops, k, i);
  }

  /** The merged block: where it starts, and that it takes the freed one in. */
  lemma MergeRange(tops: nat, k: nat, i: nat)
    requires k + 1 < MAX_ORDER && i < Count(tops, k)
    ensures i / 2 < Count(tops, k + 1)
    ensures Up(Shl(i / 2, k + 1), k + 1) == i / 2 && Shl(i / 2, k + 1) < Count(tops, 0)
    ensures Shl(i / 2, k + 1) <= Shl(i, k) && Shl(i, k) + Shl(1, k) <= Shl(i / 2, k + 1) + Shl(1, k + 1)
  {
    assert Count(tops, k) == 2 * Count(tops, k + 1);
    hide Shl;
    UpShl(i / 2, k + 1);
    ShlInRange(tops, k + 1, i / 2);
    ShlStep(i / 2, k);
    ShlStep(1, k);
    ShlAdd(2 * (i / 2), 1, k);
    ShlAdd(1, 1, k);
  }

  lemma PutFair(ls: Lists, tops: nat, k: nat, i: nat)
    requires Inv(ls, tops) && k < MAX_ORDER && i < Count(tops, k) && Unfree(ls, k, i)
    requires k + 1 < MAX_ORDER ==> BuddySpec.Buddy(i) !in ls[k]
    ensures Inv(ls[k := [i] + ls[k]], tops)
    ensures forall p: nat :: InBlock(p, k, i) ==> FreePage(ls[k := [i] + ls[k]], p)
  {
    PutInv(ls, tops, k, i);
    forall p: nat | InBlock(p, k, i) ensures FreePage(ls[k := [i] + ls[k]], p) {
      UpRange(p, k, i);
      CoveredPut(ls, k, i, 0, p);
    }
  }

  lemma EmptyState(w: Links, ls: Lists, tops: nat, pages: nat)
    requires |w.heads| == MAX_ORDER && |w.next| == |w.prev| == pages
    requires forall k :: 0 <= k < MAX_ORDER ==> ls[k] == [] && w.heads[k] == NULL
    ensures Inv(ls, tops) && AllChains(w, ls, pages)
    ensures forall k, b :: 0 <= k < MAX_ORDER && 0 <= b ==> !PairBit(ls, k, b)
  {
  }

  /** With only top-order blocks listed, one more can be put on. */
  lemma OnlyTops(ls: Lists, tops: nat, i: nat)
    requires Inv(ls, tops) && i < tops && i !in ls[TOP]
    requires forall k :: 0 <= k < TOP ==> ls[k] == []
    ensures Inv(ls[TOP := [i] + ls[TOP]], tops)
  {
    var top := TOP;
    var ls' := ls[top := [i] + ls[top]];
    forall k, j | 0 <= k < MAX_ORDER && j in ls'[k] ensures Listed(ls', tops, k, j) {
      if j != i { assert Listed(ls, tops, top, j); }
    }
  }

  lemma TopBits(ls: Lists, tops: nat, k: nat, b: nat)
    requires k < MAX_ORDER && forall m :: 0 <= m < TOP ==> ls[m] == []
    requires forall i :: i in ls[TOP] <==> 0 <= i < tops
    ensures PairBit(ls, k, b) == LastOdd(tops, k, b)
  {
  }

  lemma TopsCover(ls: Lists, tops: nat)
    requires forall k :: 0 <= k < TOP ==> ls[k] == []
    requires forall i :: i in ls[TOP] <==> 0 <= i < tops
    ensures forall p: nat :: FreePage(ls, p) <==> p < Count(tops, 0)
  {
    forall p: nat ensures FreePage(ls, p) <==> p < Count(tops, 0) { TopCover(ls, tops, 0, p); }
  }

  lemma {:induction false} TopCover(ls: Lists, tops: nat, k: nat, x: nat)
    requires forall k :: 0 <= k < TOP ==> ls[k] == []
    requires forall i :: i in ls[TOP] <==> 0 <= i < tops
    requires k < MAX_ORDER
    ensures Covered(ls, k, x) <==> x < Count(tops, k)
    decreases MAX_ORDER - k
  {
    if k + 1 < MAX_ORDER { TopCover(ls, tops, k + 1, x / 2); }
  }

  /** Allocation on pages rather than blocks. */
  lemma TakenPages(ls: Lists, tops: nat, k: nat)
    requires Inv(ls, tops) && Alloc(ls, k).1.Some? && k < MAX_ORDER
    ensures var b := Alloc(ls, k).1.value;
      && Up(Shl(b, k), k) == b
      && forall p: nat ::
        && FreePage(Alloc(ls, k).0, p) == (FreePage(ls, p) && !InBlock(p, k, b))
        && (InBlock(p, k, b) ==> FreePage(ls, p))
  {
    var (ls', r) := Alloc(ls, k);
    AllocSound(ls, tops, k);
    UpShl(r.value, k);
    forall p: nat ensures FreePage(ls', p) == (FreePage(ls, p) && !InBlock(p, k, r.value))
      ensures InBlock(p, k, r.value) ==> FreePage(ls, p)
    {
      UpRange(p, k, r.value);
      assert Took(ls, ls', k, r.value, 0, p);
    }
  }

  lemma GivenPages(ls: Lists, tops: nat, k: nat, i: nat)
    requires Inv(ls, tops) && Fair(ls, tops, Give(k, i))
    ensures forall p: nat :: FreePage(Free(ls, k, i), p) == (FreePage(ls, p) || InBlock(p, k, i))
  {
    ServeSound(ls, tops, Give(k, i));
    forall p: nat ensures FreePage(Free(ls, k, i), p) == (FreePage(ls, p) || InBlock(p, k, i)) {
      UpRange(p, k, i);
      assert PageStep(ls, Give(k, i), p, FreePage(Serve(ls, Give(k, i)), p));
    }
  }

  lemma ShlStep(i: nat, k: nat)
    ensures Shl(i, k + 1) == Shl(2 * i, k)
    ensures Shl(1, k) > 0
  {
    UpRange(0, k, 0);
  }

  lemma Halves(tops: nat, k: nat, i: nat)
    requires k + 1 < MAX_ORDER && 2 * i + 1 < Count(tops, k)
    ensures Shl(i, k + 1) == Shl(2 * i, k) && Shl(2 * i + 1, k) == Shl(2 * i, k) + Shl(1, k)
    ensures Shl(2 * i + 1, k) < Count(tops, 0) && Up(Shl(2 * i + 1, k), k + 1) == i
  {
    hide Shl, Up, Count;
    ShlStep(i, k);
    ShlAdd(2 * i, 1, k);
    ShlInRange(tops, k, 2 * i + 1);
    UpShl(2 * i + 1, k);
  }

  /** The pages of an allocated block were all free before. */
  lemma BlockPages(ls: Lists, tops: nat, k: nat, i: nat)
    requires Inv(ls, tops) && Alloc(ls, k).1 == Some(i)
    ensures forall p: nat :: InBlock(p, k, i) ==> FreePage(ls, p)
  {
    AllocSound(ls, tops, k);
    forall p: nat | InBlock(p, k, i) ensures FreePage(ls, p) {
      UpRange(p, k, i);
      assert Took(ls, Alloc(ls, k).0, k, i, 0, p);
    }
  }

  /** The cases of an allocation, and what each needs. */
  lemma AllocCases(ls: Lists, tops: nat, k: nat)
    requires Inv(ls, tops) && k < MAX_ORDER
    ensures var (ls', r) := Alloc(ls, k);
      && Inv(ls', tops) && (r.Some? ==> r.value < Count(tops, k))
      && (ls[k] != [] ==> r == Some(ls[k][0]) && ls' == ls[k := ls[k][1..]] && ls[k][0] in ls[k])
      && (ls[k] == [] ==> var (ls1, r1) := Alloc(ls, k + 1);
        && (r1.None? <==> r.None?) && (r1.None? ==> ls' == ls)
        && (r1.Some? ==>
          && r == Some(2 * r1.value + 1) && ls' == ls1[k := [2 * r1.value] + ls1[k]]
          && k + 1 < MAX_ORDER && 2 * r1.value + 1 < Count(tops, k)))
  {
    AllocSound(ls, tops, k);
    AllocSound(ls, tops, k + 1);
    hide Inv, Takes;
  }

  /** What is known of a block just allocated. */
  lemma JustAllocated(ls: Lists, tops: nat, k: nat)
    requires Inv(ls, tops) && Alloc(ls, k).1.Some?
    ensures k < MAX_ORDER
    ensures var (ls', r) := Alloc(ls, k); var p := Shl(r.value, k);
      p + Shl(1, k) <= Count(tops, 0) && Up(p, k) == r.value && Fair(ls', tops, Give(k, r.value)) && p < Count(tops, 0)
  {
    var (ls', r) := Alloc(ls, k);
    AllocSound(ls, tops, k);
    hide Inv, Count, Shl, Covered, Alloc;
    ShlInRange(tops, k, r.value);
    UpShl(r.value, k);
    UpRange(Shl(r.value, k), k, r.value);
    forall p: nat | Up(p, k) == r.value ensures !FreePage(ls', p) { assert Took(ls, ls', k, r.value, 0, p); }
  }

  /** The head words are determined by the lists. */
  lemma SameHeads(w: Links, w': Links, ls: Lists, pages: nat)
    requires AllChains(w, ls, pages) && AllChains(w', ls, pages) && |w.heads| == |w'.heads| == MAX_ORDER
    ensures w'.heads == w.heads
  {
    forall k | 0 <= k < MAX_ORDER ensures w'.heads[k] == w.heads[k] {
      assert Chain(w, k, ls[k]) && Chain(w', k, ls[k]);
    }
  }

  class MemoryInfo {
    const tops: nat
    const pages: nat
    const freeList: array<int>
    const freeCount: array<int>
    const next: array<int>
    const prev: array<int>
    const attr: array<int>
    const reference: array<int>
    const buddyMap: array2<bool>
    ghost var lists: Lists

    ghost predicate Shape() {
      && pages == Count(tops, 0)
      && freeList.Length == freeCount.Length == MAX_ORDER
      && next.Length == prev.Length == attr.Length == reference.Length == pages
      && buddyMap.Length0 == MAX_ORDER && buddyMap.Length1 == pages / 2 + 1
      && freeList != freeCount && freeList != next && freeList != prev && freeList != attr && freeList != reference
      && freeCount != next && freeCount != prev && freeCount != attr && freeCount != reference
      && next != prev && next != attr && next != reference && prev != attr && prev != reference && attr != reference
    }

    ghost function Words(): Links
      reads next, prev, freeList
    {
      Links(next[..], prev[..], freeList[..])
    }

    ghost predicate Counted()
      reads this, freeCount
      requires Shape()
    {
      forall k :: 0 <= k < MAX_ORDER ==> freeCount[k] == |lists[k]|
    }

    /** Each bit is the exclusive or of the two buddies' being listed; in the top order, whose
        blocks were listed at the start without a flip, turned around for a last odd block. */
    ghost predicate BitsMatch()
      reads this, buddyMap
      requires Shape()
    {
      forall k, b :: 0 <= k < MAX_ORDER && 0 <= b < buddyMap.Length1 ==>
        buddyMap[k, b] == (PairBit(lists, k, b) != LastOdd(tops, k, b))
    }

    /** Everything but the bits. */
    ghost predicate Linked()
      reads this, next, prev, freeList, freeCount
    {
      Shape() && Inv(lists, tops) && AllChains(Words(), lists, pages) && Counted()
    }

    ghost predicate Valid()
      reads this, next, prev, freeList, freeCount, buddyMap
    {
      Linked() && BitsMatch()
    }

    method RemoveFromFreeList(p: nat, order: nat) returns (r: nat)
      requires Shape() && order < MAX_ORDER && p < pages
      requires prev[p] != NULL ==> 0 <= prev[p] < pages
      requires next[p] != NULL ==> 0 <= next[p] < pages
      modifies next, prev, freeList
      ensures r == p && Words() == Detached(old(Words()), p, order)
    {
      ghost var w := Words();
      if prev[p] != NULL {
        next[prev[p]] := next[p];
        if next[p] != NULL { prev[next[p]] := prev[p]; }
      } else {
        freeList[order] := next[p];
        if next[p] != NULL { prev[next[p]] := NULL; }
      }
      next[p] := NULL;
      prev[p] := NULL;
      r := p;
    }

    method AttachToFreeList(p: nat, order: nat)
      requires Shape() && order < MAX_ORDER && p < pages
      requires freeList[order] != NULL ==> 0 <= freeList[order] < pages
      modifies next, prev, freeList
      ensures Words() == Attached(old(Words()), p, order)
    {
      next[p] := freeList[order];
      if next[p] != NULL { prev[next[p]] := p; }
      prev[p] := NULL;
      freeList[order] := p;
    }

    method XorBuddyMap(p: nat, order: nat) returns (bit: int)
      requires Shape() && order < MAX_ORDER && p < pages
      modifies buddyMap
      ensures Up(p, order + 1) < buddyMap.Length1
      ensures var b := Up(p, order + 1);
        forall k, c :: 0 <= k < MAX_ORDER && 0 <= c < buddyMap.Length1 ==>
          buddyMap[k, c] == if k == order && c == b then !old(buddyMap[k, c]) else old(buddyMap[k, c])
      ensures bit == if buddyMap[order, Up(p, order + 1)] then 1 else 0
    {
      UpHalf(p, order);
      var b := Up(p, order + 1);
      buddyMap[order, b] := !buddyMap[order, b];
      bit := if buddyMap[order, b] then 1 else 0;
    }

    method SetPageInfo(p: nat, n: nat, a: int, r: int)
      requires Shape() && p + n <= pages
      modifies attr, reference
      ensures forall q :: 0 <= q < pages ==>
        && attr[q] == (if p <= q < p + n then a else old(attr[q]))
        && reference[q] == (if p <= q < p + n then r else old(reference[q]))
    {
      for i := 0 to n
        invariant forall q :: 0 <= q < pages ==>
          && attr[q] == (if p <= q < p + i then a else old(attr[q]))
          && reference[q] == (if p <= q < p + i then r else old(reference[q]))
      {
        attr[p + i] := a;
        reference[p + i] := r;
      }
    }

    ghost function Lower(): set<object> {
      {next, prev, freeList, freeCount, buddyMap}
    }

    /** Takes listed block `x` off its list; with its count and its pair's bit. */
    method Unlist(p: nat, order: nat, ghost x: nat)
      requires Valid() && order < MAX_ORDER && x in lists[order] && p == Shl(x, order)
      modifies Lower(), this`lists
      ensures Valid() && lists == old(lists)[order := Without(old(lists)[order], x)]
      ensures p < pages
    {
      hide Inv, AllChains;
      ghost var ls, l := lists, Without(lists[order], x);
      TakenOff(ls, tops, pages, order, x, Words());
      var r := RemoveFromFreeList(p, order);
      freeCount[order] := freeCount[order] - 1;
      var bit := XorBuddyMap(p, order);
      lists := ls[order := l];
      UpShl(x, order);
      forall k, c | 0 <= k < MAX_ORDER && 0 <= c < buddyMap.Length1 ensures
        PairBit(lists, k, c) == if k == order && c == x / 2 then !PairBit(ls, k, c) else PairBit(ls, k, c) {
        FlipTake(ls, order, l, x, k, c);
      }
    }

    /** Splits block `i` of the next order: its lower half is listed, its upper half returned. */
    method Split(p: nat, order: nat, ghost i: nat) returns (upper: nat)
      requires Valid() && order + 1 < MAX_ORDER && p == Shl(i, order + 1)
      requires 2 * i + 1 < Count(tops, order) && Inv(lists[order := [2 * i] + lists[order]], tops)
      modifies Lower(), this`lists
      ensures Valid() && lists == old(lists)[order := [2 * i] + old(lists)[order]]
      ensures upper == Shl(2 * i + 1, order)
    {
      hide Inv, AllChains, Shl, Up, Count;
      ghost var ls := lists;
      Halves(tops, order, i);
      PutOn(ls, tops, pages, order, 2 * i, Words());
      AttachToFreeList(p, order);
      freeCount[order] := freeCount[order] + 1;
      upper := p + Shl(1, order);
      var bit := XorBuddyMap(upper, order);
      lists := ls[order := [2 * i] + ls[order]];
      forall k, c | 0 <= k < MAX_ORDER && 0 <= c < buddyMap.Length1 ensures
        PairBit(lists, k, c) == if k == order && c == i then !PairBit(ls, k, c) else PairBit(ls, k, c) {
        FlipPut(ls, order, 2 * i, k, c);
      }
    }

    ghost predicate Untouched(ls: Lists, a: seq<int>, r: seq<int>)
      reads attr, reference
      requires |a| == attr.Length && |r| == reference.Length
    {
      && (forall p: nat {:trigger attr[p]} :: p < attr.Length && !FreePage(ls, p) ==> attr[p] == a[p])
      && (forall p: nat {:trigger reference[p]} :: p < reference.Length && !FreePage(ls, p) ==> reference[p] == r[p])
    }

    /** `allocate_pages_of_power_2`: NULL exactly when nothing large enough is free. */
    method AllocatePagesOfPower2(order: nat, a: int) returns (block: int)
      requires Valid()
      modifies Lower(), this`lists, attr, reference
      ensures Valid()
      ensures var (ls, r) := Alloc(old(lists), order);
        lists == ls && block == (if r.None? then NULL else Shl(r.value, order))
      ensures block == NULL ==> unchanged(Lower()) && unchanged(attr) && unchanged(reference)
      ensures block != NULL ==> order < MAX_ORDER && 0 <= block && block + Shl(1, order) <= pages
      ensures block != NULL ==> forall p :: block <= p < block + Shl(1, order) ==> attr[p] == a && reference[p] == 1
      ensures Untouched(old(lists), old(attr[..]), old(reference[..]))
      decreases MAX_ORDER - order
    {
      hide Inv, AllChains, Shl, Up, Count, PairBit, FreePage, LastOdd;
      if order >= MAX_ORDER { return NULL; }
      ghost var ls := lists;
      AllocCases(ls, tops, order);
      ghost var r := Alloc(ls, order).1;
      if freeCount[order] == 0 {
        block := AllocatePagesOfPower2(order + 1, 0);
        if block == NULL { return NULL; }
        block := Split(block, order, Alloc(ls, order + 1).1.value);
      } else {
        HeadListed(Words(), ls, tops, pages, order);
        block := freeList[order];
        Unlist(block, order, ls[order][0]);
      }
      if block != NULL {
        ShlInRange(tops, order, r.value);
        BlockPages(ls, tops, order, r.value);
        SetPageInfo(block, Shl(1, order), a, 1);
      }
    }

    /** Valid, except that the bit of pair `c` of order `k` has been flipped. */
    ghost predicate Flipped(k: nat, c: nat)
      reads this, next, prev, freeList, freeCount, buddyMap
    {
      && Linked()
      && forall m, b :: 0 <= m < MAX_ORDER && 0 <= b < buddyMap.Length1 ==>
        buddyMap[m, b] == ((PairBit(lists, m, b) != LastOdd(tops, m, b)) != (m == k && b == c))
    }

    /** The buddy `x` leaves its list; its pair's bit is already flipped. */
    method TakeBuddy(p: nat, order: nat, ghost x: nat)
      requires order < MAX_ORDER && Flipped(order, x / 2) && x in lists[order] && p == Shl(x, order)
      modifies next, prev, freeList, freeCount, this`lists
      ensures Valid() && lists == old(lists)[order := Without(old(lists)[order], x)]
    {
      hide Inv, AllChains, PairBit;
      ghost var ls, l := lists, Without(lists[order], x);
      TakenOff(ls, tops, pages, order, x, Words());
      var r := RemoveFromFreeList(p, order);
      freeCount[order] := freeCount[order] - 1;
      lists := ls[order := l];
      forall k, c | 0 <= k < MAX_ORDER && 0 <= c < buddyMap.Length1 ensures
        PairBit(lists, k, c) == if k == order && c == x / 2 then !PairBit(ls, k, c) else PairBit(ls, k, c) {
        FlipTake(ls, order, l, x, k, c);
      }
    }

    /** The freed block goes on its list with its page information cleared; its pair's bit is already flipped. */
    method PutBack(p: nat, order: nat, ghost i: nat)
      requires order < MAX_ORDER && Flipped(order, i / 2) && i < Count(tops, order) && p == Shl(i, order)
      requires Inv(lists[order := [i] + lists[order]], tops)
      modifies next, prev, freeList, freeCount, this`lists, attr, reference
      ensures Valid() && lists == old(lists)[order := [i] + old(lists)[order]]
      ensures p + Shl(1, order) <= pages
      ensures forall q :: 0 <= q < pages ==>
        && attr[q] == (if p <= q < p + Shl(1, order) then PAGE_TYPE_FREE_USABLE else old(attr[q]))
        && reference[q] == (if p <= q < p + Shl(1, order) then 0 else old(reference[q]))
    {
      hide Inv, AllChains, PairBit, Shl, Count;
      ghost var ls := lists;
      PutOn(ls, tops, pages, order, i, Words());
      AttachToFreeList(p, order);
      SetPageInfo(p, Shl(1, order), PAGE_TYPE_FREE_USABLE, 0);
      freeCount[order] := freeCount[order] + 1;
      lists := ls[order := [i] + ls[order]];
      forall k, c | 0 <= k < MAX_ORDER && 0 <= c < buddyMap.Length1 ensures
        PairBit(lists, k, c) == if k == order && c == i / 2 then !PairBit(ls, k, c) else PairBit(ls, k, c) {
        FlipPut(ls, order, i, k, c);
      }
    }

    /** `free_pages_of_power_2`: 1 for NULL, 2 for a page outside the usable range, otherwise the block
        is freed. The range test lets `usable_end` itself through; callers must not pass it. */
    method FreePagesOfPower2(p: int, order: nat) returns (code: int)
      requires Valid() && order < MAX_ORDER
      requires 0 <= p <= pages ==>
        p < pages && p == Shl(Up(p, order), order) && Fair(lists, tops, Give(order, Up(p, order)))
      modifies Lower(), this`lists, attr, reference
      ensures code == if p == NULL then 1 else if p < 0 || p > pages then 2 else 0
      ensures code != 0 ==> lists == old(lists) && unchanged(Lower()) && unchanged(attr) && unchanged(reference)
      ensures code == 0 ==> 0 <= p && p + Shl(1, order) <= pages
      ensures Valid()
      ensures code == 0 ==> lists == Free(old(lists), order, Up(p, order))
      ensures code == 0 ==> forall q :: p <= q < p + Shl(1, order) ==>
        attr[q] == 0x11 && reference[q] == 0
      ensures Untouched(lists, old(attr[..]), old(reference[..]))
      decreases MAX_ORDER - order
    {
      hide Inv, AllChains, Shl, Up, Count, PairBit, Unfree, Covered;
      if p == NULL { return 1; }
      if !(p >= 0 && p <= pages) { return 2; }
      ghost var ls, i := lists, Up(p, order);
      FreeReady(ls, tops, order, i);
      var bit := XorBuddyMap(p, order);
      BitTells(ls, tops, order, i);
      if bit == 0 && order + 1 < MAX_ORDER {
        var even := Shl(Up(p, order + 1), order + 1);
        var buddy := if p == even then p + Shl(1, order) else p - Shl(1, order);
        BuddyPage(tops, order, i);
        MergeFair(ls, tops, order, i);
        TakeBuddy(buddy, order, BuddySpec.Buddy(i));
        if buddy < p {
          code := FreePagesOfPower2(buddy, order + 1);
        } else {
          code := FreePagesOfPower2(p, order + 1);
        }
        assert code == 0;
        assert Untouched(lists, old(attr[..]), old(reference[..]));
      } else {
        PutFair(ls, tops, order, i);
        PutBack(p, order, i);
        assert forall q: nat {:trigger FreePage(lists, q)} :: InBlock(q, order, i) ==> FreePage(lists, q);
        assert Untouched(lists, old(attr[..]), old(reference[..]));
      }
      return 0;
    }

    /** `init_memory` for a usable range that is a whole number of top-order blocks:
        every top-order block is free, every count, bit and reference zero or clear. */
    constructor (n: nat)
      ensures Valid() && tops == n
      ensures forall k :: 0 <= k < TOP ==> lists[k] == []
      ensures forall i :: i in lists[TOP] <==> 0 <= i < n
      ensures forall p: nat :: FreePage(lists, p) <==> p < pages
      ensures forall p :: 0 <= p < pages ==> attr[p] == 0x11 && reference[p] == 0
    {
      tops, pages := n, Count(n, 0);
      freeList := new int[MAX_ORDER](_ => NULL);
      freeCount := new int[MAX_ORDER](_ => 0);
      next := new int[Count(n, 0)](_ => NULL);
      prev := new int[Count(n, 0)](_ => NULL);
      attr := new int[Count(n, 0)](_ => PAGE_TYPE_FREE_USABLE);
      reference := new int[Count(n, 0)](_ => 0);
      buddyMap := new bool[MAX_ORDER, Count(n, 0) / 2 + 1]((_, _) => false);
      lists := seq(MAX_ORDER, _ => []);
      new;
      hide Inv, AllChains, Count, PairBit, Covered;
      EmptyState(Words(), lists, tops, pages);
      LinkTops();
      TopsCover(lists, tops);
      forall k, b: nat | 0 <= k < MAX_ORDER
        ensures PairBit(lists, k, b) == LastOdd(tops, k, b)
      {
        TopBits(lists, tops, k, b);
      }
    }

    /** The loop of `init_memory` over the usable range. */
    method LinkTops()
      requires Linked() && forall k :: 0 <= k < MAX_ORDER ==> lists[k] == []
      modifies next, prev, freeList, freeCount, this`lists
      ensures Linked() && (forall k :: 0 <= k < TOP ==> lists[k] == [])
      ensures forall j :: j in lists[TOP] <==> 0 <= j < tops
    {
      for i := 0 to tops
        invariant Linked() && forall k :: 0 <= k < TOP ==> lists[k] == []
        invariant forall j :: j in lists[TOP] <==> 0 <= j < i
      {
        LinkTop(i);
      }
    }

    /** One turn of the loop in `init_memory`: top-order block `i` goes on its list. */
    method LinkTop(i: nat)
      requires Linked() && i < tops && i !in lists[TOP]
      requires forall k :: 0 <= k < TOP ==> lists[k] == []
      modifies next, prev, freeList, freeCount, this`lists
      ensures Linked() && lists == old(lists)[TOP := [i] + old(lists)[TOP]]
    {
      hide Inv, AllChains, Shl;
      ghost var ls := lists;
      OnlyTops(ls, tops, i);
      PutOn(ls, tops, pages, TOP, i, Words());
      AttachToFreeList(Shl(i, TOP), TOP);
      freeCount[TOP] := freeCount[TOP] + 1;
      lists := ls[TOP := [i] + ls[TOP]];
    }

    /** A block allocated and freed at once leaves every list, every count and every bit as it was. */
    method AllocateThenFree(order: nat, a: int) returns (block: int)
      requires Valid()
      modifies Lower(), this`lists, attr, reference
      ensures Valid() && lists == old(lists) && (block == NULL <==> !Available(lists, order))
      ensures freeList[..] == old(freeList[..]) && freeCount[..] == old(freeCount[..])
      ensures forall k, b :: 0 <= k < MAX_ORDER && 0 <= b < buddyMap.Length1 ==> buddyMap[k, b] == old(buddyMap[k, b])
      ensures Untouched(lists, old(attr[..]), old(reference[..]))
    {
      hide Inv, AllChains, Shl, Up, Count, PairBit, Covered;
      ghost var ls, heads, w := lists, freeList[..], Words();
      AllocSound(ls, tops, order);
      block := AllocatePagesOfPower2(order, a);
      if block != NULL {
        JustAllocated(ls, tops, order);
        AllocFreeRestores(ls, tops, order);
        var code := FreePagesOfPower2(block, order);
        SameHeads(w, Words(), ls, pages);
      }
    }

    /** `page_alloc`: a block of the least order that holds `n` pages. */
    method PageAlloc(n: bv32, a: int) returns (block: int)
      requires Valid() && Roundable(n)
      modifies Lower(), this`lists, attr, reference
      ensures Valid()
      ensures block == NULL <==> !Available(old(lists), PageOrder(n))
      ensures block == NULL ==> lists == old(lists) && unchanged(Lower()) && unchanged(attr) && unchanged(reference)
      ensures block != NULL ==> block >= 0
      ensures block != NULL ==>
        var k := PageOrder(n);
        && k < MAX_ORDER && block == Shl(Up(block, k), k) && block + Shl(1, k) <= pages
        && Val(n) <= Shl(1, k) && (k > 0 ==> Shl(1, k - 1) < Val(n))
        && (forall p :: block <= p < block + Shl(1, k) ==>
              FreePage(old(lists), p) && !FreePage(lists, p) && attr[p] == a && reference[p] == 1)
        && (forall p: nat :: p < block || p >= block + Shl(1, k) ==> FreePage(lists, p) == FreePage(old(lists), p))
      ensures Untouched(old(lists), old(attr[..]), old(reference[..]))
    {
      hide Inv, AllChains, Shl, Up, Count, PairBit;
      ghost var k := PageOrder(n);
      PageOrderLeast(n);
      AllocSound(lists, tops, k);
      RoundUpPower(n);
      block := AllocatePagesOfPower2(TrailingZero(RoundUpPower2(n)), a);
      if block != NULL { TakenPages(old(lists), tops, k); }
    }

    /** `page_free` of a block that was allocated for `n` pages. */
    method PageFree(p: int, n: bv32) returns (code: int)
      requires Valid() && Roundable(n) && PageOrder(n) < MAX_ORDER
      requires var k := PageOrder(n);
        0 <= p <= pages ==> p < pages && p == Shl(Up(p, k), k) && Fair(lists, tops, Give(k, Up(p, k)))
      modifies Lower(), this`lists, attr, reference
      ensures Valid()
      ensures code == if p == NULL then 1 else if p < 0 || p > pages then 2 else 0
      ensures code != 0 ==> lists == old(lists)
      ensures code == 0 ==> forall q: nat ::
        FreePage(lists, q) <==> FreePage(old(lists), q) || p <= q < p + Shl(1, PageOrder(n))
      ensures Untouched(lists, old(attr[..]), old(reference[..]))
    {
      hide Inv, AllChains, Shl, Up, Count, PairBit;
      RoundUpPower(n);
      code := FreePagesOfPower2(p, TrailingZero(RoundUpPower2(n)));
      if code == 0 { GivenPages(old(lists), tops, PageOrder(n), Up(p, PageOrder(n))); }
    }
  }
}
