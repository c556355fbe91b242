/** The intrusive doubly linked free lists: two words at the start of every free
    block, and one head pointer per order. Pointers are page numbers, NULL is -1. */
module BuddyLinks {
  import opened Common
  import opened BuddySpec

  const NULL: int := -1

  // ---------- shifts ----------

  /** i << k */
  function Shl(i: nat, k: nat): nat
    decreases k
  {
    if k == 0 then i else Shl(2 * i, k - 1)
  }

  /** Block `i` of order `k` starts at page i * 2^k; the orders' blocks have 1 to 1024 pages. */
  lemma {:induction false} ShlIs(i: nat, k: nat)
    ensures Shl(i, k) == i * Power(k)
    ensures Power(0) == 1 && Power(1) == 2 && Power(TOP) == 1024 && TOP + 1 == MAX_ORDER
    decreases k
  {
    if k > 0 { ShlIs(2 * i, k - 1); }
    assert Power(3) == 8 && Power(6) == 64 && Power(9) == 512;
  }

  lemma {:induction false} ShlAdd(a: nat, b: nat, k: nat)
    ensures Shl(a + b, k) == Shl(a, k) + Shl(b, k)
    decreases k
  {
    if k > 0 { ShlAdd(2 * a, 2 * b, k - 1); }
  }

  /** The pages whose number shifted right by `k` is `i` are the 1 << k pages from i << k on. */
  lemma {:induction false} UpRange(p: nat, k: nat, i: nat)
    ensures Up(p, k) == i <==> Shl(i, k) <= p < Shl(i, k) + Shl(1, k)
    ensures Shl(1, k) > 0
  {
    if k > 0 {
      UpRange(p / 2, k - 1, i);
      ShlAdd(i, i, k - 1);
      ShlAdd(1, 1, k - 1);
    }
  }

  lemma UpShl(i: nat, k: nat)
    ensures Up(Shl(i, k), k) == i
    ensures Up(Shl(i, k), k + 1) == i / 2
  {
    UpRange(Shl(i, k), k, i);
    UpStep(Shl(i, k), k);
  }

  lemma {:induction false} ShlInRange(tops: nat, k: nat, i: nat)
    requires k < MAX_ORDER && i < Count(tops, k)
    ensures Shl(i, k) + Shl(1, k) <= Count(tops, 0)
  {
    if k > 0 {
      ShlInRange(tops, k - 1, 2 * i + 1);
      ShlAdd(2 * i, 1, k - 1);
      ShlAdd(1, 1, k - 1);
    }
  }

  // ---------- one list ----------

  function PageAt(l: seq<nat>, k: nat, i: int): int {
    if 0 <= i < |l| then Shl(l[i], k) else NULL
  }

  datatype Links = Links(next: seq<int>, prev: seq<int>, heads: seq<int>)

  /** Following the pointers from the head visits the blocks of `l` in order, both ways. */
  ghost predicate Chain(s: Links, k: nat, l: seq<nat>)
    requires k < |s.heads|
  {
    && s.heads[k] == PageAt(l, k, 0)
    && forall i :: 0 <= i < |l| ==> Hooked(s, k, l, i)
  }

  ghost predicate Hooked(s: Links, k: nat, l: seq<nat>, i: nat)
    requires i < |l|
  {
    var p := Shl(l[i], k);
    p < |s.next| && p < |s.prev| && s.next[p] == PageAt(l, k, i + 1) && s.prev[p] == PageAt(l, k, i - 1)
  }

  ghost predicate AllChains(s: Links, ls: Lists, pages: nat) {
    && |s.heads| == MAX_ORDER && |s.next| == pages && |s.prev| == pages
    && forall k :: 0 <= k < MAX_ORDER ==> Chain(s, k, ls[k])
  }

  /** `remove_from_free_list`; the write through a NULL `next` is left out. */
  function Detached(s: Links, p: nat, k: nat): Links
    requires p < |s.next| == |s.prev| && k < |s.heads|
    requires s.prev[p] != NULL ==> 0 <= s.prev[p] < |s.next|
    requires s.next[p] != NULL ==> 0 <= s.next[p] < |s.next|
  {
    var n, b := s.next[p], s.prev[p];
    var next1 := if b != NULL then s.next[b := n] else s.next;
    var prev1 := if n != NULL then s.prev[n := b] else s.prev;
    Links(next1[p := NULL], prev1[p := NULL], if b != NULL then s.heads else s.heads[k := n])
  }

  /** `attach_to_free_list`. */
  function Attached(s: Links, p: nat, k: nat): Links
    requires p < |s.next| == |s.prev| && k < |s.heads|
    requires s.heads[k] != NULL ==> 0 <= s.heads[k] < |s.next|
  {
    var h := s.heads[k];
    var prev1 := if h != NULL then s.prev[h := p] else s.prev;
    Links(s.next[p := h], prev1[p := NULL], s.heads[k := p])
  }

  /** No listed block lies inside another. */
  lemma NotInside(ls: Lists, tops: nat, k: nat, i: nat, m: nat, j: nat)
    requires Inv(ls, tops) && k < m < MAX_ORDER && i in ls[k] && j in ls[m]
    ensures Up(i, m - k) != j
  {
    assert Listed(ls, tops, k, i);
    if Up(i, m - k) == j { CoveredSub(ls, m, j, k + 1, i / 2); }
  }

  /** No two listed blocks start at the same page. */
  lemma DistinctPages(ls: Lists, tops: nat, k: nat, i: nat, m: nat, j: nat)
    requires Inv(ls, tops) && k < MAX_ORDER && m < MAX_ORDER && i in ls[k] && j in ls[m]
    requires k != m || i != j
    ensures Shl(i, k) != Shl(j, m)
  {
    var p, q := Shl(i, k), Shl(j, m);
    UpShl(i, k);
    UpShl(j, m);
    if k < m {
      UpUp(p, k, m - k);
      NotInside(ls, tops, k, i, m, j);
    } else if m < k {
      UpUp(q, m, k - m);
      NotInside(ls, tops, m, j, k, i);
    }
  }

  lemma {:induction false} WithoutAt(l: seq<nat>, x: nat) returns (i: nat)
    requires x in l
    ensures i < |l| && l[i] == x && Without(l, x) == l[..i] + l[i + 1..]
  {
    if l[0] == x {
      i := 0;
    } else {
      var j := WithoutAt(l[1..], x);
      i := j + 1;
      assert l[..i] + l[i + 1..] == [l[0]] + (l[1..][..j] + l[1..][j + 1..]);
    }
  }

  /** The words read when block `l[i]` is taken off: its own, and those of its neighbours. */
  lemma DetachReads(s: Links, ls: Lists, pages: nat, k: nat, i: nat)
    requires k < MAX_ORDER && i < |ls[k]| && AllChains(s, ls, pages)
    ensures var l := ls[k]; var p := Shl(l[i], k);
      && p < pages && s.prev[p] == PageAt(l, k, i - 1) && s.next[p] == PageAt(l, k, i + 1)
      && (i > 0 ==> PageAt(l, k, i - 1) == Shl(l[i - 1], k) && 0 <= Shl(l[i - 1], k) < pages)
      && (i + 1 < |l| ==> PageAt(l, k, i + 1) == Shl(l[i + 1], k) && 0 <= Shl(l[i + 1], k) < pages)
      && s.heads[k] == PageAt(l, k, 0)
  {
    var l := ls[k];
    assert Chain(s, k, l) && Hooked(s, k, l, i);
    if i > 0 { assert Hooked(s, k, l, i - 1); }
    if i + 1 < |l| { assert Hooked(s, k, l, i + 1); }
  }

  ghost predicate Detaches(s: Links, s': Links, p: nat, k: nat) {
    && p < |s.next| == |s.prev| && k < |s.heads|
    && (s.prev[p] != NULL ==> 0 <= s.prev[p] < |s.next|) && (s.next[p] != NULL ==> 0 <= s.next[p] < |s.next|)
    && s' == Detached(s, p, k)
  }

  /** A listed block that is neither the detached one nor next to it keeps its words. */
  lemma DetachElsewhere(s: Links, s': Links, ls: Lists, tops: nat, pages: nat, k: nat, i: nat, m: nat, j: nat)
    requires Inv(ls, tops) && k < MAX_ORDER && i < |ls[k]| && AllChains(s, ls, pages)
    requires m < MAX_ORDER && j < |ls[m]| && (m == k ==> j != i)
    requires Detaches(s, s', Shl(ls[k][i], k), k)
    ensures var q := Shl(ls[m][j], m);
      && q < pages
      && s'.next[q] == (if m == k && j == i - 1 then PageAt(ls[k], k, i + 1) else s.next[q])
      && s'.prev[q] == (if m == k && j == i + 1 then PageAt(ls[k], k, i - 1) else s.prev[q])
  {
    hide Inv;
    var l, q := ls[k], Shl(ls[m][j], m);
    DetachReads(s, ls, pages, k, i);
    DetachReads(s, ls, pages, m, j);
    SamePosition(ls, tops, k, i, m, j);
    if i > 0 { SamePosition(ls, tops, k, i - 1, m, j); }
    if i + 1 < |l| { SamePosition(ls, tops, k, i + 1, m, j); }
  }

  lemma SamePosition(ls: Lists, tops: nat, k: nat, i: nat, m: nat, j: nat)
    requires Inv(ls, tops) && k < MAX_ORDER && i < |ls[k]| && m < MAX_ORDER && j < |ls[m]|
    ensures Shl(ls[k][i], k) == Shl(ls[m][j], m) <==> k == m && i == j
  {
    if k != m || i != j {
      assert k == m ==> ls[k][i] != ls[m][j];
      DistinctPages(ls, tops, k, ls[k][i], m, ls[m][j]);
    }
  }

  /** Taking a listed block off its list keeps every list well linked. */
  lemma DetachChains(s: Links, ls: Lists, tops: nat, pages: nat, k: nat, x: nat)
    requires Inv(ls, tops) && k < MAX_ORDER && x in ls[k] && AllChains(s, ls, pages)
    ensures var p := Shl(x, k);
      && p < pages
      && (s.prev[p] != NULL ==> 0 <= s.prev[p] < pages) && (s.next[p] != NULL ==> 0 <= s.next[p] < pages)
      && (s.prev[p] == NULL ==> s.heads[k] == p)
      && AllChains(Detached(s, p, k), ls[k := Without(ls[k], x)], pages)
  {
    hide Inv, Hooked;
    var l := ls[k];
    var i := WithoutAt(l, x);
    var p, l' := Shl(x, k), Without(l, x);
    DetachReads(s, ls, pages, k, i);
    var s' := Detached(s, p, k);
    forall m, j | 0 <= m < MAX_ORDER && m != k && 0 <= j < |ls[m]| ensures Hooked(s', m, ls[m], j) {
      assert Chain(s, m, ls[m]) && Hooked(s, m, ls[m], j);
      DetachElsewhere(s, s', ls, tops, pages, k, i, m, j);
      HookedAgain(s, s', m, ls[m], j);
    }
    assert forall m :: 0 <= m < MAX_ORDER && m != k ==> Chain(s', m, ls[m]);
    forall j | 0 <= j < |l'| ensures Hooked(s', k, l', j) {
      DetachSame(s, s', ls, tops, pages, k, i, j);
    }
    assert Chain(s', k, l');
  }

  lemma HookedAgain(s: Links, s': Links, m: nat, l: seq<nat>, j: nat)
    requires j < |l| && Hooked(s, m, l, j) && |s'.next| == |s.next| && |s'.prev| == |s.prev|
    requires var q := Shl(l[j], m); s'.next[q] == s.next[q] && s'.prev[q] == s.prev[q]
    ensures Hooked(s', m, l, j)
  {
  }

  lemma DetachSame(s: Links, s': Links, ls: Lists, tops: nat, pages: nat, k: nat, i: nat, j: nat)
    requires Inv(ls, tops) && k < MAX_ORDER && i < |ls[k]| && AllChains(s, ls, pages)
    requires Detaches(s, s', Shl(ls[k][i], k), k)
    requires j + 1 < |ls[k]|
    ensures Hooked(s', k, ls[k][..i] + ls[k][i + 1..], j)
  {
    hide Inv;
    var l := ls[k];
    var l' := l[..i] + l[i + 1..];
    var o := if j < i then j else j + 1;
    assert l'[j] == l[o];
    DetachReads(s, ls, pages, k, o);
    DetachElsewhere(s, s', ls, tops, pages, k, i, k, o);
    assert PageAt(l', k, j + 1) == PageAt(l, k, if j + 1 < i then j + 1 else j + 2);
    assert PageAt(l', k, j - 1) == PageAt(l, k, if j - 1 < i then j - 1 else j);
  }

  /** Block `x` is about to be put at the front of list `k`. */
  ghost predicate Attaches(s: Links, ls: Lists, tops: nat, pages: nat, k: nat, x: nat) {
    && Inv(ls, tops) && k < MAX_ORDER && AllChains(s, ls, pages) && Shl(x, k) < pages
    && Inv(ls[k := [x] + ls[k]], tops) && (s.heads[k] != NULL ==> 0 <= s.heads[k] < pages)
  }

  lemma AttachHead(s: Links, ls: Lists, pages: nat, k: nat)
    requires k < MAX_ORDER && AllChains(s, ls, pages)
    ensures s.heads[k] != NULL ==> 0 <= s.heads[k] < pages
  {
    assert Chain(s, k, ls[k]);
    if ls[k] != [] { assert Hooked(s, k, ls[k], 0); }
  }

  lemma AttachOther(s: Links, ls: Lists, tops: nat, pages: nat, k: nat, x: nat, m: nat, j: nat)
    requires Attaches(s, ls, tops, pages, k, x) && m < MAX_ORDER && m != k && j < |ls[m]|
    ensures Hooked(Attached(s, Shl(x, k), k), m, ls[m], j)
  {
    var l, ls' := ls[k], ls[k := [x] + ls[k]];
    hide Inv, Shl;
    assert ls'[k][0] == x && ls'[m] == ls[m];
    assert Chain(s, k, l) && Chain(s, m, ls[m]) && Hooked(s, m, ls[m], j);
    if l != [] { assert Hooked(s, k, l, 0); }
    hide Chain, AllChains;
    DistinctPages(ls', tops, m, ls[m][j], k, x);
    if l != [] { DistinctPages(ls, tops, m, ls[m][j], k, l[0]); }
  }

  lemma PageAfter(l: seq<nat>, x: nat, k: nat, j: int)
    ensures PageAt([x] + l, k, j + 1) == if j == -1 then Shl(x, k) else PageAt(l, k, j)
  {
    hide Shl;
  }

  lemma AttachOwn(s: Links, ls: Lists, tops: nat, pages: nat, k: nat, x: nat, j: nat)
    requires Attaches(s, ls, tops, pages, k, x) && j <= |ls[k]|
    ensures Hooked(Attached(s, Shl(x, k), k), k, [x] + ls[k], j)
  {
    var l := ls[k];
    assert Chain(s, k, l);
    PageAfter(l, x, k, j);
    PageAfter(l, x, k, j - 1);
    PageAfter(l, x, k, j - 2);
    if j > 0 {
      assert Hooked(s, k, l, j - 1) && Hooked(s, k, l, 0);
      OwnPages(ls, tops, k, x, j);
    }
    hide Inv, Shl, AllChains, Chain, PageAt;
    assert j > 0 ==> ([x] + l)[j] == l[j - 1];
  }

  lemma OwnPages(ls: Lists, tops: nat, k: nat, x: nat, j: nat)
    requires Inv(ls, tops) && k < MAX_ORDER && Inv(ls[k := [x] + ls[k]], tops) && 0 < j <= |ls[k]|
    ensures Shl(ls[k][j - 1], k) != Shl(x, k) && (j > 1 ==> Shl(ls[k][j - 1], k) != Shl(ls[k][0], k))
  {
    var l, ls' := ls[k], ls[k := [x] + ls[k]];
    assert NoDup(ls'[k]) && NoDup(l);
    hide Inv, Shl;
    assert ls'[k][0] == x && ls'[k][j] == l[j - 1];
    DistinctPages(ls', tops, k, l[j - 1], k, x);
    if j > 1 { DistinctPages(ls, tops, k, l[j - 1], k, l[0]); }
  }

  /** Putting a block that is not listed anywhere at the front of a list keeps every list well linked. */
  lemma AttachChains(s: Links, ls: Lists, tops: nat, pages: nat, k: nat, x: nat)
    requires Inv(ls, tops) && k < MAX_ORDER && AllChains(s, ls, pages) && Shl(x, k) < pages
    requires Inv(ls[k := [x] + ls[k]], tops)
    ensures s.heads[k] != NULL ==> 0 <= s.heads[k] < pages
    ensures AllChains(Attached(s, Shl(x, k), k), ls[k := [x] + ls[k]], pages)
  {
    var ls' := ls[k := [x] + ls[k]];
    AttachHead(s, ls, pages, k);
    assert Attaches(s, ls, tops, pages, k, x);
    var s' := Attached(s, Shl(x, k), k);
    hide Inv, Attaches, Shl, Hooked;
    forall m | 0 <= m < MAX_ORDER ensures Chain(s', m, ls'[m]) {
      assert Chain(s, m, ls[m]);
      forall j | 0 <= j < |ls'[m]| ensures Hooked(s', m, ls'[m], j) {
        if m == k { AttachOwn(s, ls, tops, pages, k, x, j); } else { AttachOther(s, ls, tops, pages, k, x, m, j); }
      }
    }
  }
}
