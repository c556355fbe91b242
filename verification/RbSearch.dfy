/** Looking a key up by walking down from the root. */
module RbSearch {
  import opened RbShape

  /** Everything left of the hole is below `k`, everything right of it above. */
  ghost predicate Around<N>(c: Ctx<N>, k: nat) {
    && (forall e :: e in Before(c) ==> e.key < k)
    && (forall e :: e in After(c) ==> k < e.key)
  }

  ghost predicate HasKey<N>(s: seq<Entry<N>>, k: nat) {
    exists e :: e in s && e.key == k
  }

  function GoLeft<N>(t: Tree<N>, c: Ctx<N>): Ctx<N>
    requires t.Branch?
  {
    InLeft(t.node, t.key, t.color, t.right, c)
  }

  function GoRight<N>(t: Tree<N>, c: Ctx<N>): Ctx<N>
    requires t.Branch?
  {
    InRight(t.left, t.node, t.key, t.color, c)
  }

  /** `s'` is `s` with one occurrence of `x` taken out and the rest in the same order. */
  ghost predicate IsWithout<N>(s': seq<Entry<N>>, s: seq<Entry<N>>, x: Entry<N>) {
    exists i :: 0 <= i < |s| && s[i] == x && s' == s[..i] + s[i + 1..]
  }

  lemma MiddleOut<N>(b: seq<Entry<N>>, x: Entry<N>, a: seq<Entry<N>>)
    ensures IsWithout(b + a, b + [x] + a, x)
  {
    var s := b + [x] + a;
    assert s[..|b|] == b && s[|b| + 1..] == a && s[|b|] == x;
  }

  lemma AroundTop<N>(k: nat)
    ensures Around<N>(Top, k)
  {
  }

  lemma SortedMiddle<N>(s: seq<Entry<N>>, b: seq<Entry<N>>, l: seq<Entry<N>>, x: Entry<N>, r: seq<Entry<N>>,
                        a: seq<Entry<N>>)
    requires Sorted(s) && s == b + (l + [x] + r) + a
    ensures x in s
    ensures forall e :: e in l ==> e.key < x.key
    ensures forall e :: e in r ==> x.key < e.key
  {
    var i := |b| + |l|;
    assert s[i] == x;
    assert forall j :: 0 <= j < |l| ==> l[j] == s[|b| + j];
    assert forall j :: 0 <= j < |r| ==> r[j] == s[i + 1 + j];
  }

  lemma Descend<N>(t: Tree<N>, c: Ctx<N>, k: nat)
    requires t.Branch? && Sorted(Inorder(Plug(c, t))) && Around(c, k)
    ensures k < t.key ==> Around(GoLeft(t, c), k)
    ensures k > t.key ==> Around(GoRight(t, c), k)
    ensures k == t.key ==> HasKey(Inorder(Plug(c, t)), k)
  {
    InorderPlug(c, t);
    var x := Entry(t.node, t.key);
    SortedMiddle(Inorder(Plug(c, t)), Before(c), Inorder(t.left), x, Inorder(t.right), After(c));
    assert Before(GoRight(t, c)) == Before(c) + Inorder(t.left) + [x];
    assert After(GoLeft(t, c)) == [x] + Inorder(t.right) + After(c);
  }

  /** An empty hole in the right place: the key is absent, and a new entry fits there. */
  lemma Vacant<N>(c: Ctx<N>, n: N, k: nat, col: Color)
    requires Sorted(Inorder(Plug(c, Leaf))) && Around(c, k)
    ensures !HasKey(Inorder(Plug(c, Leaf)), k)
    ensures Inorder(Plug(c, Leaf)) == Before(c) + After(c)
    ensures var s := Inorder(Plug(c, Branch(Leaf, n, k, col, Leaf)));
      s == Before(c) + [Entry(n, k)] + After(c) && Sorted(s)
  {
    var u := Branch(Leaf, n, k, col, Leaf);
    InorderPlug<N>(c, Leaf);
    InorderPlug(c, u);
    assert Inorder(u) == [Entry(n, k)];
    assert Inorder<N>(Leaf) == [];
    assert Before(c) + [] + After(c) == Before(c) + After(c);
    hide Before, After, Inorder;
    SortedInsert(Before(c), Entry(n, k), After(c));
  }

  lemma SortedInsert<N>(b: seq<Entry<N>>, x: Entry<N>, a: seq<Entry<N>>)
    requires Sorted(b + a)
    requires (forall i :: 0 <= i < |b| ==> b[i].key < x.key) && forall i :: 0 <= i < |a| ==> x.key < a[i].key
    ensures Sorted(b + [x] + a)
  {
    var s, v := b + [x] + a, b + a;
    forall i, j | 0 <= i < j < |s| ensures s[i].key < s[j].key {
      if i != |b| && j != |b| {
        var i', j' := if i < |b| then i else i - 1, if j < |b| then j else j - 1;
        assert s[i] == v[i'] && s[j] == v[j'];
      }
    }
  }

  lemma Absent<N>(c: Ctx<N>, k: nat)
    requires Around(c, k)
    ensures !HasKey(Inorder(Plug(c, Leaf)), k)
  {
    InorderPlug<N>(c, Leaf);
  }

  ghost predicate NoneAbove<N>(s: seq<Entry<N>>, k: nat) {
    forall e :: e in s ==> e.key < k
  }

  /** `x` is the least key of `s` at or above `k`. */
  ghost predicate LeastAbove<N>(s: seq<Entry<N>>, k: nat, x: nat) {
    k <= x && HasKey(s, x) && forall e :: e in s && k <= e.key ==> x <= e.key
  }

  lemma FoundIsLeast<N>(s: seq<Entry<N>>, k: nat)
    requires HasKey(s, k)
    ensures LeastAbove(s, k, k) && !NoneAbove(s, k)
  {
  }

  /** What follows the hole is above every key of the subtree's top node. */
  lemma BelowUpper<N>(t: Tree<N>, c: Ctx<N>)
    requires t.Branch? && Sorted(Inorder(Plug(c, t))) && After(c) != []
    ensures t.key < After(c)[0].key
  {
    InorderPlug(c, t);
    var i := |Before(c)| + |Inorder(t.left)|;
    var s := Before(c) + (Inorder(t.left) + [Entry(t.node, t.key)] + Inorder(t.right)) + After(c);
    assert s[i] == Entry(t.node, t.key);
    assert s[|s| - |After(c)|] == After(c)[0];
  }

  lemma UpperAtLeaf<N>(c: Ctx<N>, k: nat)
    requires Sorted(Inorder(Plug(c, Leaf))) && Around(c, k)
    ensures After(c) == [] <==> NoneAbove(Inorder(Plug(c, Leaf)), k)
    ensures After(c) != [] ==> LeastAbove(Inorder(Plug(c, Leaf)), k, After(c)[0].key)
  {
    InorderPlug<N>(c, Leaf);
    var b, a := Before(c), After(c);
    var s := b + [] + a;
    if a != [] {
      assert a[0] in s;
      forall e | e in s && k <= e.key ensures a[0].key <= e.key {
        var i :| 0 <= i < |s| && s[i] == e;
        assert s[|b|] == a[0];
      }
    }
  }
}
