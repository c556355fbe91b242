/** What red and black are for: the longest path of the tree is at most twice the binary logarithm
    of its size. */
module RbBalance {
  import opened RbShape

  /** Some path from the top of `t` to a leaf has `b` black nodes. */
  predicate PathHas<N>(t: Tree<N>, b: nat) {
    match t
    case Leaf => b == 0
    case Branch(l, _, _, c, r) =>
      if c == Black then b > 0 && (PathHas(l, b - 1) || PathHas(r, b - 1)) else PathHas(l, b) || PathHas(r, b)
  }

  lemma {:induction false} SomePath<N>(t: Tree<N>) returns (b: nat)
    ensures PathHas(t, b)
  {
    if t.Leaf? {
      b := 0;
    } else {
      b := SomePath(t.left);
      if t.color == Black { b := b + 1; }
    }
  }

  /** Every path has `h` black nodes. */
  ghost predicate AllPaths<N>(t: Tree<N>, h: nat) {
    forall b: nat :: PathHas(t, b) <==> b == h
  }

  lemma {:induction false} EvenPaths<N>(t: Tree<N>, h: nat)
    requires BlackHeight(t) == Even(h)
    ensures AllPaths(t, h)
  {
    if t.Branch? {
      var g := if t.color == Black then h - 1 else h;
      EvenPaths(t.left, g);
      EvenPaths(t.right, g);
      assert PathHas(t.left, g);
    }
  }

  lemma {:induction false} PathsEven<N>(t: Tree<N>, h: nat)
    requires forall b: nat :: PathHas(t, b) ==> b == h
    ensures BlackHeight(t) == Even(h)
  {
    if t.Leaf? {
      assert PathHas(t, 0);
    } else {
      var up := if t.color == Black then 1 else 0;
      var bl := SomePath(t.left);
      assert PathHas(t, bl + up);
      forall b: nat ensures (PathHas(t.left, b) || PathHas(t.right, b)) ==> b == h - up {
        if PathHas(t.left, b) || PathHas(t.right, b) { assert PathHas(t, b + up); }
      }
      PathsEven(t.left, h - up);
      PathsEven(t.right, h - up);
    }
  }

  /** The black height is the number of black nodes on every path. */
  lemma HeightExact<N>(t: Tree<N>, h: nat)
    ensures BlackHeight(t) == Even(h) <==> AllPaths(t, h)
  {
    if BlackHeight(t) == Even(h) { EvenPaths(t, h); }
    if AllPaths(t, h) { PathsEven(t, h); }
  }

  /** The nodes on the longest path. */
  function Levels<N>(t: Tree<N>): nat {
    if t.Leaf? then 0 else 1 + (if Levels(t.left) > Levels(t.right) then Levels(t.left) else Levels(t.right))
  }

  function Pow2(n: nat): nat {
    if n == 0 then 1 else 2 * Pow2(n - 1)
  }

  lemma {:induction false} Full<N>(t: Tree<N>, h: nat)
    requires BlackHeight(t) == Even(h) && NoRedRed(t)
    ensures Pow2(h) <= |Inorder(t)| + 1 && Levels(t) <= 2 * h + if IsRed(t) then 1 else 0
  {
    if t.Branch? {
      var g := if t.color == Black then h - 1 else h;
      Full(t.left, g);
      Full(t.right, g);
    }
  }

  /** A search passes at most twice as many nodes as the size has binary digits. */
  lemma Balanced<N>(t: Tree<N>) returns (h: nat)
    requires RedBlack(t)
    ensures Levels(t) <= 2 * h && Pow2(h) <= |Inorder(t)| + 1
    ensures AllPaths(t, h)
  {
    h := BlackHeight(t).h;
    Full(t, h);
    HeightExact(t, h);
  }
}
