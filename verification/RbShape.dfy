/** The shape of a red-black tree, apart from any heap: trees, one-hole contexts
    (the path from a subtree up to the root), and the two rebalancing walks as
    functions on a subtree and its context. */
module RbShape {

  datatype Color = Red | Black

  datatype Entry<N> = Entry(node: N, key: nat)

  datatype Tree<N> =
    | Leaf
    | Branch(left: Tree<N>, node: N, key: nat, color: Color, right: Tree<N>)

  /** A tree with a hole: `InLeft` says the hole is the left child of `node`. */
  datatype Ctx<N> =
    | Top
    | InLeft(node: N, key: nat, color: Color, sibling: Tree<N>, up: Ctx<N>)
    | InRight(sibling: Tree<N>, node: N, key: nat, color: Color, up: Ctx<N>)

  function Plug<N>(c: Ctx<N>, t: Tree<N>): Tree<N>
    decreases c
  {
    match c
    case Top => t
    case InLeft(n, k, col, s, up) => Plug(up, Branch(t, n, k, col, s))
    case InRight(s, n, k, col, up) => Plug(up, Branch(s, n, k, col, t))
  }

  function Blacken<N>(t: Tree<N>): Tree<N> {
    if t.Leaf? then t else t.(color := Black)
  }

  predicate IsRed<N>(t: Tree<N>) {
    t.Branch? && t.color == Red
  }

  function Depth<N>(c: Ctx<N>): nat {
    if c.Top? then 0 else 1 + Depth(c.up)
  }

  /** `c` hung below `d`. */
  function Append<N>(c: Ctx<N>, d: Ctx<N>): Ctx<N>
    decreases c
  {
    match c
    case Top => d
    case InLeft(n, k, col, s, up) => InLeft(n, k, col, s, Append(up, d))
    case InRight(s, n, k, col, up) => InRight(s, n, k, col, Append(up, d))
  }

  lemma {:induction false} PlugAppend<N>(c: Ctx<N>, d: Ctx<N>, t: Tree<N>)
    ensures Plug(Append(c, d), t) == Plug(d, Plug(c, t))
    decreases c
  {
    match c
    case Top =>
    case InLeft(n, k, col, s, up) => PlugAppend(up, d, Branch(t, n, k, col, s));
    case InRight(s, n, k, col, up) => PlugAppend(up, d, Branch(s, n, k, col, t));
  }

  // ---------- contents ----------

  function Inorder<N>(t: Tree<N>): seq<Entry<N>> {
    match t
    case Leaf => []
    case Branch(l, n, k, _, r) => Inorder(l) + [Entry(n, k)] + Inorder(r)
  }

  function Before<N>(c: Ctx<N>): seq<Entry<N>> {
    match c
    case Top => []
    case InLeft(_, _, _, _, up) => Before(up)
    case InRight(s, n, k, _, up) => Before(up) + Inorder(s) + [Entry(n, k)]
  }

  function After<N>(c: Ctx<N>): seq<Entry<N>> {
    match c
    case Top => []
    case InLeft(n, k, _, s, up) => [Entry(n, k)] + Inorder(s) + After(up)
    case InRight(_, _, _, _, up) => After(up)
  }

  lemma {:induction false} InorderPlug<N>(c: Ctx<N>, t: Tree<N>)
    ensures Inorder(Plug(c, t)) == Before(c) + Inorder(t) + After(c)
    decreases c
  {
    match c
    case Top =>
    case InLeft(n, k, col, s, up) =>
      InorderPlug(up, Branch(t, n, k, col, s));
    case InRight(s, n, k, col, up) =>
      InorderPlug(up, Branch(s, n, k, col, t));
  }

  ghost predicate Sorted<N>(s: seq<Entry<N>>) {
    forall i, j :: 0 <= i < j < |s| ==> s[i].key < s[j].key
  }

  // ---------- balance ----------

  datatype Height = Uneven | Even(h: nat)

  /** The black height, if every path has the same one. */
  function BlackHeight<N>(t: Tree<N>): Height {
    match t
    case Leaf => Even(0)
    case Branch(l, _, _, c, r) =>
      if BlackHeight(l).Even? && BlackHeight(l) == BlackHeight(r)
      then (if c == Black then Even(BlackHeight(l).h + 1) else BlackHeight(l))
      else Uneven
  }

  predicate NoRedRed<N>(t: Tree<N>) {
    match t
    case Leaf => true
    case Branch(l, _, _, c, r) =>
      NoRedRed(l) && NoRedRed(r) && (c == Red ==> !IsRed(l) && !IsRed(r))
  }

  /** The red-black conditions: black root, no red node under a red one, equal black heights. */
  predicate RedBlack<N>(t: Tree<N>) {
    !IsRed(t) && NoRedRed(t) && BlackHeight(t).Even?
  }

  /** A subtree of black height `h` fits the hole. */
  predicate Fits<N>(c: Ctx<N>, h: nat) {
    match c
    case Top => true
    case InLeft(_, _, col, s, up) => BlackHeight(s) == Even(h) && Fits(up, if col == Black then h + 1 else h)
    case InRight(s, _, _, col, up) => BlackHeight(s) == Even(h) && Fits(up, if col == Black then h + 1 else h)
  }

  /** No red node under a red one anywhere in the context, the hole being red or not. */
  predicate CtxNoRedRed<N>(c: Ctx<N>, red: bool) {
    match c
    case Top => true
    case InLeft(_, _, col, s, up) =>
      NoRedRed(s) && (col == Red ==> !red && !IsRed(s)) && CtxNoRedRed(up, col == Red)
    case InRight(s, _, _, col, up) =>
      NoRedRed(s) && (col == Red ==> !red && !IsRed(s)) && CtxNoRedRed(up, col == Red)
  }

  /** The root of the tree is black, whatever is plugged in (if the hole is not the root). */
  predicate RootBlack<N>(c: Ctx<N>) {
    c.Top? || if c.up.Top? then c.color == Black else RootBlack(c.up)
  }

  lemma {:induction false} LighterHole<N>(c: Ctx<N>)
    requires CtxNoRedRed(c, true)
    ensures CtxNoRedRed(c, false)
  {
  }

  lemma {:induction false} NoRedRedPlug<N>(c: Ctx<N>, t: Tree<N>)
    ensures NoRedRed(Plug(c, t)) <==> NoRedRed(t) && CtxNoRedRed(c, IsRed(t))
    decreases c
  {
    match c
    case Top =>
    case InLeft(n, k, col, s, up) => NoRedRedPlug(up, Branch(t, n, k, col, s));
    case InRight(s, n, k, col, up) => NoRedRedPlug(up, Branch(s, n, k, col, t));
  }

  lemma {:induction false} FitsPlug<N>(c: Ctx<N>, t: Tree<N>, h: nat)
    requires BlackHeight(t) == Even(h)
    ensures Fits(c, h) <==> BlackHeight(Plug(c, t)).Even?
    decreases c
  {
    match c
    case Top =>
    case InLeft(n, k, col, s, up) =>
      if BlackHeight(s) == Even(h) {
        FitsPlug(up, Branch(t, n, k, col, s), if col == Black then h + 1 else h);
      } else {
        UnevenPlug(up, Branch(t, n, k, col, s));
      }
    case InRight(s, n, k, col, up) =>
      if BlackHeight(s) == Even(h) {
        FitsPlug(up, Branch(s, n, k, col, t), if col == Black then h + 1 else h);
      } else {
        UnevenPlug(up, Branch(s, n, k, col, t));
      }
  }

  lemma {:induction false} UnevenPlug<N>(c: Ctx<N>, t: Tree<N>)
    requires BlackHeight(t) == Uneven
    ensures BlackHeight(Plug(c, t)) == Uneven
    decreases c
  {
    match c
    case Top =>
    case InLeft(n, k, col, s, up) => UnevenPlug(up, Branch(t, n, k, col, s));
    case InRight(s, n, k, col, up) => UnevenPlug(up, Branch(s, n, k, col, t));
  }

  lemma {:induction false} RootBlackPlug<N>(c: Ctx<N>, t: Tree<N>)
    requires !c.Top?
    ensures RootBlack(c) <==> !IsRed(Plug(c, t))
    decreases c
  {
    match c
    case InLeft(n, k, col, s, up) =>
      if !up.Top? { RootBlackPlug(up, Branch(t, n, k, col, s)); }
    case InRight(s, n, k, col, up) =>
      if !up.Top? { RootBlackPlug(up, Branch(s, n, k, col, t)); }
  }

  /** What the conditions on a whole tree say about one subtree and its context. */
  lemma RedBlackSplit<N>(c: Ctx<N>, t: Tree<N>, h: nat)
    requires BlackHeight(t) == Even(h)
    ensures RedBlack(Plug(c, t)) <==>
            NoRedRed(t) && CtxNoRedRed(c, IsRed(t)) && Fits(c, h) && (if c.Top? then !IsRed(t) else RootBlack(c))
  {
    NoRedRedPlug(c, t);
    FitsPlug(c, t, h);
    if !c.Top? { RootBlackPlug(c, t); }
  }

  lemma {:induction false} SubtreeEven<N>(c: Ctx<N>, t: Tree<N>)
    requires BlackHeight(Plug(c, t)).Even?
    ensures BlackHeight(t).Even?
  {
    if BlackHeight(t).Uneven? { UnevenPlug(c, t); }
  }

  // ---------- rebalancing after an insertion ----------

  /** The grandparent's subtree once parent, uncle and grandparent swap colours. */
  function Recoloured<N>(t: Tree<N>, c: Ctx<N>): (u: Tree<N>)
    requires !c.Top? && !c.up.Top?
    ensures u.Branch?
  {
    var p := match c
      case InLeft(p, pk, _, s, _) => Branch(t, p, pk, Black, s)
      case InRight(s, p, pk, _, _) => Branch(s, p, pk, Black, t);
    match c.up
    case InLeft(g, gk, _, uncle, _) => Branch(p, g, gk, Red, Blacken(uncle))
    case InRight(uncle, g, gk, _, _) => Branch(Blacken(uncle), g, gk, Red, p)
  }

  /** The grandparent's subtree after the rotations of the black-uncle cases. */
  function Rotated<N>(t: Tree<N>, c: Ctx<N>): (u: Tree<N>)
    requires t.Branch? && !c.Top? && !c.up.Top?
    ensures u.Branch?
  {
    match c.up
    case InLeft(g, gk, _, uncle, _) => (
      match c
      case InLeft(p, pk, _, s, _) => Branch(t, p, pk, Black, Branch(s, g, gk, Red, uncle))
      case InRight(s, p, pk, pc, _) =>
        Branch(Branch(s, p, pk, pc, t.left), t.node, t.key, Black, Branch(t.right, g, gk, Red, uncle)))
    case InRight(uncle, g, gk, _, _) => (
      match c
      case InRight(s, p, pk, _, _) => Branch(Branch(uncle, g, gk, Red, s), p, pk, Black, t)
      case InLeft(p, pk, pc, s, _) =>
        Branch(Branch(uncle, g, gk, Red, t.left), t.node, t.key, Black, Branch(t.right, p, pk, pc, s)))
  }

  /** The walk of `rb_insert_fixup` from a red subtree `t` in context `c`. */
  function InsertFix<N>(t: Tree<N>, c: Ctx<N>): Tree<N>
    requires t.Branch? && RootBlack(c)
    decreases c
  {
    if c.Top? then Blacken(t)
    else if c.color == Black then Plug(c, t)
    else if IsRed(c.up.sibling) then assert RootBlack(c.up); InsertFix(Recoloured(t, c), c.up.up)
    else Plug(c.up.up, Rotated(t, c))
  }

  /** The subtree at the grandparent, before any change. */
  function Grand<N>(t: Tree<N>, c: Ctx<N>): Tree<N>
    requires !c.Top? && !c.up.Top?
  {
    var p := match c
      case InLeft(p, pk, pc, s, _) => Branch(t, p, pk, pc, s)
      case InRight(s, p, pk, pc, _) => Branch(s, p, pk, pc, t);
    match c.up
    case InLeft(g, gk, gc, uncle, _) => Branch(p, g, gk, gc, uncle)
    case InRight(uncle, g, gk, gc, _) => Branch(uncle, g, gk, gc, p)
  }

  /** A rotation does not move anything in the in-order sequence. */
  lemma InorderRotate<N>(a: Tree<N>, x: N, kx: nat, b: Tree<N>, y: N, ky: nat, d: Tree<N>, c1: Color, c2: Color,
                         c3: Color, c4: Color)
    ensures Inorder(Branch(a, x, kx, c1, Branch(b, y, ky, c2, d)))
      == Inorder(Branch(Branch(a, x, kx, c3, b), y, ky, c4, d))
  {
    assert Inorder(a) + [Entry(x, kx)] + (Inorder(b) + [Entry(y, ky)] + Inorder(d))
        == (Inorder(a) + [Entry(x, kx)] + Inorder(b)) + [Entry(y, ky)] + Inorder(d);
  }

  lemma RotatedInorder<N>(t: Tree<N>, c: Ctx<N>)
    requires t.Branch? && !c.Top? && !c.up.Top?
    ensures Inorder(Rotated(t, c)) == Inorder(Grand(t, c))
  {
    var g, gk, u := c.up.node, c.up.key, c.up.sibling;
    var p, pk, s := c.node, c.key, c.sibling;
    match (c.up, c)
    case (InLeft(_, _, _, _, _), InLeft(_, _, _, _, _)) =>
      InorderRotate(t, p, pk, s, g, gk, u, Black, Red, c.color, c.up.color);
    case (InLeft(_, _, _, _, _), InRight(_, _, _, _, _)) =>
      InorderRotate(s, p, pk, t.left, t.node, t.key, t.right, c.color, t.color, c.color, Black);
      InorderRotate(Branch(s, p, pk, c.color, t.left), t.node, t.key, t.right, g, gk, u, Black, Red, Black, c.up.color);
    case (InRight(_, _, _, _, _), InRight(_, _, _, _, _)) =>
      InorderRotate(u, g, gk, s, p, pk, t, c.up.color, c.color, Red, Black);
    case (InRight(_, _, _, _, _), InLeft(_, _, _, _, _)) =>
      InorderRotate(t.left, t.node, t.key, t.right, p, pk, s, Black, c.color, t.color, c.color);
      InorderRotate(u, g, gk, t.left, t.node, t.key, Branch(t.right, p, pk, c.color, s), c.up.color, Black, Red, Black);
  }

  lemma {:induction false} InorderInContext<N>(c: Ctx<N>, t: Tree<N>, u: Tree<N>)
    requires Inorder(t) == Inorder(u)
    ensures Inorder(Plug(c, t)) == Inorder(Plug(c, u))
  {
    InorderPlug(c, t);
    InorderPlug(c, u);
  }

  /** The walk moves nothing in the in-order sequence. */
  lemma {:induction false} InsertFixInorder<N>(t: Tree<N>, c: Ctx<N>)
    requires t.Branch? && RootBlack(c)
    ensures Inorder(InsertFix(t, c)) == Inorder(Plug(c, t))
    decreases c
  {
    if !c.Top? && c.color == Red {
      assert Plug(c, t) == Plug(c.up.up, Grand(t, c));
      if IsRed(c.up.sibling) {
        assert RootBlack(c.up);
        InsertFixInorder(Recoloured(t, c), c.up.up);
        assert Inorder(Recoloured(t, c)) == Inorder(Grand(t, c));
        InorderInContext(c.up.up, Recoloured(t, c), Grand(t, c));
      } else {
        RotatedInorder(t, c);
        InorderInContext(c.up.up, Rotated(t, c), Grand(t, c));
      }
    }
  }

  lemma RotatedRedBlack<N>(t: Tree<N>, c: Ctx<N>, h: nat)
    requires IsRed(t) && NoRedRed(t) && BlackHeight(t) == Even(h)
    requires !c.Top? && !c.up.Top? && c.color == Red && !IsRed(c.up.sibling)
    requires Fits(c, h) && CtxNoRedRed(c, false)
    ensures !IsRed(Rotated(t, c)) && NoRedRed(Rotated(t, c)) && BlackHeight(Rotated(t, c)) == Even(h + 1)
    ensures Fits(c.up.up, h + 1) && CtxNoRedRed(c.up.up, false)
  {
    assert BlackHeight(t.left) == BlackHeight(t.right) == Even(h);
    assert CtxNoRedRed(c.up, true) && Fits(c.up, h);
    match (c.up, c)
    case (InLeft(_, _, _, _, _), InLeft(_, _, _, _, _)) =>
    case (InLeft(_, _, _, _, _), InRight(_, _, _, _, _)) =>
    case (InRight(_, _, _, _, _), InRight(_, _, _, _, _)) =>
    case (InRight(_, _, _, _, _), InLeft(_, _, _, _, _)) =>
  }

  /** The walk ends in a red-black tree. */
  lemma {:induction false} InsertFixRedBlack<N>(t: Tree<N>, c: Ctx<N>, h: nat)
    requires IsRed(t) && NoRedRed(t) && BlackHeight(t) == Even(h)
    requires Fits(c, h) && CtxNoRedRed(c, false) && RootBlack(c)
    ensures RedBlack(InsertFix(t, c))
    decreases c
  {
    if c.Top? {
    } else if c.color == Black {
      RedBlackSplit(c, t, h);
    } else if IsRed(c.up.sibling) {
      assert RootBlack(c.up);
      InsertFixRedBlack(Recoloured(t, c), c.up.up, h + 1);
    } else {
      assert RootBlack(c.up);
      RotatedRedBlack(t, c, h);
      RedBlackSplit(c.up.up, Rotated(t, c), h + 1);
    }
  }
}
