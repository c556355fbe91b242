/** What `rb_remove` makes of a tree, and when the result is a red-black tree. */
module RbDelete {
  import opened RbShape
  import opened RbShort

  /** The leftmost node's subtree, and the path to it below `c`. */
  function MinTree<N>(t: Tree<N>): (m: Tree<N>)
    requires t.Branch?
    ensures m.Branch? && m.left.Leaf?
  {
    if t.left.Leaf? then t else MinTree(t.left)
  }

  function MinCtx<N>(t: Tree<N>, c: Ctx<N>): Ctx<N>
    requires t.Branch?
  {
    if t.left.Leaf? then c else MinCtx(t.left, InLeft(t.node, t.key, t.color, t.right, c))
  }

  lemma {:induction false} MinPlug<N>(t: Tree<N>, c: Ctx<N>)
    requires t.Branch?
    ensures Plug(MinCtx(t, c), MinTree(t)) == Plug(c, t)
    ensures Depth(MinCtx(t, c)) >= Depth(c)
    decreases t
  {
    if t.left.Branch? { MinPlug(t.left, InLeft(t.node, t.key, t.color, t.right, c)); }
  }

  /** The context of the successor's place once the successor stands where `t`'s root stood. */
  function Promoted<N>(t: Tree<N>, c: Ctx<N>): Ctx<N>
    requires t.Branch? && t.right.Branch?
  {
    var m := MinTree(t.right);
    InRight(t.left, m.node, m.key, t.color, c)
  }

  /** The path from the right child of `t` down to its leftmost node. */
  function Spine<N>(t: Tree<N>): Ctx<N>
    requires t.Branch? && t.right.Branch?
  {
    MinCtx(t.right, Top)
  }

  /** The removed node is a black leaf below the root: the code hands the fixup
      the removed node itself as parent, whose children are NULL. */
  predicate LostParent<N>(t: Tree<N>, c: Ctx<N>)
    requires t.Branch?
  {
    t.color == Black && t.left.Leaf? && t.right.Leaf? && !c.Top?
  }

  /** The successor is a black leaf deeper than the right child: the code hands
      the fixup the successor's new place as parent instead of the old one. */
  predicate WrongParent<N>(t: Tree<N>)
    requires t.Branch?
  {
    && t.left.Branch? && t.right.Branch?
    && var m := MinTree(t.right);
       m.color == Black && m.right.Leaf? && !Spine(t).Top?
  }

  /** The tree `rb_remove` leaves when it removes the root of `t` in context `c`. */
  function Removed<N>(t: Tree<N>, c: Ctx<N>): Tree<N>
    requires t.Branch?
  {
    if t.left.Leaf? || t.right.Leaf? then
      var child := if t.left.Leaf? then t.right else t.left;
      if t.color == Black && !LostParent(t, c) then FixShort(child, c) else Plug(c, child)
    else
      var m := MinTree(t.right);
      var d := Promoted(t, c);
      if m.color == Red then Plug(d, Plug(Spine(t), m.right))
      else if Spine(t).Top? then FixShort(m.right, d)
      else if m.right.Branch? then Plug(d, Plug(Spine(t), Blacken(m.right)))
      else FixFrom(Plug(Spine(t), m.right), d)
  }

  /** The same with the true parent of the moved-up child passed to the fixup. */
  function RemovedWithTrueParent<N>(t: Tree<N>, c: Ctx<N>): Tree<N>
    requires t.Branch?
  {
    if t.left.Leaf? || t.right.Leaf? then
      var child := if t.left.Leaf? then t.right else t.left;
      if t.color == Black then FixShort(child, c) else Plug(c, child)
    else
      var m := MinTree(t.right);
      var d := Append(Spine(t), Promoted(t, c));
      if m.color == Black then FixShort(m.right, d) else Plug(d, m.right)
  }

  // ---------- contents ----------

  lemma {:induction false} BeforeMin<N>(t: Tree<N>, c: Ctx<N>)
    requires t.Branch?
    ensures Before(MinCtx(t, c)) == Before(c)
    decreases t
  {
    if t.left.Branch? { BeforeMin(t.left, InLeft(t.node, t.key, t.color, t.right, c)); }
  }

  lemma {:induction false} InorderMin<N>(t: Tree<N>)
    requires t.Branch?
    ensures Inorder(t) == [Entry(MinTree(t).node, MinTree(t).key)] + Inorder(Plug(MinCtx(t, Top), MinTree(t).right))
  {
    MinPlug(t, Top);
    BeforeMin(t, Top);
    InorderPlug(MinCtx(t, Top), MinTree(t));
    InorderPlug(MinCtx(t, Top), MinTree(t).right);
  }

  /** In every case exactly the removed entry leaves the in-order sequence. */
  lemma RemovedContents<N>(t: Tree<N>, c: Ctx<N>)
    requires t.Branch?
    ensures Inorder(Removed(t, c)) == Before(c) + Inorder(t.left) + Inorder(t.right) + After(c)
  {
    if t.left.Leaf? || t.right.Leaf? {
      var child := if t.left.Leaf? then t.right else t.left;
      FixShortInorder(child, c);
      InorderPlug(c, child);
    } else {
      PromotedContents(t, c);
      var rest, d := Plug(Spine(t), MinTree(t.right).right), Promoted(t, c);
      InorderInContext(Spine(t), MinTree(t.right).right, Blacken(MinTree(t.right).right));
      InorderInContext(d, rest, Plug(Spine(t), Blacken(MinTree(t.right).right)));
      FixFromInorder(rest, d);
      FixShortInorder(MinTree(t.right).right, d);
    }
  }

  lemma PromotedContents<N>(t: Tree<N>, c: Ctx<N>)
    requires t.Branch? && t.right.Branch?
    ensures Inorder(Plug(Promoted(t, c), Plug(Spine(t), MinTree(t.right).right)))
         == Before(c) + Inorder(t.left) + Inorder(t.right) + After(c)
  {
    var m := MinTree(t.right);
    var rest := Plug(Spine(t), m.right);
    InorderMin(t.right);
    InorderPlug(Promoted(t, c), rest);
    assert Before(c) + Inorder(t.left) + [Entry(m.node, m.key)] + Inorder(rest) + After(c)
        == Before(c) + Inorder(t.left) + ([Entry(m.node, m.key)] + Inorder(rest)) + After(c);
  }

  /** So it does with the child's own parent passed. */
  lemma TrueParentContents<N>(t: Tree<N>, c: Ctx<N>)
    requires t.Branch?
    ensures Inorder(RemovedWithTrueParent(t, c)) == Before(c) + Inorder(t.left) + Inorder(t.right) + After(c)
  {
    if t.left.Leaf? || t.right.Leaf? {
      var child := if t.left.Leaf? then t.right else t.left;
      FixShortInorder(child, c);
      InorderPlug(c, child);
    } else {
      var m, d := MinTree(t.right), Promoted(t, c);
      PromotedContents(t, c);
      PlugAppend(Spine(t), d, m.right);
      FixShortInorder(m.right, Append(Spine(t), d));
    }
  }

  // ---------- balance ----------

  /** A subtree of the wrong height leaves the whole tree uneven. */
  lemma {:induction false} MisfitPlug<N>(c: Ctx<N>, t: Tree<N>, h: nat)
    requires !c.Top? && Fits(c, h) && BlackHeight(t) != Even(h)
    ensures BlackHeight(Plug(c, t)).Uneven?
  {
    match c
    case InLeft(n, k, col, s, up) => UnevenPlug(up, Branch(t, n, k, col, s));
    case InRight(s, n, k, col, up) => UnevenPlug(up, Branch(s, n, k, col, t));
  }

  /** A node with at most one child: that child is red, and then the node is black. */
  lemma OnlyChild<N>(t: Tree<N>)
    requires t.Branch? && NoRedRed(t) && BlackHeight(t).Even? && (t.left.Leaf? || t.right.Leaf?)
    ensures (t.left.Branch? ==> IsRed(t.left)) && (t.right.Branch? ==> IsRed(t.right))
    ensures t.color == Red ==> t.left.Leaf? && t.right.Leaf?
    ensures BlackHeight(t.left) == BlackHeight(t.right) == Even(0)
  {
  }

  /** The tree with the successor's entry written over the removed one is still
      red-black, and splits at the successor's place. */
  lemma Relabelled<N>(t: Tree<N>, c: Ctx<N>)
    requires t.Branch? && t.right.Branch? && RedBlack(Plug(c, t))
    ensures var m, e := MinTree(t.right), Append(Spine(t), Promoted(t, c));
            && BlackHeight(m.right) == Even(0) && NoRedRed(m.right) && (m.color == Red ==> m.right.Leaf?)
            && Fits(e, if m.color == Red then 0 else 1)
            && CtxNoRedRed(e, m.color == Red) && RootBlack(e)
  {
    var m := MinTree(t.right);
    var d := Promoted(t, c);
    var e := Append(Spine(t), d);
    var u := t.(node := m.node, key := m.key);
    SubtreeEven(c, t);
    RedBlackSplit(c, t, BlackHeight(t).h);
    RedBlackSplit(c, u, BlackHeight(u).h);
    MinPlug(t.right, Top);
    PlugAppend(Spine(t), d, m);
    assert Plug(e, m) == Plug(c, u);
    SubtreeEven(e, m);
    RedBlackSplit(e, m, BlackHeight(m).h);
    OnlyChild(m);
  }

  /** Removing from a red-black tree gives a red-black tree exactly when the parent
      handed to the fixup is the child's own. */
  lemma RemovedRedBlack<N>(t: Tree<N>, c: Ctx<N>)
    requires t.Branch? && RedBlack(Plug(c, t))
    ensures RedBlack(Removed(t, c)) <==> !LostParent(t, c) && !WrongParent(t)
  {
    SubtreeEven(c, t);
    RedBlackSplit(c, t, BlackHeight(t).h);
    if t.left.Leaf? || t.right.Leaf? {
      OnlyChild(t);
      var child := if t.left.Leaf? then t.right else t.left;
      if LostParent(t, c) {
        MisfitPlug(c, child, 1);
      } else if t.color == Black {
        FixShortRedBlack(child, c);
      } else {
        LighterHole(c);
        RedBlackSplit(c, child, 0);
      }
    } else {
      RemovedInner(t, c);
    }
  }

  lemma RemovedInner<N>(t: Tree<N>, c: Ctx<N>)
    requires t.Branch? && t.left.Branch? && t.right.Branch? && RedBlack(Plug(c, t))
    ensures RedBlack(Removed(t, c)) <==> !WrongParent(t)
  {
    Relabelled(t, c);
    var m := MinTree(t.right);
    var d := Promoted(t, c);
    var e := Append(Spine(t), d);
    PlugAppend(Spine(t), d, m.right);
    PlugAppend(Spine(t), d, Blacken(m.right));
    if m.color == Red {
      LighterHole(e);
      RedBlackSplit(e, m.right, 0);
    } else if Spine(t).Top? {
      FixShortRedBlack(m.right, d);
    } else if m.right.Branch? {
      OnlyBlackened(m.right);
      RedBlackSplit(e, Blacken(m.right), 1);
    } else {
      SubtreeEven(c, t);
      MinPlug(t.right, Top);
      SubtreeEven(Spine(t), m);
      FitsPlug(Spine(t), m, BlackHeight(m).h);
      MisfitPlug(Spine(t), m.right, 1);
      FixFromUneven(Plug(Spine(t), m.right), d);
    }
  }

  lemma OnlyBlackened<N>(t: Tree<N>)
    requires t.Branch? && BlackHeight(t) == Even(0) && NoRedRed(t)
    ensures BlackHeight(Blacken(t)) == Even(1) && NoRedRed(Blacken(t))
  {
  }

  /** With the moved-up child's own parent passed, the result is always red-black. */
  lemma TrueParentRedBlack<N>(t: Tree<N>, c: Ctx<N>)
    requires t.Branch? && RedBlack(Plug(c, t))
    ensures RedBlack(RemovedWithTrueParent(t, c))
  {
    SubtreeEven(c, t);
    RedBlackSplit(c, t, BlackHeight(t).h);
    if t.left.Leaf? || t.right.Leaf? {
      OnlyChild(t);
      var child := if t.left.Leaf? then t.right else t.left;
      if t.color == Black {
        FixShortRedBlack(child, c);
      } else {
        LighterHole(c);
        RedBlackSplit(c, child, 0);
      }
    } else {
      Relabelled(t, c);
      var m := MinTree(t.right);
      var e := Append(Spine(t), Promoted(t, c));
      if m.color == Black {
        FixShortRedBlack(m.right, e);
      } else {
        LighterHole(e);
        RedBlackSplit(e, m.right, 0);
      }
    }
  }

  // ---------- what the fixup is entered with ----------

  lemma OnlyChildReady<N>(t: Tree<N>, c: Ctx<N>)
    requires t.Branch? && RedBlack(Plug(c, t)) && (t.left.Leaf? || t.right.Leaf?) && t.color == Black
    ensures CtxReady(c, 0)
    ensures (t.left.Branch? ==> IsRed(t.left)) && (t.right.Branch? ==> IsRed(t.right))
  {
    SubtreeEven(c, t);
    RedBlackSplit(c, t, BlackHeight(t).h);
    OnlyChild(t);
  }

  lemma PromotedReady<N>(t: Tree<N>, c: Ctx<N>)
    requires t.Branch? && t.left.Branch? && t.right.Branch? && RedBlack(Plug(c, t)) && MinTree(t.right).color == Black
    ensures var m := MinTree(t.right);
      && CtxReady(Append(Spine(t), Promoted(t, c)), 0)
      && (m.right.Branch? ==> IsRed(m.right))
      && BlackHeight(t.right).Even? && BlackHeight(t.right).h > 0
      && CtxReady(Promoted(t, c), BlackHeight(t.right).h - 1)
  {
    Relabelled(t, c);
    var m := MinTree(t.right);
    if m.right.Branch? { assert IsRed(m.right); }
    SubtreeEven(c, t);
    RedBlackSplit(c, t, BlackHeight(t).h);
    MinPlug(t.right, Top);
    SubtreeEven(Spine(t), m);
    HeightPlug(Spine(t), m);
    if t.color == Red { LighterHole(c); }
  }

  /** A subtree is no higher than the whole. */
  lemma {:induction false} HeightPlug<N>(c: Ctx<N>, t: Tree<N>)
    requires BlackHeight(Plug(c, t)).Even?
    ensures BlackHeight(t).Even? && BlackHeight(t).h <= BlackHeight(Plug(c, t)).h
    decreases c
  {
    match c
    case Top =>
    case InLeft(n, k, col, s, up) => HeightPlug(up, Branch(t, n, k, col, s));
    case InRight(s, n, k, col, up) => HeightPlug(up, Branch(s, n, k, col, t));
  }

  // ---------- both faults happen ----------

  /** Black 4 over black 2 and red 8, which is over black 6 and 9. */
  function Five(): Tree<nat> {
    Branch(Branch(Leaf, 2, 2, Black, Leaf), 4, 4, Black,
           Branch(Branch(Leaf, 6, 6, Black, Leaf), 8, 8, Red, Branch(Leaf, 9, 9, Black, Leaf)))
  }

  /** A red-black tree whose root cannot be removed, nor its left child, without breaking it. */
  lemma FaultsHappen()
    ensures var t := Five(); var c := InLeft(t.node, t.key, t.color, t.right, Top);
      && RedBlack(t) && Sorted(Inorder(t)) && Plug(c, t.left) == t
      && !RedBlack(Removed(t, Top)) && !RedBlack(Removed(t.left, c))
  {
    var t := Five();
    var c := InLeft(t.node, t.key, t.color, t.right, Top);
    var r := t.right;
    assert BlackHeight(r.left) == BlackHeight(r.right) == Even(1);
    assert BlackHeight(r) == BlackHeight(t.left) == Even(1);
    assert RedBlack(t) && Plug(Top, t) == t && Plug(c, t.left) == t;
    assert Spine(t) == InLeft(8, 8, Red, r.right, Top);
    RemovedRedBlack(t, Top);
    RemovedRedBlack(t.left, c);
    assert Inorder(r.left) == [Entry(6, 6)] && Inorder(r.right) == [Entry(9, 9)] && Inorder(t.left) == [Entry(2, 2)];
    assert Inorder(r) == [Entry(6, 6), Entry(8, 8), Entry(9, 9)];
    assert Inorder(t) == [Entry(2, 2), Entry(4, 4), Entry(6, 6), Entry(8, 8), Entry(9, 9)];
  }
}
