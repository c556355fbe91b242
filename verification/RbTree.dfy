/** The red-black tree of linked nodes: `rb_insert`, `rb_remove` and the searches, each
    proved against the function on trees it carries out. */
module RbTree {
  import opened RbShape
  import opened RbShort
  import opened RbDelete
  import opened RbSearch
  import opened RbHeap

  class RedBlackTree {
    var root: Node?
    ghost var shape: Tree<Node>

    /** Unhooks `x` from its parent. */
    static method Detach(x: Node) returns (r: Node)
      requires x.parent != x
      modifies x`parent, if x.parent == null then {} else {x.parent}
      ensures r == x && x.parent == null
      ensures var p := old(x.parent); p != null ==>
        && p.L == (if old(p.L) == x then null else old(p.L))
        && p.R == (if old(p.L) == x then old(p.R) else null)
        && p.parent == old(p.parent) && p.key == old(p.key) && p.color == old(p.color)
    {
      var p := x.parent;
      if p != null {
        if p.L == x { p.L := null; } else { p.R := null; }
      }
      x.parent := null;
      r := x;
    }

    /** Puts `src` where `dst` hangs; a NULL `src` has no parent link to write. */
    method Transplant(dst: Node, src: Node?)
      requires root != dst ==> dst.parent != null
      requires src != dst && (src != null ==> src != dst.parent) && dst != dst.parent
      modifies this`root, (if src == null then {} else {src})`parent, if dst.parent == null then {} else {dst.parent}
      ensures root == if old(root) == dst then src else old(root)
      ensures src != null ==> src.parent == old(dst.parent)
      ensures dst.parent == old(dst.parent)
      ensures dst.parent != null ==>
           (var p := dst.parent;
           && p.R == (if old(root) != dst && old(p.R) == dst then src else old(p.R))
           && p.L == (if old(root) != dst && old(p.R) != dst && old(p.L) == dst then src else old(p.L))
           && p.parent == old(p.parent) && p.key == old(p.key) && p.color == old(p.color))
    {
      if root == dst {
        root := src;
      } else if dst == dst.parent.R {
        dst.parent.R := src;
      } else if dst == dst.parent.L {
        dst.parent.L := src;
      }
      if src != null { src.parent := dst.parent; }
    }

    /** `x.R` takes the place of `x`, `x` becomes its left child, and the child between them changes sides. */
    method LeftRotate(x: Node)
      requires x.R != null && x.R.parent == x && x.R != x && x.R != x.L && x.parent != x && x.parent != x.R
      requires var b := x.R.L; b != null ==> b.parent == x.R && b != x && b != x.R && b != x.parent
      requires root == x <==> x.parent == null
      requires x.parent != null ==> (x.parent.L == x <==> x.parent.R != x)
      modifies this`root, x, x.R, Opt(x.R.L), Opt(x.parent)
      ensures var a, b, p := old(x.R), old(x.R.L), old(x.parent);
        && Fields(x) == old(Fields(x)).(parent := a, R := b)
        && Fields(a) == old(Fields(a)).(parent := p, L := x)
        && (b != null ==> Fields(b) == old(Fields(b)).(parent := x))
        && (p != null ==> Fields(p) == if old(p.L) == x then old(Fields(p)).(L := a) else old(Fields(p)).(R := a))
        && root == if p == null then a else old(root)
    {
      if x.R == null { return; }
      var a := Detach(x.R);
      Transplant(x, a);
      if a.L != null {
        var b := Detach(a.L);
        a.L := x;
        x.parent := a;
        x.R := b;
        b.parent := x;
      } else {
        a.L := x;
        x.parent := a;
      }
    }

    method LeftRotateAt(x: Node, ghost S: set<Node>, ghost t: Tree<Node>, ghost c: Ctx<Node>)
      requires t.Branch? && t.node == x && t.right.Branch? && Here(S, t, c)
      modifies this`root, S
      ensures Here(S, RotL(t), c)
    {
      hide At, Rep, RepCtx, Distinct, CtxDistinct, Nodes, CtxNodes, RotL;
      ghost var m := Cells(S);
      RotLReady(m, t, c, root);
      LeftRotate(x);
      RotLAt(m, Cells(S), t, c, old(root), root);
    }

    /** `x.L` takes the place of `x`, `x` becomes its right child, and the child between them changes sides. */
    method RightRotate(x: Node)
      requires x.L != null && x.L.parent == x && x.L != x && x.L != x.R && x.parent != x && x.parent != x.L
      requires var b := x.L.R; b != null ==> b.parent == x.L && b != x.L.L && b != x && b != x.L && b != x.parent
      requires root == x <==> x.parent == null
      requires x.parent != null ==> (x.parent.L == x <==> x.parent.R != x)
      modifies this`root, x, x.L, Opt(x.L.R), Opt(x.parent)
      ensures var a, b, p := old(x.L), old(x.L.R), old(x.parent);
        && Fields(x) == old(Fields(x)).(parent := a, L := b)
        && Fields(a) == old(Fields(a)).(parent := p, R := x)
        && (b != null ==> Fields(b) == old(Fields(b)).(parent := x))
        && (p != null ==> Fields(p) == if old(p.L) == x then old(Fields(p)).(L := a) else old(Fields(p)).(R := a))
        && root == if p == null then a else old(root)
    {
      if x.L == null { return; }
      var a := Detach(x.L);
      Transplant(x, a);
      if a.R != null {
        var b := Detach(a.R);
        a.R := x;
        x.parent := a;
        x.L := b;
        b.parent := x;
      } else {
        a.R := x;
        x.parent := a;
      }
    }

    method RightRotateAt(x: Node, ghost S: set<Node>, ghost t: Tree<Node>, ghost c: Ctx<Node>)
      requires t.Branch? && t.node == x && t.left.Branch? && Here(S, t, c)
      modifies this`root, S
      ensures Here(S, RotR(t), c)
    {
      hide At, Rep, RepCtx, Distinct, CtxDistinct, Nodes, CtxNodes, RotR;
      ghost var m := Cells(S);
      RotRReady(m, t, c, root);
      RightRotate(x);
      RotRAt(m, Cells(S), t, c, old(root), root);
    }

    ghost predicate Here(S: set<Node>, t: Tree<Node>, c: Ctx<Node>)
      reads this, S
    {
      Nodes(t) + CtxNodes(c) <= S && At(Cells(S), t, c, root)
    }

    method Paint(x: Node, col: Color, ghost S: set<Node>, ghost t: Tree<Node>, ghost c: Ctx<Node>)
      requires t.Branch? && t.node == x && Here(S, t, c)
      modifies x`color
      ensures Here(S, t.(color := col), c)
    {
      ghost var m := Cells(S);
      x.color := col;
      Repaint(m, Cells(S), t, ParentOf(c), ParentOf(c), col);
      FrameCtx(m, Cells(S), c, x, root);
    }

    /** Red parent and red uncle: both turn black, the grandparent red. */
    method Recolour(n: Node, parent: Node, uncle: Node, grand: Node, ghost S: set<Node>, ghost t: Tree<Node>,
                    ghost c: Ctx<Node>)
      requires t.Branch? && t.node == n && Here(S, t, c)
      requires !c.Top? && !c.up.Top? && c.up.sibling.Branch?
      requires parent == c.node && grand == c.up.node && uncle == c.up.sibling.node
      modifies S
      ensures Here(S, Recoloured(t, c), c.up.up)
    {
      Refocus(Cells(S), t, c, root);
      Paint(parent, Black, S, Climb(t, c), c.up);
      ghost var p := Climb(t, c).(color := Black);
      Refocus(Cells(S), p, c.up, root);
      Paint(uncle, Black, S, c.up.sibling, Aside(p, c.up));
      ghost var d := Aside(p, c.up);
      Refocus(Cells(S), Blacken(c.up.sibling), d, root);
      Paint(grand, Red, S, Climb(Blacken(c.up.sibling), d), c.up.up);
    }

    /** Red parent, black uncle, the parent being the left child. */
    method StraightenLeft(n: Node, parent: Node, grand: Node, ghost S: set<Node>, ghost t: Tree<Node>,
                          ghost c: Ctx<Node>)
      requires t.Branch? && t.node == n && Here(S, t, c)
      requires !c.Top? && c.up.InLeft? && parent == c.node && grand == c.up.node
      modifies this`root, S
      ensures Here(S, Rotated(t, c), c.up.up)
    {
      LinksAround(Cells(S), t, c, root);
      ghost var d := InLeft(c.up.node, c.up.key, Red, c.up.sibling, c.up.up);
      if parent.L == n {
        Refocus(Cells(S), t, c, root);
        Paint(parent, Black, S, Climb(t, c), c.up);
        ghost var p := Climb(t, c).(color := Black);
        Refocus(Cells(S), p, c.up, root);
        Paint(grand, Red, S, Climb(p, c.up), c.up.up);
        RightRotateAt(grand, S, Climb(p, d), c.up.up);
      } else {
        Paint(n, Black, S, t, c);
        ghost var u := t.(color := Black);
        Refocus(Cells(S), u, c, root);
        Refocus(Cells(S), Climb(u, c), c.up, root);
        Paint(grand, Red, S, Climb(Climb(u, c), c.up), c.up.up);
        Refocus(Cells(S), Climb(u, c), d, root);
        LeftRotateAt(parent, S, Climb(u, c), d);
        Refocus(Cells(S), RotL(Climb(u, c)), d, root);
        RightRotateAt(grand, S, Climb(RotL(Climb(u, c)), d), c.up.up);
      }
    }

    /** Red parent, black uncle, the parent being the right child. */
    method StraightenRight(n: Node, parent: Node, grand: Node, ghost S: set<Node>, ghost t: Tree<Node>,
                           ghost c: Ctx<Node>)
      requires t.Branch? && t.node == n && Here(S, t, c)
      requires !c.Top? && c.up.InRight? && parent == c.node && grand == c.up.node
      modifies this`root, S
      ensures Here(S, Rotated(t, c), c.up.up)
    {
      LinksAround(Cells(S), t, c, root);
      ghost var d := InRight(c.up.sibling, c.up.node, c.up.key, Red, c.up.up);
      if parent.R == n {
        Refocus(Cells(S), t, c, root);
        Paint(parent, Black, S, Climb(t, c), c.up);
        ghost var p := Climb(t, c).(color := Black);
        Refocus(Cells(S), p, c.up, root);
        Paint(grand, Red, S, Climb(p, c.up), c.up.up);
        LeftRotateAt(grand, S, Climb(p, d), c.up.up);
      } else {
        Paint(n, Black, S, t, c);
        ghost var u := t.(color := Black);
        Refocus(Cells(S), u, c, root);
        Refocus(Cells(S), Climb(u, c), c.up, root);
        Paint(grand, Red, S, Climb(Climb(u, c), c.up), c.up.up);
        Refocus(Cells(S), Climb(u, c), d, root);
        RightRotateAt(parent, S, Climb(u, c), d);
        Refocus(Cells(S), RotR(Climb(u, c)), d, root);
        LeftRotateAt(grand, S, Climb(RotR(Climb(u, c)), d), c.up.up);
      }
    }

    /** `n` is red; a red parent is repaired by recolouring upward or by rotating. */
    method InsertFixup(n: Node, ghost S: set<Node>, ghost t: Tree<Node>, ghost c: Ctx<Node>)
      requires t.Branch? && t.node == n && Here(S, t, c) && RootBlack(c)
      modifies this`root, S
      ensures Here(S, InsertFix(t, c), Top)
      decreases c
    {
      hide At;
      LinksAround(Cells(S), t, c, root);
      if n.parent == null {
        Paint(n, Black, S, t, c);
        return;
      }
      if n.parent.color == Black {
        AtPlug(Cells(S), t, c, root);
      } else {
        var parent := n.parent;
        assert RootBlack(c.up);
        Refocus(Cells(S), t, c, root);
        LinksAround(Cells(S), Climb(t, c), c.up, root);
        var grand := parent.parent;
        var uncle := if grand.R == parent then grand.L else grand.R;
        if uncle != null && uncle.color == Red {
          Recolour(n, parent, uncle, grand, S, t, c);
          InsertFixup(grand, S, Recoloured(t, c), c.up.up);
        } else if grand.L == parent {
          StraightenLeft(n, parent, grand, S, t, c);
          AtPlug(Cells(S), Rotated(t, c), c.up.up, root);
        } else {
          StraightenRight(n, parent, grand, S, t, c);
          AtPlug(Cells(S), Rotated(t, c), c.up.up, root);
        }
      }
    }

    // ---------- the whole tree ----------

    /** `shape` is what the heap below `root` holds, a red-black tree in strict key order. */
    ghost predicate Valid()
      reads this, Nodes(shape)
    {
      Here(Nodes(shape), shape, Top) && RedBlack(shape) && Sorted(Inorder(shape))
    }

    /** Hangs the new node `n` into the empty hole of `c`. */
    method Hang(n: Node, x: Node?, left: bool, ghost S: set<Node>, ghost c: Ctx<Node>)
      requires Here(S, Leaf, c) && n in S && n !in CtxNodes(c)
      requires n.L == null && n.R == null && n.color == Red && x == ParentOf(c)
      requires x != null ==> left == c.InLeft?
      modifies this`root, n`parent, Opt(x)
      ensures Here(S, Branch(Leaf, n, old(n.key), Red, Leaf), c)
    {
      ghost var m := Cells(S);
      if x == null {
        root := n;
      } else if left {
        x.L := n;
      } else {
        x.R := n;
      }
      n.parent := x;
      Redirect(m, Cells(S), c, null, n, old(root), root);
      LeafHung(Cells(S), n, n.key, c, root);
    }

    /** Walks down from the root and hangs the red node `n` where its key belongs;
        `false`, with nothing changed, when the key is found on the way. */
    method HangByKey(n: Node, ghost S: set<Node>) returns (freshKey: bool, ghost c: Ctx<Node>)
      requires Here(S, shape, Top) && Sorted(Inorder(shape))
      requires n in S && n !in Nodes(shape) && n.L == null && n.R == null && n.color == Red
      modifies this`root, S
      ensures freshKey <==> !HasKey(Inorder(shape), old(n.key))
      ensures shape == old(shape)
      ensures !freshKey ==> root == old(root) && Cells(S) == old(Cells(S))
      ensures freshKey ==> Here(S, Branch(Leaf, n, old(n.key), Red, Leaf), c)
      ensures freshKey ==> Plug(c, Leaf) == shape && Around(c, old(n.key))
    {
      hide At, Around, Sorted, HasKey, Inorder, Nodes, CtxNodes;
      ghost var t := shape;
      c := Top;
      ghost var k := n.key;
      AtPlug(Cells(S), t, c, root);
      RootNull(Cells(S), t, root);
      AroundTop<Node>(k);
      var x := root;
      if x == null {
        Hang(n, null, false, S, c);
      } else {
        while true
          invariant Here(S, t, c) && Plug(c, t) == shape && Around(c, k)
          invariant RootOf(t) == x && x != null
          invariant Nodes(t) + CtxNodes(c) == Nodes(shape) && root == old(root) && Cells(S) == old(Cells(S))
          invariant Fields(n) == old(Fields(n))
          decreases t
        {
          Descend(t, c, k);
          LinksAround(Cells(S), t, c, root);
          if x.key == n.key {
            AtPlug(Cells(S), t, c, root);
            return false, c;
          } else if x.key > n.key {
            Refocus(Cells(S), t.left, GoLeft(t, c), root);
            c, t := GoLeft(t, c), t.left;
            if x.L == null {
              Hang(n, x, true, S, c);
              break;
            } else {
              x := x.L;
            }
          } else {
            Refocus(Cells(S), t.right, GoRight(t, c), root);
            c, t := GoRight(t, c), t.right;
            if x.R == null {
              Hang(n, x, false, S, c);
              break;
            } else {
              x := x.R;
            }
          }
        }
      }
      Vacant(c, n, k, Red);
      return true, c;
    }

    /** Rebalances after the new node `n` was hung into `c`, and blackens the root. */
    method Settle(n: Node, ghost S: set<Node>, ghost k: nat, ghost c: Ctx<Node>)
      requires Plug(c, Leaf) == shape && RedBlack(shape) && Sorted(Inorder(shape)) && Around(c, k)
      requires S == Nodes(shape) + {n} && Here(S, Branch(Leaf, n, k, Red, Leaf), c)
      modifies this, S
      ensures Valid() && Nodes(shape) == S
      ensures IsWithout(old(Inorder(shape)), Inorder(shape), Entry(n, k))
    {
      hide At, Around, Sorted, HasKey, Inorder, BlackHeight, NoRedRed, Plug;
      ghost var t := Branch(Leaf, n, k, Red, Leaf);
      InsertedShape(n, k, c);
      InsertFixup(n, S, t, c);
      shape := InsertFix(t, c);
      RootNull(Cells(S), shape, root);
      Paint(root, Black, S, shape, Top);
    }

    /** Links `n` in by key; 1 and no change in the tree if its key is there already. */
    method Insert(n: Node) returns (r: int)
      requires Valid() && n !in Nodes(shape) && n.L == null && n.R == null
      modifies this, n, Nodes(shape)
      ensures Valid()
      ensures r == if HasKey(old(Inorder(shape)), old(n.key)) then 1 else 0
      ensures r == 1 ==> shape == old(shape) && root == old(root)
      ensures r == 0 ==> Nodes(shape) == old(Nodes(shape)) + {n}
      ensures r == 0 ==> IsWithout(old(Inorder(shape)), Inorder(shape), Entry(n, old(n.key)))
    {
      hide At, Around, Sorted, HasKey, Inorder, RedBlack, IsWithout;
      ghost var S := Nodes(shape) + {n};
      ghost var k := n.key;
      ghost var m := Cells(Nodes(shape));
      n.color := Red;
      FrameWhole(m, Cells(S), shape, root);
      var freshKey, c := HangByKey(n, S);
      if !freshKey {
        FrameWhole(m, Cells(Nodes(shape)), shape, root);
        return 1;
      }
      Settle(n, S, k, c);
      return 0;
    }

    lemma Move(S: set<Node>, t: Tree<Node>, c: Ctx<Node>, t': Tree<Node>, c': Ctx<Node>)
      requires Here(S, t, c) && Plug(c, t) == Plug(c', t')
      ensures Here(S, t', c')
    {
      AtPlug(Cells(S), t, c, root);
      AtPlug(Cells(S), t', c', root);
    }

    /** The fields of the node at the top of `t`. */
    lemma Links(S: set<Node>, t: Tree<Node>, c: Ctx<Node>)
      requires Here(S, t, c) && t.Branch?
      ensures t.node in S && t.node.color == t.color && t.node.parent == ParentOf(c)
      ensures t.node.L == RootOf(t.left) && t.node.R == RootOf(t.right)
      ensures t.left.Branch? ==> t.left.node in S && t.left.node.color == t.left.color
      ensures t.right.Branch? ==> t.right.node in S && t.right.node.color == t.right.color
    {
      hide At, Nodes, CtxNodes;
      LinksAround(Cells(S), t, c, root);
      ChildColors(Cells(S), t, c, root);
    }

    /** Sibling black, its far child red, the hole the left child: one rotation ends the walk. */
    method FinishLeft(parent: Node, other: Node, ghost S: set<Node>, ghost w: Tree<Node>, ghost up: Ctx<Node>)
      requires w.Branch? && w.right.Branch? && w.right.right.Branch?
      requires parent == w.node && other == w.right.node && Here(S, w, up)
      modifies this`root, S
      ensures Here(S, FinishedL(w), up)
    {
      hide Here, At, Nodes, CtxNodes;
      Links(S, w, up);
      var s1 := w.right.(color := w.color);
      Move(S, w, up, w.right, GoRight(w, up));
      Paint(other, parent.color, S, w.right, GoRight(w, up));
      ghost var w1 := w.(right := s1);
      Move(S, s1, GoRight(w, up), w1, up);
      Paint(parent, Black, S, w1, up);
      ghost var w2 := w1.(color := Black);
      Move(S, w2, up, s1, GoRight(w2, up));
      Links(S, s1, GoRight(w2, up));
      Move(S, s1, GoRight(w2, up), s1.right, GoRight(s1, GoRight(w2, up)));
      Paint(other.R, Black, S, s1.right, GoRight(s1, GoRight(w2, up)));
      ghost var w3 := w2.(right := s1.(right := Blacken(s1.right)));
      Move(S, Blacken(s1.right), GoRight(s1, GoRight(w2, up)), w3, up);
      LeftRotateAt(parent, S, w3, up);
      assert RotL(w3) == FinishedL(w);
    }

    /** Sibling black, only its near child red: that child is rotated over the sibling. */
    method NearLeft(other: Node, ghost S: set<Node>, ghost w: Tree<Node>, ghost up: Ctx<Node>)
      requires w.Branch? && w.right.Branch? && w.right.left.Branch?
      requires other == w.right.node && Here(S, w, up)
      modifies this`root, S
      ensures Here(S, NearRotL(w), up)
    {
      hide Here, At, Nodes, CtxNodes;
      var s := w.right;
      var d := GoRight(w, up);
      Move(S, w, up, s, d);
      Links(S, s, d);
      Move(S, s, d, s.left, GoLeft(s, d));
      Paint(other.L, Black, S, s.left, GoLeft(s, d));
      var s1 := s.(left := Blacken(s.left));
      Move(S, Blacken(s.left), GoLeft(s, d), s1, d);
      Paint(other, Red, S, s1, d);
      RightRotateAt(other, S, s1.(color := Red), d);
      Move(S, RotR(s1.(color := Red)), d, NearRotL(w), up);
    }

    /** Sibling red: it turns black, the parent red, and the parent is rotated below it. */
    method RedSiblingLeft(parent: Node, other: Node, ghost S: set<Node>, ghost w: Tree<Node>, ghost up: Ctx<Node>)
      requires w.Branch? && w.right.Branch?
      requires parent == w.node && other == w.right.node && Here(S, w, up)
      modifies this`root, S
      ensures Here(S, w.(color := Red, right := w.right.left), GoLeft(Blacken(w.right), up))
    {
      hide At, Nodes, CtxNodes;
      var s1 := Blacken(w.right);
      Move(S, w, up, w.right, GoRight(w, up));
      LinksAround(Cells(S), w.right, GoRight(w, up), root);
      Paint(other, Black, S, w.right, GoRight(w, up));
      Move(S, s1, GoRight(w, up), w.(right := s1), up);
      Paint(parent, Red, S, w.(right := s1), up);
      LeftRotateAt(parent, S, w.(color := Red, right := s1), up);
      Move(S, RotL(w.(color := Red, right := s1)), up,
           w.(color := Red, right := w.right.left), GoLeft(Blacken(w.right), up));
    }

    /** The branch of the loop body for a black sibling, the hole the left child; `stop` when it ends the walk. */
    method ShortLeftAt(parent: Node, other: Node, ghost S: set<Node>, ghost w: Tree<Node>,
                       ghost up: Ctx<Node>) returns (stop: bool)
      requires w.Branch? && w.right.Branch?
      requires parent == w.node && other == w.right.node && Here(S, w, up)
      modifies this`root, S
      ensures match ShortLeft(w.left, w.node, w.key, w.color, w.right, up)
              case Done(u) => stop && Here(S, u, Top)
              case Again(u, d) => !stop && Here(S, u, d)
    {
      hide Here, At, Nodes, CtxNodes;
      var s := w.right;
      var d := GoRight(w, up);
      Move(S, w, up, s, d);
      Links(S, s, d);
      if (other.L == null || other.L.color == Black) && (other.R == null || other.R.color == Black) {
        Paint(other, Red, S, s, d);
        Move(S, s.(color := Red), d, w.(right := s.(color := Red)), up);
        stop := false;
      } else {
        var o := other;
        ghost var v := w;
        if other.R == null || other.R.color == Black {
          NearLeft(other, S, w, up);
          v := NearRotL(w);
          Links(S, v, up);
          o := parent.R;
        }
        assert ShortLeft(w.left, w.node, w.key, w.color, w.right, up) == Done(Plug(up, FinishedL(v)));
        FinishLeft(parent, o, S, v, up);
        Move(S, FinishedL(v), up, Plug(up, FinishedL(v)), Top);
        stop := true;
      }
    }

    /** One turn of the loop body for a hole that is the left child. */
    method TurnLeft(parent: Node, ghost S: set<Node>, ghost w: Tree<Node>, ghost up: Ctx<Node>) returns (stop: bool)
      requires w.Branch? && parent == w.node && Here(S, w, up)
      requires SiblingReady(GoLeft(w, up))
      modifies this`root, S
      ensures match FixTurn(w.left, GoLeft(w, up))
              case Done(u) => stop && Here(S, u, Top)
              case Again(u, d) => !stop && Here(S, u, d)
    {
      hide At, Nodes, CtxNodes;
      LinksAround(Cells(S), w, up, root);
      ChildColors(Cells(S), w, up, root);
      var other := parent.R;
      if other.color == Red {
        RedSiblingLeft(parent, other, S, w, up);
        ghost var v := w.(color := Red, right := w.right.left);
        ghost var d := GoLeft(Blacken(w.right), up);
        LinksAround(Cells(S), v, d, root);
        other := parent.R;
        stop := ShortLeftAt(parent, other, S, v, d);
      } else {
        stop := ShortLeftAt(parent, other, S, w, up);
      }
    }

    /** Sibling black, its far child red, the hole the right child: one rotation ends the walk. */
    method FinishRight(parent: Node, other: Node, ghost S: set<Node>, ghost w: Tree<Node>, ghost up: Ctx<Node>)
      requires w.Branch? && w.left.Branch? && w.left.left.Branch?
      requires parent == w.node && other == w.left.node && Here(S, w, up)
      modifies this`root, S
      ensures Here(S, FinishedR(w), up)
    {
      hide Here, At, Nodes, CtxNodes;
      Links(S, w, up);
      var s1 := w.left.(color := w.color);
      Move(S, w, up, w.left, GoLeft(w, up));
      Paint(other, parent.color, S, w.left, GoLeft(w, up));
      ghost var w1 := w.(left := s1);
      Move(S, s1, GoLeft(w, up), w1, up);
      Paint(parent, Black, S, w1, up);
      ghost var w2 := w1.(color := Black);
      Move(S, w2, up, s1, GoLeft(w2, up));
      Links(S, s1, GoLeft(w2, up));
      Move(S, s1, GoLeft(w2, up), s1.left, GoLeft(s1, GoLeft(w2, up)));
      Paint(other.L, Black, S, s1.left, GoLeft(s1, GoLeft(w2, up)));
      ghost var w3 := w2.(left := s1.(left := Blacken(s1.left)));
      Move(S, Blacken(s1.left), GoLeft(s1, GoLeft(w2, up)), w3, up);
      RightRotateAt(parent, S, w3, up);
      assert RotR(w3) == FinishedR(w);
    }

    /** Sibling black, only its near child red: that child is rotated over the sibling. */
    method NearRight(other: Node, ghost S: set<Node>, ghost w: Tree<Node>, ghost up: Ctx<Node>)
      requires w.Branch? && w.left.Branch? && w.left.right.Branch?
      requires other == w.left.node && Here(S, w, up)
      modifies this`root, S
      ensures Here(S, NearRotR(w), up)
    {
      hide Here, At, Nodes, CtxNodes;
      var s := w.left;
      var d := GoLeft(w, up);
      Move(S, w, up, s, d);
      Links(S, s, d);
      Move(S, s, d, s.right, GoRight(s, d));
      Paint(other.R, Black, S, s.right, GoRight(s, d));
      var s1 := s.(right := Blacken(s.right));
      Move(S, Blacken(s.right), GoRight(s, d), s1, d);
      Paint(other, Red, S, s1, d);
      LeftRotateAt(other, S, s1.(color := Red), d);
      Move(S, RotL(s1.(color := Red)), d, NearRotR(w), up);
    }

    /** Sibling red: it turns black, the parent red, and the parent is rotated below it. */
    method RedSiblingRight(parent: Node, other: Node, ghost S: set<Node>, ghost w: Tree<Node>, ghost up: Ctx<Node>)
      requires w.Branch? && w.left.Branch?
      requires parent == w.node && other == w.left.node && Here(S, w, up)
      modifies this`root, S
      ensures Here(S, w.(color := Red, left := w.left.right), GoRight(Blacken(w.left), up))
    {
      hide At, Nodes, CtxNodes;
      var s1 := Blacken(w.left);
      Move(S, w, up, w.left, GoLeft(w, up));
      LinksAround(Cells(S), w.left, GoLeft(w, up), root);
      Paint(other, Black, S, w.left, GoLeft(w, up));
      Move(S, s1, GoLeft(w, up), w.(left := s1), up);
      Paint(parent, Red, S, w.(left := s1), up);
      RightRotateAt(parent, S, w.(color := Red, left := s1), up);
      Move(S, RotR(w.(color := Red, left := s1)), up,
           w.(color := Red, left := w.left.right), GoRight(Blacken(w.left), up));
    }

    /** The branch of the loop body for a black sibling, the hole the right child; `stop` when it ends the walk. */
    method ShortRightAt(parent: Node, other: Node, ghost S: set<Node>, ghost w: Tree<Node>,
                        ghost up: Ctx<Node>) returns (stop: bool)
      requires w.Branch? && w.left.Branch?
      requires parent == w.node && other == w.left.node && Here(S, w, up)
      modifies this`root, S
      ensures match ShortRight(w.left, w.node, w.key, w.color, w.right, up)
              case Done(u) => stop && Here(S, u, Top)
              case Again(u, d) => !stop && Here(S, u, d)
    {
      hide Here, At, Nodes, CtxNodes;
      var s := w.left;
      var d := GoLeft(w, up);
      Move(S, w, up, s, d);
      Links(S, s, d);
      if (other.R == null || other.R.color == Black) && (other.L == null || other.L.color == Black) {
        Paint(other, Red, S, s, d);
        Move(S, s.(color := Red), d, w.(left := s.(color := Red)), up);
        stop := false;
      } else {
        var o := other;
        ghost var v := w;
        if other.L == null || other.L.color == Black {
          NearRight(other, S, w, up);
          v := NearRotR(w);
          Links(S, v, up);
          o := parent.L;
        }
        assert ShortRight(w.left, w.node, w.key, w.color, w.right, up) == Done(Plug(up, FinishedR(v)));
        FinishRight(parent, o, S, v, up);
        Move(S, FinishedR(v), up, Plug(up, FinishedR(v)), Top);
        stop := true;
      }
    }

    /** One turn of the loop body for a hole that is the right child. */
    method TurnRight(parent: Node, ghost S: set<Node>, ghost w: Tree<Node>, ghost up: Ctx<Node>) returns (stop: bool)
      requires w.Branch? && parent == w.node && Here(S, w, up)
      requires SiblingReady(GoRight(w, up))
      modifies this`root, S
      ensures match FixTurn(w.right, GoRight(w, up))
              case Done(u) => stop && Here(S, u, Top)
              case Again(u, d) => !stop && Here(S, u, d)
    {
      hide At, Nodes, CtxNodes;
      LinksAround(Cells(S), w, up, root);
      ChildColors(Cells(S), w, up, root);
      var other := parent.L;
      if other.color == Red {
        RedSiblingRight(parent, other, S, w, up);
        ghost var v := w.(color := Red, left := w.left.right);
        ghost var d := GoRight(Blacken(w.left), up);
        LinksAround(Cells(S), v, d, root);
        other := parent.L;
        stop := ShortRightAt(parent, other, S, v, d);
      } else {
        stop := ShortRightAt(parent, other, S, w, up);
      }
    }

    /** Rebalances from child `n` of `parent`. `fault` when the code would read the
        colour of a NULL sibling; that happens exactly for the `lost` parents, nodes
        with no children at all. Otherwise the context of the hole is balanced; the
        hole itself may hold any tree, for only its root's colour is ever looked at. */
    method RemoveFixup(n0: Node?, parent0: Node?, ghost S: set<Node>, ghost t0: Tree<Node>, ghost c0: Ctx<Node>,
                       ghost h0: nat, ghost lost: bool)
      returns (fault: bool)
      requires lost ==> n0 == null && parent0 != null && parent0.L == null && parent0.R == null && root != null
      requires !lost ==> Here(S, t0, c0) && CtxReady(c0, h0) && HoleRead(n0, t0, c0)
      requires !lost && !c0.Top? && !(n0 != null && IsRed(t0)) ==> parent0 == c0.node
      modifies this`root, S
      ensures fault == lost
      ensures lost ==> Cells(S) == old(Cells(S)) && root == old(root)
      ensures !lost ==> Here(S, Fixed(n0, t0, c0), Top)
    {
      hide At, Nodes, CtxNodes, CtxReady, FixTurn, SiblingReady, Fixed;
      var n, parent := n0, parent0;
      ghost var t, c, h := t0, c0, h0;
      while (n == null || n.color == Black) && n != root
        invariant lost ==> Cells(S) == old(Cells(S)) && root == old(root)
        invariant lost ==> n == n0 && parent == parent0 && unchanged(parent0)
        invariant !lost ==> Here(S, t, c) && CtxReady(c, h) && HoleRead(n, t, c)
        invariant !lost && !c.Top? && !(n != null && IsRed(t)) ==> parent == c.node
        invariant !lost ==> Fixed(n, t, c) == Fixed(n0, t0, c0)
        decreases Depth(c), if n != null && IsRed(t) then 0 else 1
      {
        if !lost {
          HoleLinks(Cells(S), n, t, c, root, h);
          TurnKeepsReady(t, c, h);
          FixedTurn(n, t, c);
        }
        var stop;
        if parent.L == n {
          if parent.R == null { return true; }
          Move(S, t, c, Climb(t, c), c.up);
          stop := TurnLeft(parent, S, Climb(t, c), c.up);
        } else {
          if parent.L == null { return true; }
          Move(S, t, c, Climb(t, c), c.up);
          stop := TurnRight(parent, S, Climb(t, c), c.up);
        }
        if stop {
          n := root;
          t, c, h := FixTurn(t, c).t, Top, 0;
          RootNull(Cells(S), t, root);
          ReadyTop();
          break;
        } else {
          n := parent;
          t, c, h := FixTurn(t, c).t, FixTurn(t, c).c, NextHeight(c, h);
          LinksAround(Cells(S), t, c, root);
          parent := n.parent;
        }
      }
      HoleLinks(Cells(S), n, t, c, root, h);
      FixedAtExit(n, t, c);
      if n != null {
        Paint(n, Black, S, t, c);
        Move(S, Blacken(t), c, Plug(c, Blacken(t)), Top);
      }
      return false;
    }

    /** Hangs the child `u` of `n` in place of `n`. */
    method Splice(n: Node, child: Node?, ghost S: set<Node>, ghost t: Tree<Node>, ghost u: Tree<Node>,
                  ghost c: Ctx<Node>)
      requires t.Branch? && t.node == n && Here(S, t, c)
      requires (u == t.left && t.right.Leaf?) || (u == t.right && t.left.Leaf?)
      requires child == RootOf(u)
      modifies this`root, S - {n}
      ensures Here(S - {n}, u, c)
      ensures c.Top? || root != null
    {
      hide At, Nodes, CtxNodes;
      ghost var m := Cells(S);
      SpliceLinks(m, t, u, c, root);
      Transplant(n, child);
      SpliceHere(m, Cells(S - {n}), t, u, c, old(root), root);
    }

    /** `r` takes the place, the left subtree and the colour of `n`. */
    method TakePlace(n: Node, r: Node)
      requires n.L != null && r != n && n.L != n && n.L != r
      requires n.parent != null ==> n.parent != n && n.parent != r && n.parent != n.L
      requires root == n <==> n.parent == null
      requires n.parent != null ==> (n.parent.L == n <==> n.parent.R != n)
      modifies this`root, r, n.L, Opt(n.parent)
      ensures Fields(r) == old(Fields(r)).(parent := old(n.parent), L := old(n.L), color := old(n.color))
      ensures var l := old(n.L); Fields(l) == old(Fields(l)).(parent := r)
      ensures var p := old(n.parent); p != null ==>
        Fields(p) == if old(p.L) == n then old(Fields(p)).(L := r) else old(Fields(p)).(R := r)
      ensures root == if old(n.parent) == null then r else old(root)
    {
      Transplant(n, r);
      r.L := n.L;
      r.L.parent := r;
      r.color := n.color;
    }

    /** The same on shapes; `w` is already below `r` on the right. */
    method TakePlaceAt(n: Node, r: Node, ghost S: set<Node>, ghost t: Tree<Node>, ghost w: Tree<Node>,
                       ghost c: Ctx<Node>)
      requires Promotable(Cells(S), S, t, r, r.key, w, c, root) && t.node == n
      modifies this`root, S - {n}
      ensures Here(S - {n}, Branch(t.left, r, old(r.key), t.color, w), c)
    {
      hide At, Rep, RepCtx, Distinct, CtxDistinct, Nodes, CtxNodes;
      ghost var m := Cells(S);
      CtxLinks(m, c, n, root);
      PromoteParts(m, t.left, n, r, r.key, t.color, w, c);
      TakePlace(n, r);
      TookPlace(m, Cells(S - {n}), S, t, r, r.key, w, c, old(root), root);
      BranchNodes(t.left, r, r.key, t.color, w);
    }

    /** Two children, the successor being the right child. */
    method PromoteChild(n: Node, r: Node, ghost S: set<Node>, ghost t: Tree<Node>, ghost c: Ctx<Node>)
      requires t.Branch? && t.node == n && t.left.Branch? && t.right.Branch? && t.right.left.Leaf?
      requires Here(S, t, c) && r == t.right.node
      modifies this`root, S
      ensures Here(S - {n}, Branch(t.left, r, t.right.key, t.color, t.right.right), c)
    {
      ghost var m := Cells(S);
      SpliceReady(m, t, c, root);
      assert Rep(m, t.right.right, r);
      if r.R != null { r.R.parent := r; }
      assert Cells(S) == m;
      assert m[r].R == RootOf(t.right.right) && m[r].key == t.right.key;
      TakePlaceAt(n, r, S, t, t.right.right, c);
    }

    /** The successor `r`, deeper than the right child, is replaced by its right child. */
    method CutOut(r: Node, ghost S: set<Node>, ghost t: Tree<Node>, ghost c: Ctx<Node>)
      requires t.Branch? && t.right.Branch? && t.right.left.Branch?
      requires Here(S, t, c) && r == MinTree(t.right).node
      modifies this`root, S - {r}
      ensures Here(S - {r}, t.(right := WithoutMin(t)), c) && r in S
      ensures r.R == old(r.R) && r.R == RootOf(MinTree(t.right).right) && r.key == MinTree(t.right).key
    {
      hide At, Rep, RepCtx, Distinct, CtxDistinct;
      ghost var m, d := MinTree(t.right), Append(Spine(t), GoRight(t, c));
      MinPlug(t.right, Top);
      PlugAppend(Spine(t), GoRight(t, c), m);
      PlugAppend(Spine(t), GoRight(t, c), m.right);
      Move(S, t, c, m, d);
      LinksAround(Cells(S), m, d, root);
      Splice(r, r.R, S, m, m.right, d);
      Move(S - {r}, m.right, d, t.(right := WithoutMin(t)), c);
    }

    /** Two children, the successor deeper: it is cut out and given the right subtree first. */
    method PromoteDeeper(n: Node, r: Node, ghost S: set<Node>, ghost t: Tree<Node>, ghost c: Ctx<Node>)
      requires t.Branch? && t.node == n && t.left.Branch? && t.right.Branch? && t.right.left.Branch?
      requires Here(S, t, c) && r == MinTree(t.right).node
      modifies this`root, S
      ensures Here(S - {n}, Branch(t.left, r, MinTree(t.right).key, t.color, WithoutMin(t)), c)
    {
      hide At, Rep, RepCtx, Distinct, CtxDistinct, Nodes, CtxNodes, WithoutMin, MinTree;
      ghost var w := WithoutMin(t);
      CutOut(r, S, t, c);
      WithoutMinBranch(t);
      ghost var m1 := Cells(S - {r});
      RightLink(m1, t.(right := w), c, root);
      r.R := n.R;
      r.R.parent := r;
      Regrafted(m1, Cells(S), S, t.(right := w), r, c, root);
      TakePlaceAt(n, r, S, t.(right := w), w, c);
    }

    /** The one-child case: the child takes the node's place. */
    method RemoveOuter(n: Node, ghost t: Tree<Node>, ghost c: Ctx<Node>) returns (fault: bool)
      requires Valid() && Plug(c, t) == shape && t.Branch? && t.node == n
      requires t.left.Leaf? || t.right.Leaf?
      modifies this, Nodes(shape)
      ensures shape == old(shape)
      ensures fault == LostParent(t, c)
      ensures Here(old(Nodes(shape)) - {n}, Removed(t, c), Top)
    {
      hide At, Nodes, CtxNodes, Inorder, Sorted, RedBlack;
      ghost var S := Nodes(shape);
      Move(S, shape, Top, t, c);
      LinksAround(Cells(S), t, c, root);
      var color := n.color;
      var child;
      ghost var u := if t.left.Leaf? then t.right else t.left;
      if n.L == null {
        child := n.R;
      } else {
        child := n.L;
      }
      Splice(n, child, S, t, u, c);
      if color == Black {
        OnlyChildReady(t, c);
        fault := RemoveFixup(child, n, S - {n}, u, c, 0, LostParent(t, c));
        OuterFixed(t, c);
        if LostParent(t, c) { Move(S - {n}, u, c, Plug(c, u), Top); }
      } else {
        fault := false;
        Move(S - {n}, u, c, Plug(c, u), Top);
      }
    }

    /** The two-children case, once the successor stands in the removed node's place. */
    method RebalanceInner(child: Node?, r: Node, ghost S: set<Node>, ghost t: Tree<Node>, ghost c: Ctx<Node>)
      requires t.Branch? && t.left.Branch? && t.right.Branch? && RedBlack(Plug(c, t))
      requires var m := MinTree(t.right); m.color == Black && r == m.node && child == RootOf(m.right)
      requires Here(S, WithoutMin(t), Promoted(t, c))
      modifies this`root, S
      ensures Here(S, Removed(t, c), Top)
    {
      hide At, Nodes, CtxNodes, Inorder, Sorted, RedBlack, CtxReady, BlackHeight, NoRedRed;
      PromotedReady(t, c);
      InnerFixed(t, c);
      ghost var m, d := MinTree(t.right), Promoted(t, c);
      ghost var u, e, h := WithoutMin(t), d, BlackHeight(t.right).h - 1;
      if Spine(t).Top? || m.right.Branch? {
        PlugAppend(Spine(t), d, m.right);
        Move(S, u, d, m.right, Append(Spine(t), d));
        u, e, h := m.right, Append(Spine(t), d), 0;
      }
      var fault := RemoveFixup(child, r, S, u, e, h, false);
    }

    /** The two-children case: the successor `r` takes the node's place. */
    method RemoveInner(n: Node, r: Node, ghost t: Tree<Node>, ghost c: Ctx<Node>)
      requires Valid() && Plug(c, t) == shape && t.Branch? && t.node == n
      requires t.left.Branch? && t.right.Branch? && r == MinTree(t.right).node
      modifies this, Nodes(shape)
      ensures shape == old(shape)
      ensures Here(old(Nodes(shape)) - {n}, Removed(t, c), Top)
    {
      hide At, Nodes, CtxNodes, Inorder, Sorted, RedBlack;
      ghost var S := Nodes(shape);
      Move(S, shape, Top, t, c);
      SuccessorLinks(Cells(S), t, c, root);
      var color := r.color;
      var child := r.R;
      if r.parent == n {
        PromoteChild(n, r, S, t, c);
      } else {
        PromoteDeeper(n, r, S, t, c);
      }
      ghost var w, d := WithoutMin(t), Promoted(t, c);
      Move(S - {n}, Branch(t.left, r, MinTree(t.right).key, t.color, w), c, w, d);
      if color == Black {
        RebalanceInner(child, r, S - {n}, t, c);
      } else {
        Move(S - {n}, w, d, Plug(d, w), Top);
      }
    }

    /** The least node of the right subtree. */
    method LeastBelow(n: Node, ghost S: set<Node>, ghost t: Tree<Node>, ghost c: Ctx<Node>) returns (x: Node)
      requires t.Branch? && t.node == n && Here(S, t, c) && n.R != null
      ensures x == First(Inorder(t.right) + After(c))
    {
      hide At, Nodes, CtxNodes, Inorder, First, Last;
      LinksAround(Cells(S), t, c, root);
      x := n.R;
      ghost var u, d := t.right, GoRight(t, c);
      Move(S, t, c, u, d);
      LinksAround(Cells(S), u, d, root);
      while x.L != null
        invariant u.Branch? && x == u.node && Here(S, u, d) && x.L == RootOf(u.left)
        invariant First(Inorder(u) + After(d)) == First(Inorder(t.right) + After(c))
        decreases u
      {
        FirstBelow(u, d);
        Move(S, u, d, u.left, GoLeft(u, d));
        x, u, d := x.L, u.left, GoLeft(u, d);
        LinksAround(Cells(S), u, d, root);
      }
      LeastIs(u, After(d));
    }

    /** The first node above with this one on its left. */
    method AboveLeft(n0: Node, ghost S: set<Node>, ghost t: Tree<Node>, ghost c: Ctx<Node>) returns (p: Node?)
      requires t.Branch? && t.node == n0 && Here(S, t, c)
      ensures p == First(After(c))
    {
      hide At, Nodes, CtxNodes, Inorder;
      var n := n0;
      LinksAround(Cells(S), t, c, root);
      p := n.parent;
      ghost var u, d := t, c;
      while p != null && n == p.R
        invariant u.Branch? && n == u.node && Here(S, u, d) && p == ParentOf(d)
        invariant After(d) == After(c)
        decreases d
      {
        LinksAround(Cells(S), u, d, root);
        Move(S, u, d, Climb(u, d), d.up);
        u, d := Climb(u, d), d.up;
        LinksAround(Cells(S), u, d, root);
        n := p;
        p := p.parent;
      }
      LinksAround(Cells(S), u, d, root);
    }

    /** The next node in key order, found along the links. */
    method SuccAt(n: Node, ghost S: set<Node>, ghost t: Tree<Node>, ghost c: Ctx<Node>) returns (s: Node?)
      requires t.Branch? && t.node == n && Here(S, t, c)
      ensures s == First(Inorder(t.right) + After(c))
    {
      hide At, Nodes, CtxNodes;
      LinksAround(Cells(S), t, c, root);
      if n.R != null {
        s := LeastBelow(n, S, t, c);
      } else {
        s := AboveLeft(n, S, t, c);
        assert Inorder(t.right) + After(c) == After(c);
      }
    }

    /** Takes `n` out. `fault` when the code would follow a NULL sibling: the node is a
        black leaf below the root. */
    method Remove(n: Node) returns (fault: bool)
      requires Valid() && n in Nodes(shape)
      modifies this, Nodes(shape)
      ensures Here(Nodes(shape), shape, Top) && Sorted(Inorder(shape)) && Nodes(shape) == old(Nodes(shape)) - {n}
      ensures IsWithout(Inorder(shape), old(Inorder(shape)), Entry(n, old(n.key)))
      ensures var (t, c) := Locate(old(shape), Top, n);
        fault == LostParent(t, c) && (RedBlack(shape) <==> !LostParent(t, c) && !WrongParent(t))
    {
      hide At, Nodes, CtxNodes, Inorder, Sorted, RedBlack;
      ghost var (t, c) := Locate(shape, Top, n);
      LocatePlug(shape, Top, n);
      ghost var S := Nodes(shape);
      Move(S, shape, Top, t, c);
      LinksAround(Cells(S), t, c, root);
      RemovedRedBlack(t, c);
      RemovedShape(t, c);
      if n.L == null || n.R == null {
        fault := RemoveOuter(n, t, c);
      } else {
        var r := SuccAt(n, S, t, c);
        FirstIsMin(t.right, After(c));
        RemoveInner(n, r, t, c);
        fault := false;
      }
      shape := Removed(t, c);
      NodesOnly(S - {n}, shape);
    }

    lemma NodesOnly(S: set<Node>, t: Tree<Node>)
      requires Here(S, t, Top)
      ensures Nodes(t) <= S
      ensures Here(Nodes(t), t, Top)
    {
      FrameWhole(Cells(S), Cells(Nodes(t)), t, root);
    }

    /** The greatest node of the left subtree. */
    method GreatestBelow(n: Node, ghost S: set<Node>, ghost t: Tree<Node>, ghost c: Ctx<Node>) returns (x: Node)
      requires t.Branch? && t.node == n && Here(S, t, c) && n.L != null
      ensures x == Last(Before(c) + Inorder(t.left))
    {
      hide At, Nodes, CtxNodes, Inorder, First, Last;
      LinksAround(Cells(S), t, c, root);
      x := n.L;
      ghost var u, d := t.left, GoLeft(t, c);
      Move(S, t, c, u, d);
      LinksAround(Cells(S), u, d, root);
      while x.R != null
        invariant u.Branch? && x == u.node && Here(S, u, d) && x.R == RootOf(u.right)
        invariant Last(Before(d) + Inorder(u)) == Last(Before(c) + Inorder(t.left))
        decreases u
      {
        LastBelow(u, d);
        Move(S, u, d, u.right, GoRight(u, d));
        x, u, d := x.R, u.right, GoRight(u, d);
        LinksAround(Cells(S), u, d, root);
      }
      GreatestIs(Before(d), u);
    }

    /** The first node above with this one on its right. */
    method AboveRight(n0: Node, ghost S: set<Node>, ghost t: Tree<Node>, ghost c: Ctx<Node>) returns (p: Node?)
      requires t.Branch? && t.node == n0 && Here(S, t, c)
      ensures p == Last(Before(c))
    {
      hide At, Nodes, CtxNodes, Inorder;
      var n := n0;
      LinksAround(Cells(S), t, c, root);
      p := n.parent;
      ghost var u, d := t, c;
      while p != null && n == p.L
        invariant u.Branch? && n == u.node && Here(S, u, d) && p == ParentOf(d)
        invariant Before(d) == Before(c)
        decreases d
      {
        LinksAround(Cells(S), u, d, root);
        Move(S, u, d, Climb(u, d), d.up);
        u, d := Climb(u, d), d.up;
        LinksAround(Cells(S), u, d, root);
        n := p;
        p := p.parent;
      }
      LinksAround(Cells(S), u, d, root);
    }

    /** The previous node in key order, found along the links. */
    method PredAt(n: Node, ghost S: set<Node>, ghost t: Tree<Node>, ghost c: Ctx<Node>) returns (s: Node?)
      requires t.Branch? && t.node == n && Here(S, t, c)
      ensures s == Last(Before(c) + Inorder(t.left))
    {
      hide At, Nodes, CtxNodes;
      LinksAround(Cells(S), t, c, root);
      if n.L != null {
        s := GreatestBelow(n, S, t, c);
      } else {
        s := AboveRight(n, S, t, c);
        assert Before(c) + Inorder(t.left) == Before(c);
      }
    }

    /** `rb_succ`: the node one place on in the in-order sequence. */
    method Succ(n: Node) returns (s: Node?)
      requires Valid() && n in Nodes(shape)
      ensures Next(Inorder(shape), n, s)
    {
      ghost var (t, c) := Locate(shape, Top, n);
      LocatePlug(shape, Top, n);
      Move(Nodes(shape), shape, Top, t, c);
      s := SuccAt(n, Nodes(shape), t, c);
      InorderPlug(c, t);
      EntriesDistinct(shape);
      RemovedEntries(Before(c), Inorder(t.left), Entry(n, t.key), Inorder(t.right), After(c));
      NextInMiddle(Before(c) + Inorder(t.left), Entry(n, t.key), Inorder(t.right) + After(c));
    }

    /** `rb_pred`: the node one place back in the in-order sequence. */
    method Pred(n: Node) returns (s: Node?)
      requires Valid() && n in Nodes(shape)
      ensures Previous(Inorder(shape), n, s)
    {
      ghost var (t, c) := Locate(shape, Top, n);
      LocatePlug(shape, Top, n);
      Move(Nodes(shape), shape, Top, t, c);
      s := PredAt(n, Nodes(shape), t, c);
      InorderPlug(c, t);
      EntriesDistinct(shape);
      RemovedEntries(Before(c), Inorder(t.left), Entry(n, t.key), Inorder(t.right), After(c));
      NextInMiddle(Before(c) + Inorder(t.left), Entry(n, t.key), Inorder(t.right) + After(c));
    }

    /** `rb_search` from the root: NULL exactly when no node has the key. */
    method Search(key: nat) returns (x: Node?)
      requires Valid()
      ensures x == null <==> !HasKey(Inorder(shape), key)
      ensures x != null ==> x in Nodes(shape) && x.key == key
    {
      hide At, Around, Sorted, HasKey, Inorder;
      ghost var S := Nodes(shape);
      ghost var t, c := shape, Top;
      RootNull(Cells(S), t, root);
      AroundTop<Node>(key);
      x := root;
      while x != null
        invariant Here(S, t, c) && Plug(c, t) == shape && Around(c, key) && RootOf(t) == x
        decreases t
      {
        Descend(t, c, key);
        LinksAround(Cells(S), t, c, root);
        if x.key == key {
          break;
        } else if key < x.key {
          Move(S, t, c, t.left, GoLeft(t, c));
          c, t, x := GoLeft(t, c), t.left, x.L;
        } else {
          Move(S, t, c, t.right, GoRight(t, c));
          c, t, x := GoRight(t, c), t.right, x.R;
        }
      }
      if x == null { Absent(c, key); } else { NodesOnly(S, shape); AtPlug(Cells(S), t, c, root); }
    }

    /** The least key at or above `key`. The source reads the key of a NULL node when
        `key` itself is absent; the NULL test is added here. */
    method SearchUpper(key: nat) returns (r: Node?)
      requires Valid()
      ensures r == null <==> NoneAbove(Inorder(shape), key)
      ensures r != null ==> r in Nodes(shape) && LeastAbove(Inorder(shape), key, r.key)
    {
      hide At, Around, Sorted, HasKey, Inorder, NoneAbove;
      ghost var S := Nodes(shape);
      ghost var t, c := shape, Top;
      RootNull(Cells(S), t, root);
      AroundTop<Node>(key);
      var x := root;
      var closet: Node? := null;
      while x != null
        invariant Here(S, t, c) && Plug(c, t) == shape && Around(c, key) && RootOf(t) == x
        invariant After(c) == [] ==> closet == null
        invariant After(c) != [] ==> closet != null && closet in S && closet.key == After(c)[0].key
        decreases t
      {
        Descend(t, c, key);
        LinksAround(Cells(S), t, c, root);
        if After(c) != [] { BelowUpper(t, c); }
        if x.key == key { FoundIsLeast(Inorder(shape), key); break; }
        if x.key > key {
          if closet == null {
            closet := x;
          } else if closet.key > x.key {
            closet := x;
          }
          Move(S, t, c, t.left, GoLeft(t, c));
          c, t, x := GoLeft(t, c), t.left, x.L;
        } else {
          Move(S, t, c, t.right, GoRight(t, c));
          c, t, x := GoRight(t, c), t.right, x.R;
        }
      }
      AtPlug(Cells(S), t, c, root);
      if x == null { UpperAtLeaf(c, key); }
      if x != null && x.key == key {
        r := x;
      } else {
        r := closet;
      }
    }
  }
}
