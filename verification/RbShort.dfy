/** Rebalancing a tree in which one subtree is a black node short: the loop of
    `rb_remove_fixup` as a function on that subtree and its context. */
module RbShort {
  import opened RbShape

  /** One turn of the loop: move up with a new short subtree, or finish with a whole tree. */
  datatype Turn<N> = Again(t: Tree<N>, c: Ctx<N>) | Done(t: Tree<N>)

  /** The short subtree `t` is the left child of `p`; its sibling `s` is black. */
  function ShortLeft<N>(t: Tree<N>, p: N, pk: nat, pc: Color, s: Tree<N>, up: Ctx<N>): Turn<N>
    requires s.Branch?
  {
    if !IsRed(s.left) && !IsRed(s.right) then
      Again(Branch(t, p, pk, pc, s.(color := Red)), up)
    else if !IsRed(s.right) then
      var near := s.left;
      Done(Plug(up, Branch(Branch(t, p, pk, Black, near.left), near.node, near.key, pc,
                           Branch(near.right, s.node, s.key, Black, s.right))))
    else
      Done(Plug(up, Branch(Branch(t, p, pk, Black, s.left), s.node, s.key, pc, Blacken(s.right))))
  }

  /** The short subtree `t` is the right child of `p`; its sibling `s` is black. */
  function ShortRight<N>(s: Tree<N>, p: N, pk: nat, pc: Color, t: Tree<N>, up: Ctx<N>): Turn<N>
    requires s.Branch?
  {
    if !IsRed(s.left) && !IsRed(s.right) then
      Again(Branch(s.(color := Red), p, pk, pc, t), up)
    else if !IsRed(s.left) then
      var near := s.right;
      Done(Plug(up, Branch(Branch(s.left, s.node, s.key, Black, near.left), near.node, near.key, pc,
                           Branch(near.right, p, pk, Black, t))))
    else
      Done(Plug(up, Branch(Blacken(s.left), s.node, s.key, pc, Branch(s.right, p, pk, Black, t))))
  }

  /** The sibling is there, and so is its child next to the hole when the sibling is red. */
  predicate SiblingReady<N>(c: Ctx<N>) {
    && !c.Top?
    && c.sibling.Branch?
    && (IsRed(c.sibling) ==> if c.InLeft? then c.sibling.left.Branch? else c.sibling.right.Branch?)
  }

  /** One turn of the loop: a red sibling is first rotated away. */
  function FixTurn<N>(t: Tree<N>, c: Ctx<N>): Turn<N>
    requires SiblingReady(c)
  {
    match c
    case InLeft(p, pk, pc, s, up) =>
      if IsRed(s) then ShortLeft(t, p, pk, Red, s.left, InLeft(s.node, s.key, Black, s.right, up))
      else ShortLeft(t, p, pk, pc, s, up)
    case InRight(s, p, pk, pc, up) =>
      if IsRed(s) then ShortRight(s.right, p, pk, Red, t, InRight(s.left, s.node, s.key, Black, up))
      else ShortRight(s, p, pk, pc, t, up)
  }

  /** The whole walk, entered at the loop test. */
  function FixShort<N>(t: Tree<N>, c: Ctx<N>): Tree<N>
    decreases Depth(c), if IsRed(t) then 0 else 2
  {
    if IsRed(t) || c.Top? then Plug(c, Blacken(t)) else FixFrom(t, c)
  }

  /** The whole walk, entered at the loop body. In a balanced context the
      sibling is always ready (see `ReadyWhenFits`). */
  function FixFrom<N>(t: Tree<N>, c: Ctx<N>): Tree<N>
    requires !c.Top?
    decreases Depth(c), 1
  {
    if !SiblingReady(c) then Plug(c, t)
    else
      match FixTurn(t, c)
      case Done(u) => Blacken(u)
      case Again(u, d) => FixShort(u, d)
  }

  lemma ReadyWhenFits<N>(c: Ctx<N>, h: nat)
    requires !c.Top? && Fits(c, h + 1) && CtxNoRedRed(c, false)
    ensures SiblingReady(c)
  {
    var s := c.sibling;
    if IsRed(s) {
      assert BlackHeight(s.left) == BlackHeight(s.right) == Even(h + 1);
    }
  }

  /** `t` is one black node short of what its context needs, and otherwise sound
      (its root may be red over a red child: the walk will blacken it). */
  predicate Short<N>(t: Tree<N>, c: Ctx<N>) {
    && BlackHeight(t).Even?
    && Fits(c, BlackHeight(t).h + 1)
    && NoRedRed(Blacken(t))
    && CtxNoRedRed(c, false) && RootBlack(c)
  }

  /** What the loop needs to know of the context alone: a subtree of black height `h`
      would be one black node short in it. */
  predicate CtxReady<N>(c: Ctx<N>, h: nat) {
    Fits(c, h + 1) && CtxNoRedRed(c, false) && RootBlack(c)
  }

  function NextHeight<N>(c: Ctx<N>, h: nat): nat
    requires !c.Top?
  {
    if IsRed(c.sibling) || c.color == Red then h else h + 1
  }

  /** One turn, whatever the short subtree is: it stays in a balanced context, nearer its end. */
  lemma TurnKeepsReady<N>(t: Tree<N>, c: Ctx<N>, h: nat)
    requires !c.Top? && CtxReady(c, h)
    ensures SiblingReady(c)
    ensures FixTurn(t, c).Again? ==>
              var u, d := FixTurn(t, c).t, FixTurn(t, c).c;
              && CtxReady(d, NextHeight(c, h)) && u.Branch? && u.node == c.node
              && (Depth(d) < Depth(c) || (Depth(d) == Depth(c) && IsRed(u)))
  {
    ReadyWhenFits(c, h);
    var s := c.sibling;
    if IsRed(s) {
      assert BlackHeight(s.left) == BlackHeight(s.right) == Even(h + 1);
    } else if c.color == Red {
      LighterHole(c.up);
    }
  }

  lemma BranchHeight<N>(l: Tree<N>, n: N, k: nat, c: Color, r: Tree<N>, h: nat)
    requires BlackHeight(l) == BlackHeight(r) == Even(h)
    ensures BlackHeight(Branch(l, n, k, c, r)) == Even(if c == Black then h + 1 else h)
  {
  }

  lemma PartHeight<N>(t: Tree<N>)
    requires BlackHeight(t).Even? && t.Branch?
    ensures BlackHeight(t.left) == BlackHeight(t.right)
    ensures BlackHeight(t.left) == if t.color == Red then BlackHeight(t) else Even(BlackHeight(t).h - 1)
  {
  }

  /** A context that stands a red subtree stands a black one. */
  lemma CtxUnderBlack<N>(c: Ctx<N>, red: bool)
    requires CtxNoRedRed(c, red)
    ensures CtxNoRedRed(c, false)
  {
    hide NoRedRed;
  }

  lemma ShortLeftSound<N>(t: Tree<N>, p: N, pk: nat, pc: Color, s: Tree<N>, up: Ctx<N>, h: nat)
    requires s.Branch? && !IsRed(s) && NoRedRed(s) && NoRedRed(t) && !IsRed(t)
    requires BlackHeight(t) == Even(h) && BlackHeight(s) == Even(h + 1)
    requires Fits(up, if pc == Black then h + 2 else h + 1) && CtxNoRedRed(up, pc == Red)
    requires if up.Top? then pc == Black else RootBlack(up)
    ensures match ShortLeft(t, p, pk, pc, s, up) case Done(u) => RedBlack(u) case Again(u, d) => Short(u, d)
  {
    hide BlackHeight, Plug;
    PartHeight(s);
    if !IsRed(s.left) && !IsRed(s.right) {
      BranchHeight(s.left, s.node, s.key, Red, s.right, h);
      BranchHeight(t, p, pk, pc, s.(color := Red), h);
      CtxUnderBlack(up, pc == Red);
      assert NoRedRed(Blacken(Branch(t, p, pk, pc, s.(color := Red))));
      hide NoRedRed, CtxNoRedRed, Fits;
    } else {
      var near := s.left;
      var l := Branch(t, p, pk, Black, if IsRed(s.right) then near else near.left);
      var w := if IsRed(s.right)
        then Branch(l, s.node, s.key, pc, Blacken(s.right))
        else Branch(l, near.node, near.key, pc, Branch(near.right, s.node, s.key, Black, s.right));
      assert NoRedRed(w);
      hide NoRedRed, CtxNoRedRed, Fits;
      if IsRed(s.right) {
        PartHeight(s.right);
        BranchHeight(s.right.left, s.right.node, s.right.key, Black, s.right.right, h);
        BranchHeight(t, p, pk, Black, near, h);
        BranchHeight(l, s.node, s.key, pc, Blacken(s.right), h + 1);
      } else {
        PartHeight(near);
        BranchHeight(t, p, pk, Black, near.left, h);
        BranchHeight(near.right, s.node, s.key, Black, s.right, h);
        BranchHeight(l, near.node, near.key, pc, Branch(near.right, s.node, s.key, Black, s.right), h + 1);
      }
      RedBlackSplit(up, w, if pc == Black then h + 2 else h + 1);
    }
  }

  lemma ShortRightSound<N>(s: Tree<N>, p: N, pk: nat, pc: Color, t: Tree<N>, up: Ctx<N>, h: nat)
    requires s.Branch? && !IsRed(s) && NoRedRed(s) && NoRedRed(t) && !IsRed(t)
    requires BlackHeight(t) == Even(h) && BlackHeight(s) == Even(h + 1)
    requires Fits(up, if pc == Black then h + 2 else h + 1) && CtxNoRedRed(up, pc == Red)
    requires if up.Top? then pc == Black else RootBlack(up)
    ensures match ShortRight(s, p, pk, pc, t, up) case Done(u) => RedBlack(u) case Again(u, d) => Short(u, d)
  {
    hide BlackHeight, Plug;
    PartHeight(s);
    if !IsRed(s.left) && !IsRed(s.right) {
      BranchHeight(s.left, s.node, s.key, Red, s.right, h);
      BranchHeight(s.(color := Red), p, pk, pc, t, h);
      CtxUnderBlack(up, pc == Red);
      assert NoRedRed(Blacken(Branch(s.(color := Red), p, pk, pc, t)));
      hide NoRedRed, CtxNoRedRed, Fits;
    } else {
      var near := s.right;
      var r := Branch(if IsRed(s.left) then near else near.right, p, pk, Black, t);
      var w := if IsRed(s.left)
        then Branch(Blacken(s.left), s.node, s.key, pc, r)
        else Branch(Branch(s.left, s.node, s.key, Black, near.left), near.node, near.key, pc, r);
      assert NoRedRed(w);
      hide NoRedRed, CtxNoRedRed, Fits;
      if IsRed(s.left) {
        PartHeight(s.left);
        BranchHeight(s.left.left, s.left.node, s.left.key, Black, s.left.right, h);
        BranchHeight(near, p, pk, Black, t, h);
        BranchHeight(Blacken(s.left), s.node, s.key, pc, r, h + 1);
      } else {
        PartHeight(near);
        BranchHeight(near.right, p, pk, Black, t, h);
        BranchHeight(s.left, s.node, s.key, Black, near.left, h);
        BranchHeight(Branch(s.left, s.node, s.key, Black, near.left), near.node, near.key, pc, r, h + 1);
      }
      RedBlackSplit(up, w, if pc == Black then h + 2 else h + 1);
    }
  }

  lemma FixTurnSound<N>(t: Tree<N>, c: Ctx<N>)
    requires Short(t, c) && !IsRed(t) && !c.Top?
    ensures SiblingReady(c)
    ensures match FixTurn(t, c) case Done(u) => RedBlack(u) case Again(u, d) => Short(u, d)
  {
    var h := BlackHeight(t).h;
    ReadyWhenFits(c, h);
    match c
    case InLeft(p, pk, pc, s, up) =>
      if IsRed(s) {
        ShortLeftSound(t, p, pk, Red, s.left, InLeft(s.node, s.key, Black, s.right, up), h);
      } else {
        ShortLeftSound(t, p, pk, pc, s, up, h);
      }
    case InRight(s, p, pk, pc, up) =>
      if IsRed(s) {
        ShortRightSound(s.right, p, pk, Red, t, InRight(s.left, s.node, s.key, Black, up), h);
      } else {
        ShortRightSound(s, p, pk, pc, t, up, h);
      }
  }

  /** A tree with one subtree a black node short is rebalanced into a red-black tree. */
  lemma {:induction false} FixShortRedBlack<N>(t: Tree<N>, c: Ctx<N>)
    requires Short(t, c)
    ensures RedBlack(FixShort(t, c))
    decreases Depth(c), if IsRed(t) then 0 else 2
  {
    if IsRed(t) || c.Top? {
      RedBlackSplit(c, Blacken(t), BlackHeight(Blacken(t)).h);
      if c.Top? && !IsRed(t) && t.Branch? { assert Blacken(t) == t; }
    } else {
      FixTurnSound(t, c);
      match FixTurn(t, c)
      case Done(u) => assert Blacken(u) == u;
      case Again(u, d) => FixShortRedBlack(u, d);
    }
  }

  /** If some subtree is uneven on its own, the walk cannot repair it. */
  lemma {:induction false} FixShortUneven<N>(t: Tree<N>, c: Ctx<N>)
    requires BlackHeight(t).Uneven?
    ensures BlackHeight(FixShort(t, c)).Uneven?
    decreases Depth(c), if IsRed(t) then 0 else 2
  {
    if IsRed(t) || c.Top? {
      UnevenPlug(c, Blacken(t));
    } else {
      FixFromUneven(t, c);
    }
  }

  lemma {:induction false} FixFromUneven<N>(t: Tree<N>, c: Ctx<N>)
    requires BlackHeight(t).Uneven? && !c.Top?
    ensures BlackHeight(FixFrom(t, c)).Uneven?
    decreases Depth(c), 1
  {
    if !SiblingReady(c) {
      UnevenPlug(c, t);
    } else {
      FixTurnUneven(t, c);
      match FixTurn(t, c)
      case Done(u) =>
      case Again(u, d) => FixShortUneven(u, d);
    }
  }

  lemma FixTurnUneven<N>(t: Tree<N>, c: Ctx<N>)
    requires BlackHeight(t).Uneven? && SiblingReady(c)
    ensures BlackHeight(FixTurn(t, c).t).Uneven?
  {
    if FixTurn(t, c).Done? {
      match c
      case InLeft(p, pk, pc, s, up) =>
        var o, cc, u := if IsRed(s) then s.left else s, if IsRed(s) then Red else pc,
          if IsRed(s) then InLeft(s.node, s.key, Black, s.right, up) else up;
        var w := if !IsRed(o.right)
          then Branch(Branch(t, p, pk, Black, o.left.left), o.left.node, o.left.key, cc,
                      Branch(o.left.right, o.node, o.key, Black, o.right))
          else Branch(Branch(t, p, pk, Black, o.left), o.node, o.key, cc, Blacken(o.right));
        UnevenPlug(u, w);
      case InRight(s, p, pk, pc, up) =>
        var o, cc, u := if IsRed(s) then s.right else s, if IsRed(s) then Red else pc,
          if IsRed(s) then InRight(s.left, s.node, s.key, Black, up) else up;
        var w := if !IsRed(o.left)
          then Branch(Branch(o.left, o.node, o.key, Black, o.right.left), o.right.node, o.right.key, cc,
                      Branch(o.right.right, p, pk, Black, t))
          else Branch(Blacken(o.left), o.node, o.key, cc, Branch(o.right, p, pk, Black, t));
        UnevenPlug(u, w);
    }
  }

  /** One turn moves nothing in the in-order sequence. */
  lemma FixTurnInorder<N>(t: Tree<N>, c: Ctx<N>)
    requires SiblingReady(c)
    ensures match FixTurn(t, c)
            case Done(u) => Inorder(u) == Inorder(Plug(c, t))
            case Again(u, d) => Inorder(Plug(d, u)) == Inorder(Plug(c, t))
  {
    match c
    case InLeft(p, pk, pc, s, up) =>
      if IsRed(s) {
        var d := InLeft(s.node, s.key, Black, s.right, up);
        InorderRotate(t, p, pk, s.left, s.node, s.key, s.right, pc, Red, Red, Black);
        InorderInContext(up, Branch(t, p, pk, pc, s),
                         Branch(Branch(t, p, pk, Red, s.left), s.node, s.key, Black, s.right));
        ShortLeftInorder(t, p, pk, Red, s.left, d);
      } else {
        ShortLeftInorder(t, p, pk, pc, s, up);
      }
    case InRight(s, p, pk, pc, up) =>
      if IsRed(s) {
        var d := InRight(s.left, s.node, s.key, Black, up);
        InorderRotate(s.left, s.node, s.key, s.right, p, pk, t, Black, Red, Red, pc);
        InorderInContext(up, Branch(s, p, pk, pc, t),
                         Branch(s.left, s.node, s.key, Black, Branch(s.right, p, pk, Red, t)));
        ShortRightInorder(s.right, p, pk, Red, t, d);
      } else {
        ShortRightInorder(s, p, pk, pc, t, up);
      }
  }

  lemma ShortLeftInorder<N>(t: Tree<N>, p: N, pk: nat, pc: Color, s: Tree<N>, up: Ctx<N>)
    requires s.Branch?
    ensures match ShortLeft(t, p, pk, pc, s, up)
            case Done(u) => Inorder(u) == Inorder(Plug(up, Branch(t, p, pk, pc, s)))
            case Again(u, d) => Inorder(Plug(d, u)) == Inorder(Plug(up, Branch(t, p, pk, pc, s)))
  {
    var whole := Branch(t, p, pk, pc, s);
    if !IsRed(s.left) && !IsRed(s.right) {
      InorderInContext(up, whole, Branch(t, p, pk, pc, s.(color := Red)));
    } else if !IsRed(s.right) {
      var near := s.left;
      var w := Branch(Branch(t, p, pk, Black, near.left), near.node, near.key, pc,
                      Branch(near.right, s.node, s.key, Black, s.right));
      InorderRotate(near.left, near.node, near.key, near.right, s.node, s.key, s.right, Black, Black, Red, s.color);
      InorderRotate(t, p, pk, near.left, near.node, near.key, Branch(near.right, s.node, s.key, Black, s.right), pc,
                    Black, Black, pc);
      InorderInContext(up, whole, w);
    } else {
      var w := Branch(Branch(t, p, pk, Black, s.left), s.node, s.key, pc, Blacken(s.right));
      InorderRotate(t, p, pk, s.left, s.node, s.key, s.right, pc, s.color, Black, pc);
      InorderInContext(up, whole, w);
    }
  }

  lemma ShortRightInorder<N>(s: Tree<N>, p: N, pk: nat, pc: Color, t: Tree<N>, up: Ctx<N>)
    requires s.Branch?
    ensures match ShortRight(s, p, pk, pc, t, up)
            case Done(u) => Inorder(u) == Inorder(Plug(up, Branch(s, p, pk, pc, t)))
            case Again(u, d) => Inorder(Plug(d, u)) == Inorder(Plug(up, Branch(s, p, pk, pc, t)))
  {
    var whole := Branch(s, p, pk, pc, t);
    if !IsRed(s.left) && !IsRed(s.right) {
      InorderInContext(up, whole, Branch(s.(color := Red), p, pk, pc, t));
    } else if !IsRed(s.left) {
      var near := s.right;
      var w := Branch(Branch(s.left, s.node, s.key, Black, near.left), near.node, near.key, pc,
                      Branch(near.right, p, pk, Black, t));
      InorderRotate(s.left, s.node, s.key, near.left, near.node, near.key, near.right, s.color, Red, Black, Black);
      InorderRotate(Branch(s.left, s.node, s.key, Black, near.left), near.node, near.key, near.right, p, pk, t, pc,
                    Black, Black, pc);
      InorderInContext(up, whole, w);
    } else {
      var w := Branch(Blacken(s.left), s.node, s.key, pc, Branch(s.right, p, pk, Black, t));
      InorderRotate(s.left, s.node, s.key, s.right, p, pk, t, pc, Black, s.color, pc);
      InorderInContext(up, whole, w);
    }
  }

  /** The walk moves nothing in the in-order sequence, balanced context or not. */
  lemma {:induction false} FixShortInorder<N>(t: Tree<N>, c: Ctx<N>)
    ensures Inorder(FixShort(t, c)) == Inorder(Plug(c, t))
    decreases Depth(c), if IsRed(t) then 0 else 2
  {
    if IsRed(t) || c.Top? {
      InorderInContext(c, t, Blacken(t));
    } else {
      FixFromInorder(t, c);
    }
  }

  lemma {:induction false} FixFromInorder<N>(t: Tree<N>, c: Ctx<N>)
    requires !c.Top?
    ensures Inorder(FixFrom(t, c)) == Inorder(Plug(c, t))
    decreases Depth(c), 1
  {
    if SiblingReady(c) {
      FixTurnInorder(t, c);
      match FixTurn(t, c)
      case Done(u) =>
      case Again(u, d) => FixShortInorder(u, d);
    }
  }
}
