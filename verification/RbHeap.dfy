/** What a heap of linked nodes stands for: trees, contexts, and what pointer writes do to them. */
module RbHeap {
  import opened RbShape
  import opened RbShort
  import opened RbDelete
  import opened RbSearch

  /** The parent link and the colour share one word in the source; here they are two fields. */
  class Node {
    var key: nat
    var parent: Node?
    var color: Color
    var L: Node?
    var R: Node?
  }

  /** The fields of one node, and of all nodes of a set. */
  datatype Cell = Cell(key: nat, color: Color, parent: Node?, L: Node?, R: Node?)

  type Heap = map<Node, Cell>

  ghost function Cells(s: set<Node>): (m: Heap)
    reads s
  {
    map n | n in s :: Fields(n)
  }

  ghost function Fields(n: Node): Cell
    reads n
  {
    Cell(n.key, n.color, n.parent, n.L, n.R)
  }

  ghost function Opt(n: Node?): set<Node> {
    if n == null then {} else {n}
  }

  function RootOf(t: Tree<Node>): Node? {
    if t.Leaf? then null else t.node
  }

  function ParentOf(c: Ctx<Node>): Node? {
    if c.Top? then null else c.node
  }

  ghost function Nodes(t: Tree<Node>): set<Node> {
    match t
    case Leaf => {}
    case Branch(l, n, _, _, r) => Nodes(l) + {n} + Nodes(r)
  }

  ghost function CtxNodes(c: Ctx<Node>): set<Node> {
    if c.Top? then {} else {c.node} + Nodes(c.sibling) + CtxNodes(c.up)
  }

  ghost predicate Distinct(t: Tree<Node>) {
    match t
    case Leaf => true
    case Branch(l, n, _, _, r) =>
      n !in Nodes(l) && n !in Nodes(r) && Nodes(l) !! Nodes(r) && Distinct(l) && Distinct(r)
  }

  ghost predicate CtxDistinct(c: Ctx<Node>) {
    c.Top? ||
    (c.node !in Nodes(c.sibling) && c.node !in CtxNodes(c.up) && Nodes(c.sibling) !! CtxNodes(c.up)
     && Distinct(c.sibling) && CtxDistinct(c.up))
  }

  /** The cells of `t`'s nodes hold exactly the links, keys and colours of `t`, below `parent`. */
  ghost predicate Rep(m: Heap, t: Tree<Node>, parent: Node?) {
    match t
    case Leaf => true
    case Branch(l, n, k, c, r) =>
      n in m && m[n] == Cell(k, c, parent, RootOf(l), RootOf(r)) && Rep(m, l, n) && Rep(m, r, n)
  }

  /** The cells of `c`'s nodes hold exactly the links, keys and colours of `c`, around `hole`. */
  ghost predicate RepCtx(m: Heap, c: Ctx<Node>, hole: Node?, root: Node?) {
    match c
    case Top => root == hole
    case InLeft(n, k, col, s, up) =>
      n in m && m[n] == Cell(k, col, ParentOf(up), hole, RootOf(s)) && Rep(m, s, n) && RepCtx(m, up, n, root)
    case InRight(s, n, k, col, up) =>
      n in m && m[n] == Cell(k, col, ParentOf(up), RootOf(s), hole) && Rep(m, s, n) && RepCtx(m, up, n, root)
  }

  ghost predicate Apart(t: Tree<Node>, c: Ctx<Node>) {
    Distinct(t) && CtxDistinct(c) && Nodes(t) !! CtxNodes(c)
  }

  /** The heap below `root` is `c` with `t` in its hole. */
  ghost predicate At(m: Heap, t: Tree<Node>, c: Ctx<Node>, root: Node?) {
    Rep(m, t, ParentOf(c)) && RepCtx(m, c, RootOf(t), root) && Apart(t, c)
  }

  lemma {:induction false} AtPlug(m: Heap, t: Tree<Node>, c: Ctx<Node>, root: Node?)
    ensures Nodes(Plug(c, t)) == Nodes(t) + CtxNodes(c)
    ensures At(m, Plug(c, t), Top, root) <==> At(m, t, c, root)
    decreases c
  {
    match c
    case Top =>
    case InLeft(n, k, col, s, up) => AtPlug(m, Branch(t, n, k, col, s), up, root);
    case InRight(s, n, k, col, up) => AtPlug(m, Branch(s, n, k, col, t), up, root);
  }

  lemma {:induction false} RootInCtx(m: Heap, c: Ctx<Node>, hole: Node?, root: Node?)
    requires RepCtx(m, c, hole, root) && !c.Top?
    ensures root != null && root in CtxNodes(c)
    decreases c
  {
    if !c.up.Top? { RootInCtx(m, c.up, c.node, root); }
  }

  // ---------- what a few pointer writes do to the represented shape ----------

  ghost predicate Same(m: Heap, m': Heap, s: set<Node>) {
    forall o :: o in s ==> o in m && o in m' && m'[o] == m[o]
  }

  lemma {:induction false} Frame(m: Heap, m': Heap, t: Tree<Node>, p: Node?)
    requires Rep(m, t, p) && Same(m, m', Nodes(t))
    ensures Rep(m', t, p)
  {
    if t.Branch? {
      Frame(m, m', t.left, t.node);
      Frame(m, m', t.right, t.node);
    }
  }

  lemma {:induction false} FrameCtx(m: Heap, m': Heap, c: Ctx<Node>, hole: Node?, root: Node?)
    requires RepCtx(m, c, hole, root) && Same(m, m', CtxNodes(c))
    ensures RepCtx(m', c, hole, root)
    decreases c
  {
    if !c.Top? {
      Frame(m, m', c.sibling, c.node);
      FrameCtx(m, m', c.up, c.node, root);
    }
  }

  /** Only the parent link and the colour of the top node of `t` changed. */
  lemma Repaint(m: Heap, m': Heap, t: Tree<Node>, p: Node?, q: Node?, col: Color)
    requires Rep(m, t, p) && Distinct(t)
    requires Same(m, m', Nodes(t) - (if t.Leaf? then {} else {t.node}))
    requires t.Branch? ==> t.node in m' && m'[t.node] == m[t.node].(parent := q, color := col)
    ensures t.Branch? ==> Rep(m', t.(color := col), q)
    ensures t.Leaf? ==> Rep(m', t, q)
  {
    if t.Branch? {
      Frame(m, m', t.left, t.node);
      Frame(m, m', t.right, t.node);
    }
  }

  /** Only the link from the context to its hole changed. */
  lemma Redirect(m: Heap, m': Heap, c: Ctx<Node>, hole: Node?, hole': Node?, root: Node?, root': Node?)
    requires RepCtx(m, c, hole, root) && CtxDistinct(c)
    requires root' == if c.Top? then hole' else root
    requires Same(m, m', CtxNodes(c) - (if c.Top? then {} else {c.node}))
    requires !c.Top? ==>
      c.node in m' && m'[c.node] == if c.InLeft? then m[c.node].(L := hole') else m[c.node].(R := hole')
    ensures RepCtx(m', c, hole', root')
  {
    if !c.Top? {
      Frame(m, m', c.sibling, c.node);
      FrameCtx(m, m', c.up, c.node, root);
    }
  }

  function RotL(t: Tree<Node>): Tree<Node> {
    if t.Leaf? || t.right.Leaf? then t
    else Branch(Branch(t.left, t.node, t.key, t.color, t.right.left), t.right.node, t.right.key, t.right.color,
                t.right.right)
  }

  function RotR(t: Tree<Node>): Tree<Node> {
    if t.Leaf? || t.left.Leaf? then t
    else Branch(t.left.left, t.left.node, t.left.key, t.left.color,
                Branch(t.left.right, t.node, t.key, t.color, t.right))
  }

  /** The parts of a tree about to be rotated left do not overlap. */
  lemma RotLParts(t: Tree<Node>)
    requires Distinct(t) && t.Branch? && t.right.Branch?
    ensures Nodes(RotL(t)) == Nodes(t) && Distinct(RotL(t))
    ensures Distinct(t.left) && Distinct(t.right.left) && Distinct(t.right.right)
    ensures var x, a, A, B, C := t.node, t.right.node, Nodes(t.left), Nodes(t.right.left), Nodes(t.right.right);
            && x != a && x !in A && x !in B && x !in C && a !in A && a !in B && a !in C
            && A !! B && A !! C && B !! C && Nodes(t) == A + B + C + {x, a}
  {
  }

  /** The parts of a tree about to be rotated right do not overlap. */
  lemma RotRParts(t: Tree<Node>)
    requires Distinct(t) && t.Branch? && t.left.Branch?
    ensures Nodes(RotR(t)) == Nodes(t) && Distinct(RotR(t))
    ensures Distinct(t.right) && Distinct(t.left.right) && Distinct(t.left.left)
    ensures var x, a, A, B, C := t.node, t.left.node, Nodes(t.right), Nodes(t.left.right), Nodes(t.left.left);
            && x != a && x !in A && x !in B && x !in C && a !in A && a !in B && a !in C
            && A !! B && A !! C && B !! C && Nodes(t) == A + B + C + {x, a}
  {
  }

  ghost function TopNode(t: Tree<Node>): set<Node> {
    if t.Leaf? then {} else {t.node}
  }

  ghost function TopCtx(c: Ctx<Node>): set<Node> {
    if c.Top? then {} else {c.node}
  }

  ghost predicate Points(m: Heap, m': Heap, c: Ctx<Node>, hole': Node?) {
    !c.Top? ==>
      c.node in m && c.node in m' && m'[c.node] == if c.InLeft? then m[c.node].(L := hole') else m[c.node].(R := hole')
  }

  lemma RotLReady(m: Heap, t: Tree<Node>, c: Ctx<Node>, root: Node?)
    requires t.Branch? && t.right.Branch? && At(m, t, c, root)
    ensures Nodes(RotL(t)) == Nodes(t)
    ensures var x, a, b, p := t.node, t.right.node, RootOf(t.right.left), ParentOf(c);
      && x in m && a in m && m[x].R == a && m[x].L != a && m[a].L == b && m[a].parent == x && m[x].parent == p
      && a != x && p != x && p != a
      && (b != null ==> b in m && m[b].parent == a && b != x && b != a && b != p)
      && (root == x <==> p == null)
      && (p != null ==> p in m && (m[p].L == x <==> m[p].R != x) && (m[p].L == x <==> c.InLeft?))
      && {x, a} + Opt(b) <= Nodes(t) && Opt(p) <= CtxNodes(c) && Nodes(t) !! CtxNodes(c)
  {
    RotLParts(t);
    assert Rep(m, t.right, t.node) && Rep(m, t.right.left, t.right.node);
    if !c.Top? {
      RootInCtx(m, c, t.node, root);
      assert Rep(m, c.sibling, c.node);
    }
  }

  lemma RotLRep(m: Heap, m': Heap, t: Tree<Node>, p: Node?)
    requires t.Branch? && t.right.Branch? && Rep(m, t, p) && Distinct(t)
    requires var x, a, B := t.node, t.right.node, t.right.left;
      && x in m && x in m' && m'[x] == m[x].(parent := a, R := RootOf(B))
      && a in m && a in m' && m'[a] == m[a].(parent := p, L := x)
      && (B.Branch? ==> B.node in m && B.node in m' && m'[B.node] == m[B.node].(parent := x))
    requires Same(m, m', Nodes(t) - {t.node, t.right.node} - TopNode(t.right.left))
    ensures Rep(m', RotL(t), p)
  {
    var x, a, B := t.node, t.right.node, t.right.left;
    RotLParts(t);
    assert Rep(m, t.right, x);
    Frame(m, m', t.left, x);
    Frame(m, m', t.right.right, a);
    Repaint(m, m', B, a, x, if B.Branch? then B.color else Red);
  }

  /** The cells after a left rotation of `t`'s top node hold the rotated tree. */
  lemma RotLAt(m: Heap, m': Heap, t: Tree<Node>, c: Ctx<Node>, root: Node?, root': Node?)
    requires t.Branch? && t.right.Branch? && At(m, t, c, root)
    requires var x, a, B := t.node, t.right.node, t.right.left;
      && x in m && x in m' && m'[x] == m[x].(parent := a, R := RootOf(B))
      && a in m && a in m' && m'[a] == m[a].(parent := ParentOf(c), L := x)
      && (B.Branch? ==> B.node in m && B.node in m' && m'[B.node] == m[B.node].(parent := x))
    requires root' == if c.Top? then t.right.node else root
    requires Points(m, m', c, t.right.node)
    requires Same(m, m', Nodes(t) - {t.node, t.right.node} - TopNode(t.right.left))
    requires Same(m, m', CtxNodes(c) - TopCtx(c))
    ensures At(m', RotL(t), c, root')
  {
    hide Rep, RepCtx, Distinct, CtxDistinct, Same, Nodes, CtxNodes;
    RotLParts(t);
    RotLRep(m, m', t, ParentOf(c));
    Redirect(m, m', c, t.node, t.right.node, root, root');
  }

  lemma RotRReady(m: Heap, t: Tree<Node>, c: Ctx<Node>, root: Node?)
    requires t.Branch? && t.left.Branch? && At(m, t, c, root)
    ensures Nodes(RotR(t)) == Nodes(t)
    ensures var x, a, b, p := t.node, t.left.node, RootOf(t.left.right), ParentOf(c);
      && x in m && a in m && m[x].L == a && m[x].R != a && m[a].R == b && (b != null ==> m[a].L != b)
      && m[a].parent == x && m[x].parent == p
      && a != x && p != x && p != a
      && (b != null ==> b in m && m[b].parent == a && b != x && b != a && b != p)
      && (root == x <==> p == null)
      && (p != null ==> p in m && (m[p].L == x <==> m[p].R != x) && (m[p].L == x <==> c.InLeft?))
      && {x, a} + Opt(b) <= Nodes(t) && Opt(p) <= CtxNodes(c) && Nodes(t) !! CtxNodes(c)
  {
    RotRParts(t);
    assert Rep(m, t.left, t.node) && Rep(m, t.left.right, t.left.node) && Rep(m, t.left.left, t.left.node);
    if !c.Top? {
      RootInCtx(m, c, t.node, root);
      assert Rep(m, c.sibling, c.node);
    }
  }

  lemma RotRRep(m: Heap, m': Heap, t: Tree<Node>, p: Node?)
    requires t.Branch? && t.left.Branch? && Rep(m, t, p) && Distinct(t)
    requires var x, a, B := t.node, t.left.node, t.left.right;
      && x in m && x in m' && m'[x] == m[x].(parent := a, L := RootOf(B))
      && a in m && a in m' && m'[a] == m[a].(parent := p, R := x)
      && (B.Branch? ==> B.node in m && B.node in m' && m'[B.node] == m[B.node].(parent := x))
    requires Same(m, m', Nodes(t) - {t.node, t.left.node} - TopNode(t.left.right))
    ensures Rep(m', RotR(t), p)
  {
    var x, a, B := t.node, t.left.node, t.left.right;
    RotRParts(t);
    assert Rep(m, t.left, x);
    Frame(m, m', t.right, x);
    Frame(m, m', t.left.left, a);
    Repaint(m, m', B, a, x, if B.Branch? then B.color else Red);
  }

  /** The cells after a right rotation of `t`'s top node hold the rotated tree. */
  lemma RotRAt(m: Heap, m': Heap, t: Tree<Node>, c: Ctx<Node>, root: Node?, root': Node?)
    requires t.Branch? && t.left.Branch? && At(m, t, c, root)
    requires var x, a, B := t.node, t.left.node, t.left.right;
      && x in m && x in m' && m'[x] == m[x].(parent := a, L := RootOf(B))
      && a in m && a in m' && m'[a] == m[a].(parent := ParentOf(c), R := x)
      && (B.Branch? ==> B.node in m && B.node in m' && m'[B.node] == m[B.node].(parent := x))
    requires root' == if c.Top? then t.left.node else root
    requires Points(m, m', c, t.left.node)
    requires Same(m, m', Nodes(t) - {t.node, t.left.node} - TopNode(t.left.right))
    requires Same(m, m', CtxNodes(c) - TopCtx(c))
    ensures At(m', RotR(t), c, root')
  {
    hide Rep, RepCtx, Distinct, CtxDistinct, Same, Nodes, CtxNodes;
    RotRParts(t);
    RotRRep(m, m', t, ParentOf(c));
    Redirect(m, m', c, t.node, t.left.node, root, root');
  }

  /** The subtree one level up. */
  function Climb(t: Tree<Node>, c: Ctx<Node>): Tree<Node>
    requires !c.Top?
  {
    if c.InLeft? then Branch(t, c.node, c.key, c.color, c.sibling) else Branch(c.sibling, c.node, c.key, c.color, t)
  }

  /** The place of the sibling. */
  function Aside(t: Tree<Node>, c: Ctx<Node>): Ctx<Node>
    requires !c.Top?
  {
    if c.InLeft? then InRight(t, c.node, c.key, c.color, c.up) else InLeft(c.node, c.key, c.color, t, c.up)
  }

  lemma Refocus(m: Heap, t: Tree<Node>, c: Ctx<Node>, root: Node?)
    requires !c.Top?
    ensures At(m, t, c, root) <==> At(m, Climb(t, c), c.up, root)
    ensures At(m, t, c, root) <==> At(m, c.sibling, Aside(t, c), root)
    ensures Nodes(t) + CtxNodes(c) == Nodes(Climb(t, c)) + CtxNodes(c.up)
    ensures Nodes(t) + CtxNodes(c) == Nodes(c.sibling) + CtxNodes(Aside(t, c))
  {
  }

  /** What the links say about the children of the focus. */
  lemma ChildColors(m: Heap, t: Tree<Node>, c: Ctx<Node>, root: Node?)
    requires At(m, t, c, root) && t.Branch?
    ensures t.left.Branch? ==> t.left.node in m && m[t.left.node].color == t.left.color
    ensures t.right.Branch? ==> t.right.node in m && m[t.right.node].color == t.right.color
  {
    assert Rep(m, t.left, t.node) && Rep(m, t.right, t.node);
  }

  /** What the links around the focus say. */
  lemma LinksAround(m: Heap, t: Tree<Node>, c: Ctx<Node>, root: Node?)
    requires At(m, t, c, root) && t.Branch?
    ensures t.node in m && m[t.node] == Cell(t.key, t.color, ParentOf(c), RootOf(t.left), RootOf(t.right))
    ensures c.Top? <==> root == t.node
    ensures !c.Top? ==>
      && c.node in m && m[c.node].color == c.color && m[c.node].parent == ParentOf(c.up) && t.node != c.node
      && (c.InLeft? <==> m[c.node].L == t.node) && (c.InRight? <==> m[c.node].R == t.node)
      && (if c.InLeft? then m[c.node].R else m[c.node].L) == RootOf(c.sibling)
      && (c.sibling.Branch? ==> c.sibling.node in m && m[c.sibling.node].color == c.sibling.color)
  {
    if !c.Top? {
      RootInCtx(m, c, t.node, root);
      assert Rep(m, c.sibling, c.node);
    }
  }

  lemma RootNull(m: Heap, t: Tree<Node>, root: Node?)
    requires At(m, t, Top, root)
    ensures root == RootOf(t)
  {
  }

  lemma FrameWhole(m: Heap, m': Heap, t: Tree<Node>, root: Node?)
    requires At(m, t, Top, root) && Same(m, m', Nodes(t))
    ensures At(m', t, Top, root)
  {
    Frame(m, m', t, null);
  }

  ghost function NodeSet(s: seq<Entry<Node>>): set<Node> {
    set e | e in s :: e.node
  }

  lemma {:induction false} NodesOfEntries(t: Tree<Node>)
    ensures Nodes(t) == NodeSet(Inorder(t))
  {
    if t.Branch? {
      NodesOfEntries(t.left);
      NodesOfEntries(t.right);
      assert forall e :: e in Inorder(t) <==>
        e in Inorder(t.left) || e == Entry(t.node, t.key) || e in Inorder(t.right);
      assert Entry(t.node, t.key) in Inorder(t);
    }
  }

  /** A new red leaf in the right place, after the insertion walk. */
  lemma InsertedShape(n: Node, k: nat, c: Ctx<Node>)
    requires RedBlack(Plug(c, Leaf)) && Sorted(Inorder(Plug(c, Leaf))) && Around(c, k)
    ensures RootBlack(c)
    ensures var u := InsertFix(Branch(Leaf, n, k, Red, Leaf), c);
      && RedBlack(u) && Sorted(Inorder(u)) && u.Branch?
      && IsWithout(Inorder(Plug(c, Leaf)), Inorder(u), Entry(n, k))
      && Nodes(u) == Nodes(Plug(c, Leaf)) + {n}
  {
    var t := Branch(Leaf, n, k, Red, Leaf);
    assert BlackHeight(t) == Even(0);
    RedBlackSplit<Node>(c, Leaf, 0);
    InsertFixRedBlack(t, c, 0);
    InsertFixInorder(t, c);
    Vacant(c, n, k, Red);
    var u := InsertFix(t, c);
    NodesOfEntries(u);
    NodesOfEntries(Plug(c, Leaf));
    NodesWithout(Before(c), Entry(n, k), After(c));
    MiddleOut(Before(c), Entry(n, k), After(c));
  }

  /** `w` after the rotation that ends the walk, the short subtree being its left child. */
  function FinishedL(w: Tree<Node>): Tree<Node>
    requires w.Branch? && w.right.Branch?
  {
    var s := w.right;
    Branch(Branch(w.left, w.node, w.key, Black, s.left), s.node, s.key, w.color, Blacken(s.right))
  }

  /** `w` after its black sibling's red near child has been rotated over the sibling. */
  function NearRotL(w: Tree<Node>): Tree<Node>
    requires w.Branch? && w.right.Branch? && w.right.left.Branch?
  {
    w.(right := RotR(w.right.(color := Red, left := Blacken(w.right.left))))
  }

  function FinishedR(w: Tree<Node>): Tree<Node>
    requires w.Branch? && w.left.Branch?
  {
    var s := w.left;
    Branch(Blacken(s.left), s.node, s.key, w.color, Branch(s.right, w.node, w.key, Black, w.right))
  }

  function NearRotR(w: Tree<Node>): Tree<Node>
    requires w.Branch? && w.left.Branch? && w.left.right.Branch?
  {
    w.(left := RotL(w.left.(color := Red, right := Blacken(w.left.right))))
  }

  /** `n` is the root of the subtree in the hole; or NULL, the hole being a right child the code does not read. */
  ghost predicate HoleRead(n: Node?, t: Tree<Node>, c: Ctx<Node>) {
    n == RootOf(t) || (n == null && c.InRight?)
  }

  /** What the walk entered with node `n` makes of the tree. */
  ghost function Fixed(n: Node?, t: Tree<Node>, c: Ctx<Node>): Tree<Node> {
    if (n != null && IsRed(t)) || c.Top? then Plug(c, Blacken(t)) else FixFrom(t, c)
  }

  /** The loop test and the side test read off the shape. */
  lemma HoleLinks(m: Heap, n: Node?, t: Tree<Node>, c: Ctx<Node>, root: Node?, h: nat)
    requires At(m, t, c, root) && HoleRead(n, t, c) && CtxReady(c, h)
    ensures c.Top? <==> n == root
    ensures n != null ==> n == t.node && n in m && m[n].color == t.color && m[n].parent == ParentOf(c)
    ensures !c.Top? ==>
      && c.node in m && (c.InLeft? <==> m[c.node].L == n)
      && (if c.InLeft? then m[c.node].R else m[c.node].L) != null
      && c.sibling.Branch?
  {
    if !c.Top? {
      ReadyWhenFits(c, h);
      RootInCtx(m, c, RootOf(t), root);
      assert Rep(m, c.sibling, c.node);
    }
  }

  /** One turn of the loop does not change what the walk makes of the tree. */
  lemma FixedTurn(n: Node?, t: Tree<Node>, c: Ctx<Node>)
    requires SiblingReady(c) && HoleRead(n, t, c) && !(n != null && IsRed(t))
    ensures match FixTurn(t, c)
            case Done(u) => forall o :: Fixed(o, u, Top) == Fixed(n, t, c)
            case Again(u, d) => Fixed(RootOf(u), u, d) == Fixed(n, t, c)
  {
    var r := FixTurn(t, c);
    assert Fixed(n, t, c) == FixFrom(t, c);
    if r.Again? { assert FixFrom(t, c) == FixShort(r.t, r.c); }
  }

  lemma FixedAtExit(n: Node?, t: Tree<Node>, c: Ctx<Node>)
    requires HoleRead(n, t, c) && (c.Top? || (n != null && IsRed(t)))
    ensures Fixed(n, t, c) == Plug(c, Blacken(t))
  {
  }

  lemma ReadyTop()
    ensures CtxReady<Node>(Top, 0)
  {
  }

  /** A childless red node in the hole of `c`. */
  lemma LeafHung(m: Heap, n: Node, k: nat, c: Ctx<Node>, root: Node?)
    requires RepCtx(m, c, n, root) && CtxDistinct(c) && n !in CtxNodes(c)
    requires n in m && m[n] == Cell(k, Red, ParentOf(c), null, null)
    ensures At(m, Branch(Leaf, n, k, Red, Leaf), c, root)
    ensures Nodes(Branch(Leaf, n, k, Red, Leaf)) == {n}
  {
  }

  // ---------- taking a node out ----------

  /** The subtree below node `n` of `t`, and its context, `t` hanging in `c`. */
  ghost function Locate(t: Tree<Node>, c: Ctx<Node>, n: Node): (r: (Tree<Node>, Ctx<Node>))
    requires n in Nodes(t)
    ensures r.0.Branch? && r.0.node == n
  {
    if t.node == n then (t, c)
    else if n in Nodes(t.left) then Locate(t.left, GoLeft(t, c), n)
    else Locate(t.right, GoRight(t, c), n)
  }

  lemma {:induction false} LocatePlug(t: Tree<Node>, c: Ctx<Node>, n: Node)
    requires n in Nodes(t)
    ensures var (u, d) := Locate(t, c, n); Plug(d, u) == Plug(c, t) && u.Branch? && u.node == n
    decreases t
  {
    if t.node == n {
    } else if n in Nodes(t.left) {
      LocatePlug(t.left, GoLeft(t, c), n);
    } else {
      LocatePlug(t.right, GoRight(t, c), n);
    }
  }

  /** `u`, one of the children of `t`'s top node, has been hung in its place. */
  lemma SpliceAt(m: Heap, m': Heap, t: Tree<Node>, u: Tree<Node>, c: Ctx<Node>, root: Node?, root': Node?)
    requires t.Branch? && At(m, t, c, root) && (u == t.left || u == t.right)
    requires Points(m, m', c, RootOf(u)) && root' == if c.Top? then RootOf(u) else root
    requires u.Branch? ==> u.node in m && u.node in m' && m'[u.node] == m[u.node].(parent := ParentOf(c))
    requires Same(m, m', Nodes(u) - TopNode(u)) && Same(m, m', CtxNodes(c) - TopCtx(c))
    ensures At(m', u, c, root')
  {
    assert Rep(m, u, t.node) && Distinct(u);
    Repaint(m, m', u, t.node, ParentOf(c), if u.Branch? then u.color else Red);
    Redirect(m, m', c, t.node, RootOf(u), root, root');
  }

  /** Only the link up from `child` and the one down from `p`, which led to `n`, changed; `n` is no part of `m'`. */
  ghost predicate Relinked(m: Heap, m': Heap, n: Node, child: Node?, p: Node?, left: bool) {
    forall o :: o in m && o != n ==>
      && o in m'
      && (o == child ==> m'[o] == m[o].(parent := p))
      && (o != child && o == p ==> m'[o] == if left then m[o].(L := child) else m[o].(R := child))
      && (o != child && o != p ==> m'[o] == m[o])
  }

  lemma RelinkedSame(m: Heap, m': Heap, n: Node, child: Node?, p: Node?, left: bool, s: set<Node>)
    requires Relinked(m, m', n, child, p, left) && s <= m.Keys && n !in s && Opt(child) !! s && Opt(p) !! s
    ensures Same(m, m', s)
  {
  }

  lemma RelinkedEnds(m: Heap, m': Heap, n: Node, child: Node?, p: Node?, left: bool)
    requires Relinked(m, m', n, child, p, left) && child != n && p != n && (child != null ==> child != p)
    ensures child != null && child in m ==> child in m' && m'[child] == m[child].(parent := p)
    ensures p != null && p in m ==> p in m' && m'[p] == if left then m[p].(L := child) else m[p].(R := child)
  {
  }

  /** What the links around a node with one child say. */
  lemma SpliceLinks(m: Heap, t: Tree<Node>, u: Tree<Node>, c: Ctx<Node>, root: Node?)
    requires t.Branch? && At(m, t, c, root) && (u == t.left || u == t.right)
    ensures t.node in m && m[t.node].parent == ParentOf(c) && (c.Top? <==> root == t.node)
    ensures RootOf(u) != t.node && ParentOf(c) != t.node && (RootOf(u) != null ==> RootOf(u) != ParentOf(c))
    ensures !c.Top? ==> c.node in m && (c.InLeft? <==> m[c.node].L == t.node) && (c.InRight? <==> m[c.node].R == t.node)
    ensures !c.Top? ==> root != null
    ensures u.Branch? ==> u.node in m
  {
    hide At, Rep, RepCtx, Distinct, CtxDistinct;
    LinksAround(m, t, c, root);
    SpliceReady(m, t, c, root);
  }

  lemma SpliceSets(m: Heap, t: Tree<Node>, u: Tree<Node>, c: Ctx<Node>)
    requires t.Branch? && Apart(t, c) && (u == t.left || u == t.right) && Nodes(t) + CtxNodes(c) <= m.Keys
    ensures Nodes(u) <= m.Keys && CtxNodes(c) <= m.Keys && Nodes(u) !! CtxNodes(c)
    ensures t.node !in Nodes(u) && t.node !in CtxNodes(c) && TopNode(u) <= Nodes(u) && TopCtx(c) <= CtxNodes(c)
  {
  }

  lemma SpliceHere(m: Heap, m': Heap, t: Tree<Node>, u: Tree<Node>, c: Ctx<Node>, root: Node?, root': Node?)
    requires t.Branch? && At(m, t, c, root) && (u == t.left || u == t.right) && Nodes(t) + CtxNodes(c) <= m.Keys
    requires Relinked(m, m', t.node, RootOf(u), ParentOf(c), c.InLeft?)
    requires root' == if c.Top? then RootOf(u) else root
    ensures At(m', u, c, root') && Nodes(u) + CtxNodes(c) <= m.Keys - {t.node}
  {
    assert Apart(t, c);
    hide At, Rep, RepCtx, Distinct, CtxDistinct, Nodes, CtxNodes, Relinked, Same;
    SpliceSets(m, t, u, c);
    SpliceLinks(m, t, u, c, root);
    RelinkedEnds(m, m', t.node, RootOf(u), ParentOf(c), c.InLeft?);
    RelinkedSame(m, m', t.node, RootOf(u), ParentOf(c), c.InLeft?, Nodes(u) - TopNode(u));
    RelinkedSame(m, m', t.node, RootOf(u), ParentOf(c), c.InLeft?, CtxNodes(c) - TopCtx(c));
    SpliceAt(m, m', t, u, c, root, root');
  }

  /** Node `r` stands where `t`'s top node stood, with subtrees `t.left` and `w` below it. */
  lemma SupplantAt(m: Heap, m': Heap, t: Tree<Node>, r: Node, rk: nat, w: Tree<Node>, c: Ctx<Node>, root: Node?,
                   root': Node?)
    requires t.Branch? && RepCtx(m, c, t.node, root) && Rep(m', t.left, r) && Rep(m', w, r)
    requires Apart(Branch(t.left, r, rk, t.color, w), c)
    requires r in m' && m'[r] == Cell(rk, t.color, ParentOf(c), RootOf(t.left), RootOf(w))
    requires Points(m, m', c, r) && root' == if c.Top? then r else root
    requires Same(m, m', CtxNodes(c) - TopCtx(c))
    ensures At(m', Branch(t.left, r, rk, t.color, w), c, root')
  {
    hide Distinct, CtxDistinct, Same, Nodes, CtxNodes, RepCtx;
    Redirect(m, m', c, t.node, r, root, root');
  }

  /** What the links say where a node is about to be taken out. */
  lemma SpliceReady(m: Heap, t: Tree<Node>, c: Ctx<Node>, root: Node?)
    requires t.Branch? && At(m, t, c, root)
    ensures Nodes(t.left) + Nodes(t.right) + CtxNodes(c) == Nodes(t) + CtxNodes(c) - {t.node}
    ensures t.node !in CtxNodes(c) && Nodes(t) !! CtxNodes(c) && t.node !in Nodes(t.left) + Nodes(t.right)
    ensures Nodes(t.left) !! Nodes(t.right) && Distinct(t.left) && Distinct(t.right) && CtxDistinct(c)
    ensures Rep(m, t.left, t.node) && Rep(m, t.right, t.node) && RepCtx(m, c, t.node, root)
    ensures t.left.Branch? ==> t.left.node in m && t.left.node in Nodes(t.left)
    ensures t.right.Branch? ==> t.right.node in m && t.right.node in Nodes(t.right)
    ensures !c.Top? ==> c.node in m && c.node in CtxNodes(c) && root in CtxNodes(c)
    ensures !c.Top? ==> (c.InLeft? <==> m[c.node].L == t.node) && (c.InRight? <==> m[c.node].R == t.node)
  {
    if !c.Top? {
      RootInCtx(m, c, t.node, root);
      assert Rep(m, c.sibling, c.node);
    }
  }

  lemma CtxLinks(m: Heap, c: Ctx<Node>, hole: Node, root: Node?)
    requires RepCtx(m, c, hole, root) && CtxDistinct(c) && hole !in CtxNodes(c)
    ensures c.Top? <==> root == hole
    ensures !c.Top? ==> c.node in m && c.node in CtxNodes(c)
    ensures !c.Top? ==> (c.InLeft? <==> m[c.node].L == hole) && (c.InRight? <==> m[c.node].R == hole)
  {
    if !c.Top? {
      RootInCtx(m, c, hole, root);
      assert Rep(m, c.sibling, c.node);
    }
  }

  function WithoutMin(t: Tree<Node>): Tree<Node>
    requires t.Branch? && t.right.Branch?
  {
    Plug(Spine(t), MinTree(t.right).right)
  }

  lemma {:induction false} PlugBranch(c: Ctx<Node>, t: Tree<Node>)
    requires !c.Top?
    ensures Plug(c, t).Branch?
    decreases c
  {
    if !c.up.Top? { PlugBranch(c.up, Climb(t, c)); }
  }

  lemma WithoutMinBranch(t: Tree<Node>)
    requires t.Branch? && t.right.Branch? && t.right.left.Branch?
    ensures WithoutMin(t).Branch?
  {
    MinPlug(t.right.left, GoLeft(t.right, Top));
    PlugBranch(Spine(t), MinTree(t.right).right);
  }

  lemma TookPlace(m: Heap, m': Heap, S: set<Node>, t: Tree<Node>, r: Node, rk: nat, w: Tree<Node>, c: Ctx<Node>,
                  root: Node?, root': Node?)
    requires t.Branch? && t.left.Branch? && Rep(m, t.left, t.node) && Rep(m, w, r) && RepCtx(m, c, t.node, root)
    requires Apart(Branch(t.left, r, rk, t.color, w), c) && t.node !in Nodes(t.left) + Nodes(w) + CtxNodes(c)
    requires Nodes(t.left) + Nodes(w) + CtxNodes(c) + {r} <= S
    requires r in m' && m'[r] == Cell(rk, t.color, ParentOf(c), RootOf(t.left), RootOf(w))
    requires var l := t.left.node; l in m && l in m' && m'[l] == m[l].(parent := r)
    requires Points(m, m', c, r) && root' == if c.Top? then r else root
    requires Same(m, m', S - {t.node, r, t.left.node} - TopCtx(c))
    ensures At(m', Branch(t.left, r, rk, t.color, w), c, root')
  {
    PromoteParts(m, t.left, t.node, r, rk, t.color, w, c);
    Repaint(m, m', t.left, t.node, r, t.left.color);
    Frame(m, m', w, r);
    SupplantAt(m, m', t, r, rk, w, c, root, root');
  }

  /** Everything is in place for `r` to replace the top node of `t`, with `w` below it on the right. */
  ghost predicate Promotable(m: Heap, S: set<Node>, t: Tree<Node>, r: Node, rk: nat, w: Tree<Node>, c: Ctx<Node>,
                             root: Node?) {
    && t.Branch? && t.left.Branch? && t.node in S && r in S && r != t.node && t.node in m && r in m
    && m[t.node].L == RootOf(t.left) && m[t.node].color == t.color && m[t.node].parent == ParentOf(c)
    && m[r].R == RootOf(w) && m[r].key == rk
    && Rep(m, t.left, t.node) && Rep(m, w, r) && RepCtx(m, c, t.node, root)
    && Apart(Branch(t.left, r, rk, t.color, w), c)
    && t.node !in Nodes(t.left) + Nodes(w) + CtxNodes(c)
    && Nodes(t.left) + Nodes(w) + CtxNodes(c) <= S
  }

  /** `t`'s right subtree has been hung below the outside node `r`. */
  lemma Regrafted(m: Heap, m': Heap, S: set<Node>, t: Tree<Node>, r: Node, c: Ctx<Node>, root: Node?)
    requires t.Branch? && At(m, t, c, root) && t.right.Branch? && t.left.Branch?
    requires Nodes(t) + CtxNodes(c) <= S - {r} && r in S && r in m' && t.node in m'
    requires m'[r].R == t.right.node && m'[t.node].L == RootOf(t.left)
    requires var b := t.right.node; b in m && b in m' && m'[b] == m[b].(parent := r)
    requires Same(m, m', S - {r, t.right.node})
    ensures Promotable(m', S, t, r, m'[r].key, t.right, c, root)
  {
    SpliceReady(m, t, c, root);
    Repaint(m, m', t.right, t.node, r, t.right.color);
    Frame(m, m', t.left, t.node);
    FrameCtx(m, m', c, t.node, root);
    assert m[t.node] == Cell(t.key, t.color, ParentOf(c), RootOf(t.left), RootOf(t.right));
  }

  lemma BranchNodes(l: Tree<Node>, n: Node, k: nat, col: Color, r: Tree<Node>)
    ensures Nodes(Branch(l, n, k, col, r)) == Nodes(l) + {n} + Nodes(r)
  {
  }

  /** A node with two children, read through its links. */
  lemma RightLink(m: Heap, t: Tree<Node>, c: Ctx<Node>, root: Node?)
    requires At(m, t, c, root) && t.Branch? && t.left.Branch? && t.right.Branch?
    ensures t.node in m && m[t.node].L == t.left.node && m[t.node].R == t.right.node
    ensures t.right.node in m && t.right.node != t.node
  {
    assert Rep(m, t.right, t.node);
  }

  lemma PromoteParts(m: Heap, l: Tree<Node>, n: Node, r: Node, rk: nat, col: Color, w: Tree<Node>, c: Ctx<Node>)
    requires Apart(Branch(l, r, rk, col, w), c) && Rep(m, l, n) && l.Branch?
    ensures l.node in m && l.node in Nodes(l) && m[l.node].color == l.color
    ensures Distinct(l) && r !in Nodes(l) && r !in Nodes(w) && r !in CtxNodes(c)
    ensures Nodes(l) !! Nodes(w) && Nodes(l) !! CtxNodes(c) && Nodes(w) !! CtxNodes(c)
  {
  }

  function Last(s: seq<Entry<Node>>): Node? {
    if s == [] then null else s[|s| - 1].node
  }

  function NodeAt(s: seq<Entry<Node>>, i: int): Node? {
    if 0 <= i < |s| then s[i].node else null
  }

  /** `m` follows `n` in `s`, NULL after the last one. */
  ghost predicate Next(s: seq<Entry<Node>>, n: Node, m: Node?) {
    forall i :: 0 <= i < |s| && s[i].node == n ==> m == NodeAt(s, i + 1)
  }

  ghost predicate Previous(s: seq<Entry<Node>>, n: Node, m: Node?) {
    forall i :: 0 <= i < |s| && s[i].node == n ==> m == NodeAt(s, i - 1)
  }

  ghost predicate NodesOnce(s: seq<Entry<Node>>) {
    forall i, j :: 0 <= i < j < |s| ==> s[i].node != s[j].node
  }

  lemma OnceJoined(l: seq<Entry<Node>>, x: Entry<Node>, r: seq<Entry<Node>>)
    requires NodesOnce(l) && NodesOnce(r) && NodeSet(l) !! NodeSet(r)
    requires x.node !in NodeSet(l) && x.node !in NodeSet(r)
    ensures NodesOnce(l + [x] + r)
  {
    assert forall i :: 0 <= i < |l| ==> l[i] in l && l[i].node in NodeSet(l);
    assert forall i :: 0 <= i < |r| ==> r[i] in r && r[i].node in NodeSet(r);
  }

  lemma {:induction false} EntriesDistinct(t: Tree<Node>)
    requires Distinct(t)
    ensures NodesOnce(Inorder(t))
  {
    if t.Branch? {
      EntriesDistinct(t.left);
      EntriesDistinct(t.right);
      NodesOfEntries(t.left);
      NodesOfEntries(t.right);
      OnceJoined(Inorder(t.left), Entry(t.node, t.key), Inorder(t.right));
    }
  }

  lemma NextInMiddle(b: seq<Entry<Node>>, x: Entry<Node>, a: seq<Entry<Node>>)
    requires NodesOnce(b + [x] + a)
    ensures Next(b + [x] + a, x.node, First(a))
    ensures Previous(b + [x] + a, x.node, Last(b))
  {
    var s := b + [x] + a;
    assert s[|b|] == x;
    assert forall i :: 0 <= i < |b| ==> s[i].node != s[|b|].node;
    assert forall i :: |b| < i < |s| ==> s[|b|].node != s[i].node;
  }

  /** Successor and predecessor undo each other. */
  lemma SuccPredInverse(t: Tree<Node>, n: Node, m: Node, p: Node?)
    requires Distinct(t) && n in Nodes(t)
    ensures Next(Inorder(t), n, m) && Previous(Inorder(t), m, p) ==> p == n
    ensures Previous(Inorder(t), n, m) && Next(Inorder(t), m, p) ==> p == n
  {
    var s := Inorder(t);
    NodesOfEntries(t);
    EntriesDistinct(t);
    var e :| e in s && e.node == n;
    var i :| 0 <= i < |s| && s[i] == e;
    assert NodeAt(s, i) == n;
  }

  lemma GreatestIs(b: seq<Entry<Node>>, u: Tree<Node>)
    requires u.Branch? && u.right.Leaf?
    ensures Last(b + Inorder(u)) == u.node
  {
  }

  lemma LeastIs(u: Tree<Node>, a: seq<Entry<Node>>)
    requires u.Branch? && u.left.Leaf?
    ensures First(Inorder(u) + a) == u.node
  {
  }

  lemma LastBelow(u: Tree<Node>, d: Ctx<Node>)
    requires u.Branch?
    ensures Before(d) + Inorder(u) == Before(GoRight(u, d)) + Inorder(u.right)
  {
  }

  function First(s: seq<Entry<Node>>): Node? {
    if s == [] then null else s[0].node
  }

  lemma FirstBelow(u: Tree<Node>, d: Ctx<Node>)
    requires u.Branch?
    ensures Inorder(u) + After(d) == Inorder(u.left) + After(GoLeft(u, d))
  {
  }

  lemma {:induction false} FirstIsMin(t: Tree<Node>, rest: seq<Entry<Node>>)
    requires t.Branch?
    ensures First(Inorder(t) + rest) == MinTree(t).node
  {
    InorderMin(t);
  }

  lemma InnerFixed(t: Tree<Node>, c: Ctx<Node>)
    requires t.Branch? && t.left.Branch? && t.right.Branch? && MinTree(t.right).color == Black
    requires var m := MinTree(t.right); m.right.Branch? ==> IsRed(m.right)
    ensures var m, d := MinTree(t.right), Promoted(t, c);
      (if Spine(t).Top? || m.right.Branch? then Fixed(RootOf(m.right), m.right, Append(Spine(t), d))
       else Fixed(null, WithoutMin(t), d)) == Removed(t, c)
    ensures var e := Append(Spine(t), Promoted(t, c)); !e.Top? && (Spine(t).Top? ==> e == Promoted(t, c))
  {
    PlugAppend(Spine(t), Promoted(t, c), Blacken(MinTree(t.right).right));
  }

  /** Is the successor the right child? The links tell. */
  lemma SuccessorLinks(m: Heap, t: Tree<Node>, c: Ctx<Node>, root: Node?)
    requires At(m, t, c, root) && t.Branch? && t.right.Branch?
    ensures var u := MinTree(t.right);
      && u.node in m && m[u.node].color == u.color && m[u.node].R == RootOf(u.right)
      && (m[u.node].parent == t.node <==> t.right.left.Leaf?)
    ensures Spine(t).Top? <==> t.right.left.Leaf?
  {
    var u, d := MinTree(t.right), Append(Spine(t), GoRight(t, c));
    MinPlug(t.right, Top);
    PlugAppend(Spine(t), GoRight(t, c), u);
    AtPlug(m, t, c, root);
    AtPlug(m, u, d, root);
    LinksAround(m, u, d, root);
    SpliceReady(m, t, c, root);
    if t.right.left.Branch? {
      MinPlug(t.right.left, GoLeft(t.right, Top));
      AtPlug(m, u, Spine(t), root);
      assert Spine(t).node in CtxNodes(Spine(t));
    }
  }

  lemma SortedWithout<N>(b: seq<Entry<N>>, x: Entry<N>, a: seq<Entry<N>>)
    requires Sorted(b + [x] + a)
    ensures Sorted(b + a)
  {
    var s, v := b + [x] + a, b + a;
    assert forall i :: 0 <= i < |v| ==> v[i] == s[if i < |b| then i else i + 1];
  }

  lemma NodesWithout(b: seq<Entry<Node>>, x: Entry<Node>, a: seq<Entry<Node>>)
    ensures NodeSet(b + [x] + a) == NodeSet(b + a) + {x.node}
  {
    assert x in b + [x] + a;
    assert forall e :: e in b + [x] + a <==> e == x || e in b + a;
  }

  /** The removed shape keeps order and loses exactly the removed node. */
  lemma RemovedShape(t: Tree<Node>, c: Ctx<Node>)
    requires t.Branch? && Sorted(Inorder(Plug(c, t)))
    ensures Sorted(Inorder(Removed(t, c)))
    ensures Nodes(Removed(t, c)) + {t.node} == Nodes(Plug(c, t))
    ensures IsWithout(Inorder(Removed(t, c)), Inorder(Plug(c, t)), Entry(t.node, t.key))
  {
    hide Removed, Nodes, Sorted, Plug, Before, After;
    RemovedContents(t, c);
    InorderPlug(c, t);
    var b, x, a := Before(c) + Inorder(t.left), Entry(t.node, t.key), Inorder(t.right) + After(c);
    RemovedEntries(Before(c), Inorder(t.left), x, Inorder(t.right), After(c));
    SortedWithout(b, x, a);
    NodesOfEntries(Plug(c, t));
    NodesOfEntries(Removed(t, c));
    NodesWithout(b, x, a);
    MiddleOut(b, x, a);
  }

  lemma RemovedEntries<T>(b: seq<T>, l: seq<T>, x: T, r: seq<T>, a: seq<T>)
    ensures b + (l + [x] + r) + a == (b + l) + [x] + (r + a)
    ensures b + l + r + a == (b + l) + (r + a)
  {
  }

  lemma OuterFixed(t: Tree<Node>, c: Ctx<Node>)
    requires t.Branch? && t.color == Black && (t.left.Leaf? || t.right.Leaf?)
    requires (t.left.Branch? ==> IsRed(t.left)) && (t.right.Branch? ==> IsRed(t.right))
    ensures var u := (if t.left.Leaf? then t.right else t.left);
      Removed(t, c) == if LostParent(t, c) then Plug(c, u) else Fixed(RootOf(u), u, c)
  {
  }
}
