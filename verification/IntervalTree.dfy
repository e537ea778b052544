/** The balanced index of free intervals (common/misc/interval_tree.cc): an AVL tree of
    heap nodes with parent pointers and stored heights, updated in place.

    The field contents of all nodes in the tree are mirrored by the ghost map `mem`, so that
    the reasoning about pointers is about values.  The tree's outline is a value of type
    `Shape`; `Ok` says that the recorded pointers spell out that outline and that the
    recorded heights are exact.  Work in the middle of the tree is described by a subtree
    and the `Ctx` around it.
*/
module TreeShapes {

  const TWO64: int := 0x1_0000_0000_0000_0000

  type UInt64 = x: int | 0 <= x < TWO64

  /** Unsigned subtraction, wrapping as the source's UInt64 does. */
  function Sub64(a: UInt64, b: UInt64): UInt64 {
    (a - b) % TWO64
  }

  datatype Interval = Interval(first: UInt64, second: UInt64)

  class Node {
    var parent: Node?
    var left: Node?
    var right: Node?
    var height: int
    var key: UInt64
    var interval: Interval

    constructor (i: Interval)
      ensures Image() == Rec(null, null, null, 1, i.first, i)
    {
      parent, left, right := null, null, null;
      height := 1;
      key := i.first;
      interval := i;
    }

    ghost function Image(): Rec
      reads this
    {
      Rec(parent, left, right, height, key, interval)
    }
  }

  /** The fields of one node. */
  datatype Rec = Rec(parent: Node?, left: Node?, right: Node?, height: int, key: UInt64, interval: Interval)

  /** The recorded fields of the nodes.  The null pointer has a record too, whose height is
      zero and whose pointers mean nothing, so that no step has to ask for it. */
  type Mem = map<Node?, Rec>

  // ----- outlines -----

  datatype Shape = Nil | Bin(l: Shape, n: Node, r: Shape)

  ghost function Root(s: Shape): Node? {
    if s.Nil? then null else s.n
  }

  ghost function Nodes(s: Shape): set<Node> {
    if s.Nil? then {} else Nodes(s.l) + {s.n} + Nodes(s.r)
  }

  ghost function Inorder(s: Shape): seq<Node> {
    if s.Nil? then [] else Inorder(s.l) + [s.n] + Inorder(s.r)
  }

  ghost function Max(a: int, b: int): int {
    if a < b then b else a
  }

  ghost function H(s: Shape): nat {
    if s.Nil? then 0 else 1 + Max(H(s.l), H(s.r))
  }

  ghost predicate Near(a: int, b: int) {
    -1 <= a - b <= 1
  }

  /** The two subtrees of every node differ by at most one in height. */
  ghost predicate Avl(s: Shape) {
    s.Bin? ==> Avl(s.l) && Avl(s.r) && Near(H(s.l), H(s.r))
  }

  /** No node occurs twice. */
  ghost predicate Distinct(s: Shape) {
    s.Bin? ==>
      && Distinct(s.l) && Distinct(s.r)
      && s.n !in Nodes(s.l) && s.n !in Nodes(s.r)
      && Nodes(s.l) !! Nodes(s.r)
  }

  /** The recorded pointers spell out the outline, and the recorded heights are exact. */
  ghost predicate Ok(m: Mem, s: Shape, parent: Node?) {
    s.Bin? ==>
      && s.n in m
      && m[s.n].parent == parent && m[s.n].left == Root(s.l) && m[s.n].right == Root(s.r)
      && m[s.n].height == H(s)
      && Ok(m, s.l, s.n) && Ok(m, s.r, s.n)
  }

  ghost predicate SameLinks(m: Mem, m': Mem, ns: set<Node>) {
    forall n :: n in ns && n in m ==>
      && n in m'
      && m'[n].parent == m[n].parent && m'[n].left == m[n].left && m'[n].right == m[n].right
      && m'[n].height == m[n].height
  }

  lemma {:induction false} OkFrame(m: Mem, m': Mem, s: Shape, p: Node?)
    requires Ok(m, s, p) && SameLinks(m, m', Nodes(s))
    ensures Ok(m', s, p)
  {
    if s.Bin? {
      OkFrame(m, m', s.l, s.n);
      OkFrame(m, m', s.r, s.n);
    }
  }

  /** A subtree that only changed parents. */
  lemma {:induction false} OkReparent(m: Mem, m': Mem, s: Shape, p: Node?, q: Node?)
    requires Ok(m, s, p) && Distinct(s)
    requires s.Bin? ==> s.n in m' && m'[s.n] == m[s.n].(parent := q)
    requires SameLinks(m, m', Nodes(s) - {Root(s)})
    ensures Ok(m', s, q)
  {
    if s.Bin? {
      OkFrame(m, m', s.l, s.n);
      OkFrame(m, m', s.r, s.n);
    }
  }

  // ----- contexts -----

  /** The surroundings of a subtree: the path up to the root with the siblings on it. */
  datatype Ctx =
    | Top
    | InLeft(n: Node, r: Shape, up: Ctx)
    | InRight(l: Shape, n: Node, up: Ctx)

  ghost function Plug(c: Ctx, s: Shape): Shape
    decreases c
  {
    match c
    case Top => s
    case InLeft(n, r, up) => Plug(up, Bin(s, n, r))
    case InRight(l, n, up) => Plug(up, Bin(l, n, s))
  }

  /** The parent of the subtree a context surrounds. */
  ghost function Up(c: Ctx): Node? {
    if c.Top? then null else c.n
  }

  /** The root of the whole tree, given the root of the subtree. */
  ghost function TopNode(c: Ctx, hole: Node?): Node?
    decreases c
  {
    if c.Top? then hole else TopNode(c.up, c.n)
  }

  ghost function CtxNodes(c: Ctx): set<Node> {
    match c
    case Top => {}
    case InLeft(n, r, up) => {n} + Nodes(r) + CtxNodes(up)
    case InRight(l, n, up) => {n} + Nodes(l) + CtxNodes(up)
  }

  /** The subtree on the other side of a context's innermost node. */
  ghost function Sibling(c: Ctx): Shape
    requires !c.Top?
  {
    match c
    case InLeft(_, r, _) => r
    case InRight(l, _, _) => l
  }

  ghost predicate CtxDistinct(c: Ctx) {
    !c.Top? ==>
      && Distinct(Sibling(c)) && CtxDistinct(c.up)
      && c.n !in Nodes(Sibling(c)) && c.n !in CtxNodes(c.up)
      && Nodes(Sibling(c)) !! CtxNodes(c.up)
  }

  ghost predicate Apart(c: Ctx, s: Shape) {
    Distinct(s) && CtxDistinct(c) && Nodes(s) !! CtxNodes(c)
  }

  /** The recorded height of a context's innermost node when the subtree has height `h`. */
  ghost function HAbove(c: Ctx, h: nat): nat
    requires !c.Top?
  {
    1 + Max(h, H(Sibling(c)))
  }

  /** The context's pointers lead to `hole`, and its recorded heights are exact when the
      subtree there has height `h`. */
  ghost predicate CtxOk(m: Mem, c: Ctx, hole: Node?, h: nat)
    decreases c
  {
    !c.Top? ==>
      && c.n in m
      && m[c.n].parent == Up(c.up)
      && m[c.n].left == (if c.InLeft? then hole else Root(c.l))
      && m[c.n].right == (if c.InLeft? then Root(c.r) else hole)
      && m[c.n].height == HAbove(c, h)
      && Ok(m, Sibling(c), c.n)
      && CtxOk(m, c.up, c.n, HAbove(c, h))
  }

  lemma {:induction false} CtxOkFrame(m: Mem, m': Mem, c: Ctx, hole: Node?, h: nat)
    requires CtxOk(m, c, hole, h) && SameLinks(m, m', CtxNodes(c))
    ensures CtxOk(m', c, hole, h)
    decreases c
  {
    if !c.Top? {
      OkFrame(m, m', Sibling(c), c.n);
      CtxOkFrame(m, m', c.up, c.n, HAbove(c, h));
    }
  }

  /** Hanging another subtree into the hole. */
  lemma {:induction false} CtxOkReplace(m: Mem, m': Mem, c: Ctx, hole: Node?, hole': Node?, h: nat)
    requires CtxOk(m, c, hole, h) && CtxDistinct(c)
    requires !c.Top? ==>
      && c.n in m'
      && m'[c.n] == (if c.InLeft? then m[c.n].(left := hole') else m[c.n].(right := hole'))
    requires SameLinks(m, m', CtxNodes(c) - {Up(c)})
    ensures CtxOk(m', c, hole', h)
  {
    if !c.Top? {
      OkFrame(m, m', Sibling(c), c.n);
      CtxOkFrame(m, m', c.up, c.n, HAbove(c, h));
    }
  }

  /** Every node of the context is balanced when the subtree has height `h`. */
  ghost predicate CtxAvl(c: Ctx, h: nat)
    decreases c
  {
    !c.Top? ==>
      && Near(h, H(Sibling(c)))
      && Avl(Sibling(c))
      && CtxAvl(c.up, HAbove(c, h))
  }

  ghost function Before(c: Ctx): seq<Node> {
    match c
    case Top => []
    case InLeft(n, r, up) => Before(up)
    case InRight(l, n, up) => Before(up) + Inorder(l) + [n]
  }

  ghost function After(c: Ctx): seq<Node> {
    match c
    case Top => []
    case InLeft(n, r, up) => [n] + Inorder(r) + After(up)
    case InRight(l, n, up) => After(up)
  }

  lemma {:induction false} Regroup(a: seq<Node>, b: seq<Node>, n: Node, d: seq<Node>, e: seq<Node>)
    ensures a + (b + [n] + d) + e == a + b + ([n] + d + e)
    ensures a + (b + [n] + d) + e == (a + b + [n]) + d + e
  {
  }

  lemma {:induction false} InorderPlug(c: Ctx, s: Shape)
    ensures Inorder(Plug(c, s)) == Before(c) + Inorder(s) + After(c)
    decreases c
  {
    match c
    case Top =>
    case InLeft(n, r, up) =>
      InorderPlug(up, Bin(s, n, r));
      Regroup(Before(up), Inorder(s), n, Inorder(r), After(up));
    case InRight(l, n, up) =>
      InorderPlug(up, Bin(l, n, s));
      Regroup(Before(up), Inorder(l), n, Inorder(s), After(up));
  }

  lemma {:induction false} NodesPlug(c: Ctx, s: Shape)
    ensures Nodes(Plug(c, s)) == Nodes(s) + CtxNodes(c)
    decreases c
  {
    match c
    case Top =>
    case InLeft(n, r, up) => NodesPlug(up, Bin(s, n, r));
    case InRight(l, n, up) => NodesPlug(up, Bin(l, n, s));
  }

  ghost function Elems(q: seq<Node>): set<Node> {
    set n | n in q
  }

  lemma {:induction false} NodesInorder(s: Shape)
    ensures Nodes(s) == Elems(Inorder(s))
  {
    if s.Bin? {
      NodesInorder(s.l);
      NodesInorder(s.r);
    }
  }

  /** A subtree that fits its context makes a whole tree. */
  lemma {:induction false} PlugWhole(m: Mem, c: Ctx, s: Shape)
    requires Apart(c, s) && Ok(m, s, Up(c)) && CtxOk(m, c, Root(s), H(s))
    requires Avl(s) && CtxAvl(c, H(s))
    ensures Distinct(Plug(c, s)) && Ok(m, Plug(c, s), null) && Avl(Plug(c, s))
    ensures Root(Plug(c, s)) == TopNode(c, Root(s))
    decreases c
  {
    match c
    case Top =>
    case InLeft(n, r, up) => PlugWhole(m, up, Bin(s, n, r));
    case InRight(l, n, up) => PlugWhole(m, up, Bin(l, n, s));
  }

  // ----- rotations -----

  datatype ChildDirection = Unspecified | Left | Right

  datatype RotationDirection = Clockwise | AntiClockwise

  ghost predicate Rotatable(s: Shape, dir: RotationDirection) {
    s.Bin? && (if dir.Clockwise? then s.l.Bin? else s.r.Bin?)
  }

  ghost function Rotated(s: Shape, dir: RotationDirection): Shape
    requires Rotatable(s, dir)
  {
    if dir.Clockwise? then Bin(s.l.l, s.l.n, Bin(s.l.r, s.n, s.r))
    else Bin(Bin(s.l, s.n, s.r.l), s.r.n, s.r.r)
  }

  lemma {:induction false} Reassociate(a: seq<Node>, x: Node, b: seq<Node>, y: Node, d: seq<Node>)
    ensures (a + [x] + b) + [y] + d == a + [x] + (b + [y] + d)
  {
  }

  lemma {:induction false} RotatedInorder(s: Shape, dir: RotationDirection)
    requires Rotatable(s, dir)
    ensures Inorder(Rotated(s, dir)) == Inorder(s)
  {
    if dir.Clockwise? {
      Reassociate(Inorder(s.l.l), s.l.n, Inorder(s.l.r), s.n, Inorder(s.r));
    } else {
      Reassociate(Inorder(s.l), s.n, Inorder(s.r.l), s.r.n, Inorder(s.r.r));
    }
  }

  lemma {:induction false} RotatedNodes(s: Shape, dir: RotationDirection)
    requires Rotatable(s, dir)
    ensures Nodes(Rotated(s, dir)) == Nodes(s)
  {
    if dir.Clockwise? {
      assert Nodes(s) == (Nodes(s.l.l) + {s.l.n} + Nodes(s.l.r)) + {s.n} + Nodes(s.r);
    } else {
      assert Nodes(s) == Nodes(s.l) + {s.n} + (Nodes(s.r.l) + {s.r.n} + Nodes(s.r.r));
    }
  }

  lemma {:induction false} RotatedDistinct(s: Shape, dir: RotationDirection)
    requires Rotatable(s, dir) && Distinct(s)
    ensures Distinct(Rotated(s, dir))
  {
    if dir.Clockwise? {
      assert Nodes(s.l) == Nodes(s.l.l) + {s.l.n} + Nodes(s.l.r);
      assert Distinct(Bin(s.l.r, s.n, s.r));
    } else {
      assert Nodes(s.r) == Nodes(s.r.l) + {s.r.n} + Nodes(s.r.r);
      assert Distinct(Bin(s.l, s.n, s.r.l));
    }
  }

  /** The pieces of a rotation are different nodes. */
  ghost predicate Pieces(a: Shape, x: Node, b: Shape, y: Node, d: Shape, c: Ctx) {
    && Distinct(a) && Distinct(b) && Distinct(d) && CtxDistinct(c) && x != y
    && x !in Nodes(a) && x !in Nodes(b) && x !in Nodes(d) && x !in CtxNodes(c)
    && y !in Nodes(a) && y !in Nodes(b) && y !in Nodes(d) && y !in CtxNodes(c)
    && Nodes(a) !! Nodes(b) && Nodes(a) !! Nodes(d) && Nodes(b) !! Nodes(d)
    && Nodes(a) !! CtxNodes(c) && Nodes(b) !! CtxNodes(c) && Nodes(d) !! CtxNodes(c)
  }

  lemma {:induction false} LeftPieces(a: Shape, x: Node, b: Shape, y: Node, d: Shape, c: Ctx)
    requires Apart(c, Bin(Bin(a, x, b), y, d))
    ensures Pieces(a, x, b, y, d, c)
  {
    var s := Bin(a, x, b);
    assert Nodes(s) == Nodes(a) + {x} + Nodes(b);
    assert Nodes(Bin(s, y, d)) == Nodes(s) + {y} + Nodes(d);
    assert Distinct(s);
  }

  lemma {:induction false} RightPieces(a: Shape, x: Node, b: Shape, y: Node, d: Shape, c: Ctx)
    requires Apart(c, Bin(a, x, Bin(b, y, d)))
    ensures Pieces(a, x, b, y, d, c)
  {
    var s := Bin(b, y, d);
    assert Nodes(s) == Nodes(b) + {y} + Nodes(d);
    assert Nodes(Bin(a, x, s)) == Nodes(a) + {x} + Nodes(s);
    assert Distinct(s);
  }

  /** The side of its parent on which a context's subtree hangs agrees with the keys. */
  ghost predicate SideByKey(m: Mem, c: Ctx, k: UInt64)
  {
    !c.Top? ==> c.n in m && (if c.InLeft? then k <= m[c.n].key else m[c.n].key < k)
  }

  /** `low` hangs in `c`, `top` is its child, and `b` hangs between them. */
  ghost predicate RotationReady(m: Mem, top: Node, low: Node, b: Shape, c: Ctx, dir: RotationDirection) {
    && null in m && m[null].height == 0
    && top in m && low in m && top != low
    && m[low].parent == Up(c) && SideByKey(m, c, m[top].key)
    && (if dir.Clockwise? then m[low].left == top && m[low].right != top && m[top].right == Root(b)
        else m[low].right == top && m[low].left != top && m[top].left == Root(b))
    && m[top].left != top && m[top].right != top
    && Root(b) in m && Root(b) !in {top, low}
    && Up(c) in m && Up(c) !in {top, low} && (Root(b) == null || Root(b) != Up(c))
    && m[top].left in m && m[top].right in m && m[low].left in m && m[low].right in m
    && m[top].left != low && m[top].right != low && m[low].left != low && m[low].right != low
  }

  ghost function SetParent(m: Mem, n: Node?, p: Node?): Mem
    requires n in m
  {
    m[n := m[n].(parent := p)]
  }

  ghost function SetLeft(m: Mem, n: Node?, v: Node?): Mem
    requires n in m
  {
    m[n := m[n].(left := v)]
  }

  ghost function SetRight(m: Mem, n: Node?, v: Node?): Mem
    requires n in m
  {
    m[n := m[n].(right := v)]
  }

  ghost function SetHeight(m: Mem, n: Node): Mem
    requires n in m && m[n].left in m && m[n].right in m
  {
    m[n := m[n].(height := Max(m[m[n].left].height, m[m[n].right].height) + 1)]
  }

  ghost function SetChild(m: Mem, n: Node?, child: Node?, dir: ChildDirection): Mem
    requires n in m && child in m
  {
    if dir.Right? || (dir.Unspecified? && m[n].key < m[child].key) then SetRight(m, n, child)
    else SetLeft(m, n, child)
  }

  /** `x` takes the place under `p` that its keys say. */
  ghost function Hoisted(m: Mem, x: Node, p: Node?): Mem
    requires x in m && p in m
  {
    SetChild(SetParent(m, x, p), p, x, Unspecified)
  }

  ghost function HungLeft(m: Mem, y: Node, child: Node?): Mem
    requires y in m && child in m
  {
    SetParent(SetLeft(m, y, child), child, y)
  }

  ghost function HungRight(m: Mem, y: Node, child: Node?): Mem
    requires y in m && child in m
  {
    SetParent(SetRight(m, y, child), child, y)
  }

  /** What a rotation does to the recorded pointers: `top` rises to where `low` hung, `low`
      becomes its child, and the middle subtree `b` changes sides. */
  ghost predicate RotationEffect(m: Mem, m': Mem, top: Node, low: Node, b: Shape, c: Ctx, dir: RotationDirection)
  {
    && m'.Keys == m.Keys && {top, low, null} <= m.Keys
    && (if dir.Clockwise? then
          && m'[low] == m[low].(parent := top, left := Root(b), height := m'[low].height)
          && m'[top] == m[top].(parent := Up(c), right := low, height := m'[top].height)
        else
          && m'[low] == m[low].(parent := top, right := Root(b), height := m'[low].height)
          && m'[top] == m[top].(parent := Up(c), left := low, height := m'[top].height))
    && (b.Bin? ==> b.n in m && m'[b.n] == m[b.n].(parent := low))
    && (!c.Top? ==>
          && c.n in m
          && m'[c.n] == (if c.InLeft? then m[c.n].(left := top) else m[c.n].(right := top)))
    && (forall n :: n in m && n != null && n !in {top, low} && n != Root(b) && n != Up(c) ==> m'[n] == m[n])
    && m'[null].height == m[null].height
  }

  /** A rotation's pointer steps. */
  ghost function Relinked(m: Mem, top: Node, low: Node, dir: RotationDirection): Mem
    requires {top, low} <= m.Keys && {m[low].parent, m[top].left, m[top].right} <= m.Keys
  {
    var m1 := Hoisted(m, top, m[low].parent);
    if dir.Clockwise? then HungRight(HungLeft(m1, low, m[top].right), top, low)
    else HungLeft(HungRight(m1, low, m[top].left), top, low)
  }

  lemma {:induction false} RelinkedClockwise(m: Mem, top: Node, low: Node, b: Shape, c: Ctx)
    requires RotationReady(m, top, low, b, c, Clockwise)
    ensures RotationEffect(m, Relinked(m, top, low, Clockwise), top, low, b, c, Clockwise)
  {
  }

  lemma {:induction false} RelinkedAntiClockwise(m: Mem, top: Node, low: Node, b: Shape, c: Ctx)
    requires RotationReady(m, top, low, b, c, AntiClockwise)
    ensures RotationEffect(m, Relinked(m, top, low, AntiClockwise), top, low, b, c, AntiClockwise)
  {
  }

  ghost predicate RotationHeights(m: Mem, m': Mem, top: Node, low: Node, dir: RotationDirection)
    requires {top, low} <= m.Keys && {top, low} <= m'.Keys
    requires {m[top].left, m[top].right, m[low].left, m[low].right} <= m.Keys
  {
    if dir.Clockwise? then
      && m'[low].height == 1 + Max(m[m[top].right].height, m[m[low].right].height)
      && m'[top].height == 1 + Max(m[m[top].left].height, m'[low].height)
    else
      && m'[low].height == 1 + Max(m[m[low].left].height, m[m[top].left].height)
      && m'[top].height == 1 + Max(m'[low].height, m[m[top].right].height)
  }

  /** A rotation's height steps, the lower node's first. */
  lemma {:induction false} ReheightedEffect(m: Mem, m': Mem, top: Node, low: Node, b: Shape, c: Ctx,
      dir: RotationDirection)
    requires RotationReady(m, top, low, b, c, dir)
    requires RotationEffect(m, m', top, low, b, c, dir)
    ensures
      var m1 := SetHeight(m', low);
      var m2 := SetHeight(m1, top);
      && RotationEffect(m, m2, top, low, b, c, dir)
      && RotationHeights(m, m2, top, low, dir)
  {
  }

  /** A rotation leaves alone all nodes but its two, the middle subtree's root and the parent. */
  lemma {:induction false} RotationKeeps(m: Mem, m': Mem, top: Node, low: Node, b: Shape, c: Ctx,
      dir: RotationDirection, ns: set<Node>)
    requires RotationEffect(m, m', top, low, b, c, dir)
    requires top !in ns && low !in ns
    requires (b.Bin? ==> b.n !in ns) && (!c.Top? ==> c.n !in ns)
    ensures SameLinks(m, m', ns)
  {
  }

  lemma {:induction false} RotationOuter(m: Mem, m': Mem, top: Node, low: Node, b: Shape, c: Ctx,
      dir: RotationDirection, h: nat)
    requires RotationEffect(m, m', top, low, b, c, dir)
    requires CtxOk(m, c, low, h) && Ok(m, b, top) && Apart(c, b)
    requires top !in Nodes(b) && low !in Nodes(b) && top !in CtxNodes(c) && low !in CtxNodes(c)
    ensures CtxOk(m', c, top, h) && Ok(m', b, low)
  {
    RotationKeeps(m, m', top, low, b, c, dir, CtxNodes(c) - {Up(c)});
    CtxOkReplace(m, m', c, low, top, h);
    RotationKeeps(m, m', top, low, b, c, dir, Nodes(b) - {Root(b)});
    OkReparent(m, m', b, top, low);
  }

  ghost predicate Records(m: Mem) {
    null in m && m[null].height == 0
  }

  lemma {:induction false} OkHeight(m: Mem, s: Shape, p: Node?)
    requires Records(m) && Ok(m, s, p)
    ensures Root(s) in m && m[Root(s)].height == H(s)
  {
  }

  lemma {:induction false} ClockwiseOk(m: Mem, m': Mem, a: Shape, x: Node, b: Shape, y: Node, d: Shape, c: Ctx, h: nat)
    requires Records(m) && Pieces(a, x, b, y, d, c)
    requires Ok(m, a, x) && Ok(m, b, x) && Ok(m, d, y) && CtxOk(m, c, y, h)
    requires x in m && y in m && m[x].left == Root(a) && m[x].right == Root(b) && m[y].left == x
    requires m[y].right == Root(d)
    requires RotationEffect(m, m', x, y, b, c, Clockwise)
    requires {m[x].left, m[x].right, m[y].left, m[y].right} <= m.Keys && RotationHeights(m, m', x, y, Clockwise)
    ensures Ok(m', Bin(a, x, Bin(b, y, d)), Up(c)) && CtxOk(m', c, x, h)
  {
    OkHeight(m, a, x);
    OkHeight(m, b, x);
    OkHeight(m, d, y);
    RotationOuter(m, m', x, y, b, c, Clockwise, h);
    RotationKeeps(m, m', x, y, b, c, Clockwise, Nodes(a));
    OkFrame(m, m', a, x);
    RotationKeeps(m, m', x, y, b, c, Clockwise, Nodes(d));
    OkFrame(m, m', d, y);
    assert Ok(m', Bin(b, y, d), x);
  }

  lemma {:induction false} AntiClockwiseOk(m: Mem, m': Mem, a: Shape, y: Node, b: Shape, x: Node, d: Shape, c: Ctx,
      h: nat)
    requires Records(m) && Pieces(a, y, b, x, d, c)
    requires Ok(m, a, y) && Ok(m, b, x) && Ok(m, d, x) && CtxOk(m, c, y, h)
    requires x in m && y in m && m[y].left == Root(a) && m[y].right == x && m[x].left == Root(b)
    requires m[x].right == Root(d)
    requires RotationEffect(m, m', x, y, b, c, AntiClockwise)
    requires {m[x].left, m[x].right, m[y].left, m[y].right} <= m.Keys && RotationHeights(m, m', x, y, AntiClockwise)
    ensures Ok(m', Bin(Bin(a, y, b), x, d), Up(c)) && CtxOk(m', c, x, h)
  {
    OkHeight(m, a, y);
    OkHeight(m, b, x);
    OkHeight(m, d, x);
    RotationOuter(m, m', x, y, b, c, AntiClockwise, h);
    RotationKeeps(m, m', x, y, b, c, AntiClockwise, Nodes(a));
    OkFrame(m, m', a, y);
    RotationKeeps(m, m', x, y, b, c, AntiClockwise, Nodes(d));
    OkFrame(m, m', d, x);
    assert Ok(m', Bin(a, y, b), x);
  }

  // ----- order and balance -----

  /** Nothing happened to the keys and intervals. */
  ghost predicate SameData(m: Mem, m': Mem) {
    && m'.Keys == m.Keys
    && forall n: Node :: n in m ==> m'[n].key == m[n].key && m'[n].interval == m[n].interval
  }

  ghost predicate Sorted(m: Mem, q: seq<Node>) {
    && (forall i :: 0 <= i < |q| ==> q[i] in m)
    && (forall i, j :: 0 <= i < j < |q| ==> m[q[i]].key < m[q[j]].key)
  }

  lemma {:induction false} RotationData(m: Mem, m': Mem, top: Node, low: Node, b: Shape, c: Ctx, dir: RotationDirection)
    requires RotationEffect(m, m', top, low, b, c, dir)
    ensures SameData(m, m')
  {
  }

  /** In a sorted sequence, earlier parts have smaller keys. */
  lemma {:induction false} SortedParts(m: Mem, a: seq<Node>, b: seq<Node>)
    requires Sorted(m, a + b)
    ensures Sorted(m, a) && Sorted(m, b)
    ensures forall x, y :: x in a && y in b ==> m[x].key < m[y].key
  {
    var q := a + b;
    assert forall i :: 0 <= i < |a| ==> q[i] == a[i];
    assert forall j :: 0 <= j < |b| ==> q[|a| + j] == b[j];
    forall x, y | x in a && y in b
      ensures m[x].key < m[y].key
    {
      var i :| 0 <= i < |a| && a[i] == x;
      var j :| 0 <= j < |b| && b[j] == y;
      assert m[q[i]].key < m[q[|a| + j]].key;
    }
  }

  lemma {:induction false} SideFromOrder(m: Mem, c: Ctx, s: Shape, n: Node)
    requires Sorted(m, Inorder(Plug(c, s))) && n in Nodes(s)
    ensures n in m && SideByKey(m, c, m[n].key)
  {
    InorderPlug(c, s);
    NodesInorder(s);
    SortedParts(m, Before(c) + Inorder(s), After(c));
    SortedParts(m, Before(c), Inorder(s));
    assert n in Before(c) + Inorder(s);
    if c.InLeft? {
      assert c.n == After(c)[0];
    } else if c.InRight? {
      assert c.n == Before(c)[|Before(c)| - 1];
    }
  }

  /** The pointers of the subtree are right; its root's height need not be. */
  ghost predicate RootLinked(m: Mem, s: Shape, parent: Node?) {
    && s.Bin? && s.n in m
    && m[s.n].parent == parent && m[s.n].left == Root(s.l) && m[s.n].right == Root(s.r)
    && Ok(m, s.l, s.n) && Ok(m, s.r, s.n)
  }

  /** The outline after one balancing step at the root. */
  ghost function Balanced(s: Shape): Shape
    requires s.Bin? && Avl(s.l) && Avl(s.r) && (H(s.l) == H(s.r) + 2 || H(s.r) == H(s.l) + 2)
  {
    if H(s.l) > H(s.r) then
      if H(s.l.l) < H(s.l.r) then Rotated(Bin(Rotated(s.l, AntiClockwise), s.n, s.r), Clockwise)
      else Rotated(s, Clockwise)
    else
      if H(s.r.l) > H(s.r.r) then Rotated(Bin(s.l, s.n, Rotated(s.r, Clockwise)), AntiClockwise)
      else Rotated(s, AntiClockwise)
  }

  lemma {:induction false} SingleIsAvl(a: Shape, x: Node, b: Shape, y: Node, d: Shape)
    requires Avl(a) && Avl(b) && Avl(d)
    ensures H(a) == H(d) + 1 && (H(b) == H(d) || H(b) == H(d) + 1) ==>
      var s := Bin(a, x, Bin(b, y, d));
      Avl(s) && (H(s) == H(d) + 2 || H(s) == H(d) + 3)
    ensures H(d) == H(a) + 1 && (H(b) == H(a) || H(b) == H(a) + 1) ==>
      var s := Bin(Bin(a, x, b), y, d);
      Avl(s) && (H(s) == H(a) + 2 || H(s) == H(a) + 3)
  {
  }

  lemma {:induction false} DoubleIsAvl(a: Shape, x: Node, b: Shape, y: Node, d: Shape, z: Node, e: Shape)
    requires Avl(a) && Avl(b) && Avl(d) && Avl(e)
    requires H(a) == H(e) && H(a) - 1 <= H(b) <= H(a) && H(a) - 1 <= H(d) <= H(a)
    ensures var s := Bin(Bin(a, x, b), y, Bin(d, z, e)); Avl(s) && H(s) == H(a) + 2
  {
    assert H(Bin(a, x, b)) == H(a) + 1 && H(Bin(d, z, e)) == H(a) + 1;
  }

  lemma {:induction false} LeftHeavyIsAvl(s: Shape)
    requires s.Bin? && Avl(s.l) && Avl(s.r) && H(s.l) == H(s.r) + 2
    ensures Avl(Balanced(s)) && H(s) - 1 <= H(Balanced(s)) <= H(s)
  {
    var l := s.l;
    if H(l.l) < H(l.r) {
      DoubleIsAvl(l.l, l.n, l.r.l, l.r.n, l.r.r, s.n, s.r);
      assert Balanced(s) == Bin(Bin(l.l, l.n, l.r.l), l.r.n, Bin(l.r.r, s.n, s.r));
    } else {
      SingleIsAvl(l.l, l.n, l.r, s.n, s.r);
    }
  }

  lemma {:induction false} RightHeavyIsAvl(s: Shape)
    requires s.Bin? && Avl(s.l) && Avl(s.r) && H(s.r) == H(s.l) + 2
    ensures Avl(Balanced(s)) && H(s) - 1 <= H(Balanced(s)) <= H(s)
  {
    var r := s.r;
    if H(r.l) > H(r.r) {
      DoubleIsAvl(s.l, s.n, r.l.l, r.l.n, r.l.r, r.n, r.r);
      assert Balanced(s) == Bin(Bin(s.l, s.n, r.l.l), r.l.n, Bin(r.l.r, r.n, r.r));
    } else {
      SingleIsAvl(s.l, s.n, r.l, r.n, r.r);
    }
  }

  /** The subtree that changes sides in a rotation. */
  ghost function Middle(s: Shape, dir: RotationDirection): Shape
    requires Rotatable(s, dir)
  {
    if dir.Clockwise? then s.l.r else s.r.l
  }

  lemma {:induction false} RotateReady(m: Mem, s: Shape, dir: RotationDirection, c: Ctx, h: nat)
    requires Records(m) && Rotatable(s, dir) && Apart(c, s)
    requires RootLinked(m, s, Up(c)) && CtxOk(m, c, s.n, h)
    requires SideByKey(m, c, m[Rotated(s, dir).n].key)
    ensures RotationReady(m, Rotated(s, dir).n, s.n, Middle(s, dir), c, dir)
  {
    if dir.Clockwise? {
      LeftPieces(s.l.l, s.l.n, s.l.r, s.n, s.r, c);
      OkHeight(m, s.l.l, s.l.n);
      OkHeight(m, s.l.r, s.l.n);
      OkHeight(m, s.r, s.n);
    } else {
      RightPieces(s.l, s.n, s.r.l, s.r.n, s.r.r, c);
      OkHeight(m, s.l, s.n);
      OkHeight(m, s.r.l, s.r.n);
      OkHeight(m, s.r.r, s.r.n);
    }
  }

  lemma {:induction false} RotateDone(m: Mem, m': Mem, s: Shape, dir: RotationDirection, c: Ctx, h: nat)
    requires Records(m) && Rotatable(s, dir) && Apart(c, s)
    requires RootLinked(m, s, Up(c)) && CtxOk(m, c, s.n, h)
    requires RotationReady(m, Rotated(s, dir).n, s.n, Middle(s, dir), c, dir)
    requires RotationEffect(m, m', Rotated(s, dir).n, s.n, Middle(s, dir), c, dir)
    requires RotationHeights(m, m', Rotated(s, dir).n, s.n, dir)
    ensures Ok(m', Rotated(s, dir), Up(c)) && CtxOk(m', c, Rotated(s, dir).n, h)
  {
    if dir.Clockwise? {
      LeftPieces(s.l.l, s.l.n, s.l.r, s.n, s.r, c);
      ClockwiseOk(m, m', s.l.l, s.l.n, s.l.r, s.n, s.r, c, h);
    } else {
      RightPieces(s.l, s.n, s.r.l, s.r.n, s.r.r, c);
      AntiClockwiseOk(m, m', s.l, s.n, s.r.l, s.r.n, s.r.r, c, h);
    }
  }

  lemma {:induction false} SortedSameData(m: Mem, m': Mem, q: seq<Node>)
    requires Sorted(m, q) && SameData(m, m')
    ensures Sorted(m', q)
  {
  }

  /** Rearranging a subtree without changing its order keeps the whole order. */
  lemma {:induction false} PlugSameOrder(c: Ctx, s: Shape, s': Shape)
    requires Inorder(s') == Inorder(s)
    ensures Inorder(Plug(c, s')) == Inorder(Plug(c, s))
  {
    InorderPlug(c, s);
    InorderPlug(c, s');
  }

  /** Rotating the left part of a subtree. */
  lemma {:induction false} SwappedLeft(c: Ctx, s: Shape, l: Shape)
    requires s.Bin? && Apart(c, s) && Rotatable(s.l, AntiClockwise) && l == Rotated(s.l, AntiClockwise)
    ensures Apart(InLeft(s.n, s.r, c), s.l) && Apart(c, Bin(l, s.n, s.r))
    ensures Inorder(Plug(c, Bin(l, s.n, s.r))) == Inorder(Plug(c, s))
  {
    RotatedInorder(s.l, AntiClockwise);
    RotatedNodes(s.l, AntiClockwise);
    RotatedDistinct(s.l, AntiClockwise);
    PlugSameOrder(c, s, Bin(l, s.n, s.r));
  }

  /** Rotating the right part of a subtree. */
  lemma {:induction false} SwappedRight(c: Ctx, s: Shape, r: Shape)
    requires s.Bin? && Apart(c, s) && Rotatable(s.r, Clockwise) && r == Rotated(s.r, Clockwise)
    ensures Apart(InRight(s.l, s.n, c), s.r) && Apart(c, Bin(s.l, s.n, r))
    ensures Inorder(Plug(c, Bin(s.l, s.n, r))) == Inorder(Plug(c, s))
  {
    RotatedInorder(s.r, Clockwise);
    RotatedNodes(s.r, Clockwise);
    RotatedDistinct(s.r, Clockwise);
    PlugSameOrder(c, s, Bin(s.l, s.n, r));
  }

  /** The subtree a context makes together with its innermost node. */
  ghost function Climb(c: Ctx, s: Shape): Shape
    requires !c.Top?
  {
    match c
    case InLeft(n, r, up) => Bin(s, n, r)
    case InRight(l, n, up) => Bin(l, n, s)
  }

  lemma {:induction false} ClimbApart(c: Ctx, s: Shape)
    requires !c.Top? && Apart(c, s)
    ensures Apart(c.up, Climb(c, s)) && Plug(c, s) == Plug(c.up, Climb(c, s))
    ensures TopNode(c, Root(s)) == TopNode(c.up, c.n)
  {
  }

  lemma {:induction false} ClimbLinked(m: Mem, c: Ctx, s: Shape, h: nat)
    requires !c.Top? && Ok(m, s, Up(c)) && CtxOk(m, c, Root(s), h)
    ensures RootLinked(m, Climb(c, s), Up(c.up)) && CtxOk(m, c.up, c.n, HAbove(c, h))
    ensures m[c.n].height == HAbove(c, h)
  {
  }

  /** The outline one rebalancing step makes of a node and its two subtrees. */
  ghost function Settled(s: Shape): Shape
    requires s.Bin? && Avl(s.l) && Avl(s.r) && -2 <= H(s.l) - H(s.r) <= 2
  {
    if Near(H(s.l), H(s.r)) then s else Balanced(s)
  }

  lemma {:induction false} SettledOutline(c: Ctx, s: Shape)
    requires Apart(c, s)
    requires s.Bin? && Avl(s.l) && Avl(s.r) && -2 <= H(s.l) - H(s.r) <= 2
    ensures Inorder(Settled(s)) == Inorder(s) && Nodes(Settled(s)) == Nodes(s) && Apart(c, Settled(s))
  {
    if H(s.l) == H(s.r) + 2 {
      var t := s;
      if H(s.l.l) < H(s.l.r) {
        t := Bin(Rotated(s.l, AntiClockwise), s.n, s.r);
        RotatedInorder(s.l, AntiClockwise);
        RotatedNodes(s.l, AntiClockwise);
        RotatedDistinct(s.l, AntiClockwise);
      }
      RotatedInorder(t, Clockwise);
      RotatedNodes(t, Clockwise);
      RotatedDistinct(t, Clockwise);
    } else if H(s.r) == H(s.l) + 2 {
      var t := s;
      if H(s.r.l) > H(s.r.r) {
        t := Bin(s.l, s.n, Rotated(s.r, Clockwise));
        RotatedInorder(s.r, Clockwise);
        RotatedNodes(s.r, Clockwise);
        RotatedDistinct(s.r, Clockwise);
      }
      RotatedInorder(t, AntiClockwise);
      RotatedNodes(t, AntiClockwise);
      RotatedDistinct(t, AntiClockwise);
    }
  }

  /** A subtree whose height is off by one leaves the node above off by at most two; settling
      that node brings its height back to within one of what the rest of the tree expects. */
  lemma {:induction false} SettledHeight(c: Ctx, s: Shape, h: nat)
    requires !c.Top? && Avl(s) && CtxAvl(c, h) && Near(H(s), h)
    ensures var t := Climb(c, s);
      && Avl(t.l) && Avl(t.r) && -2 <= H(t.l) - H(t.r) <= 2
      && Avl(Settled(t)) && Near(H(Settled(t)), HAbove(c, h))
      && (!Near(H(t.l), H(t.r)) ==> HAbove(c, h) > H(t.l) || HAbove(c, h) > H(t.r))
  {
    var t := Climb(c, s);
    if H(t.l) == H(t.r) + 2 {
      LeftHeavyIsAvl(t);
    } else if H(t.r) == H(t.l) + 2 {
      RightHeavyIsAvl(t);
    }
  }

  lemma {:induction false} HeightUpdated(m: Mem, m': Mem, s: Shape, c: Ctx, h: nat)
    requires Records(m) && Apart(c, s) && RootLinked(m, s, Up(c)) && CtxOk(m, c, s.n, h)
    requires m[s.n].left in m && m[s.n].right in m && m' == SetHeight(m, s.n)
    ensures Ok(m', s, Up(c)) && CtxOk(m', c, s.n, h) && SameData(m, m')
  {
    OkHeight(m, s.l, s.n);
    OkHeight(m, s.r, s.n);
    assert SameLinks(m, m', Nodes(s.l)) && SameLinks(m, m', Nodes(s.r)) && SameLinks(m, m', CtxNodes(c));
    OkFrame(m, m', s.l, s.n);
    OkFrame(m, m', s.r, s.n);
    CtxOkFrame(m, m', c, s.n, h);
  }

  // ----- a place in a whole tree -----

  /** `s` in its context `c` makes up a balanced tree with exact pointers and heights. */
  ghost predicate Fits(m: Mem, c: Ctx, s: Shape) {
    && Apart(c, s) && Ok(m, s, Up(c)) && CtxOk(m, c, Root(s), H(s))
    && Avl(s) && CtxAvl(c, H(s))
  }

  lemma {:induction false} FitsBelow(m: Mem, c: Ctx, s: Shape)
    requires Fits(m, c, s) && s.Bin?
    ensures Fits(m, InLeft(s.n, s.r, c), s.l) && Plug(InLeft(s.n, s.r, c), s.l) == Plug(c, s)
    ensures Fits(m, InRight(s.l, s.n, c), s.r) && Plug(InRight(s.l, s.n, c), s.r) == Plug(c, s)
    ensures TopNode(InLeft(s.n, s.r, c), Root(s.l)) == TopNode(c, s.n)
    ensures TopNode(InRight(s.l, s.n, c), Root(s.r)) == TopNode(c, s.n)
  {
  }

  /** The key `k` belongs between what comes before and what comes after a context's subtree. */
  ghost predicate Between(m: Mem, c: Ctx, k: UInt64) {
    && (forall n :: n in Before(c) ==> n in m && m[n].key < k)
    && (forall n :: n in After(c) ==> n in m && k < m[n].key)
  }

  ghost predicate HasKey(m: Mem, q: seq<Node>, k: UInt64) {
    exists n :: n in q && n in m && m[n].key == k
  }

  /** A subtree's order, seen from its root. */
  lemma {:induction false} RootOrder(m: Mem, s: Shape)
    requires s.Bin? && Sorted(m, Inorder(s))
    ensures s.n in m && Sorted(m, Inorder(s.l)) && Sorted(m, Inorder(s.r))
    ensures forall n :: n in Inorder(s.l) ==> n in m && m[n].key < m[s.n].key
    ensures forall n :: n in Inorder(s.r) ==> n in m && m[s.n].key < m[n].key
  {
    SortedParts(m, Inorder(s.l) + [s.n], Inorder(s.r));
    SortedParts(m, Inorder(s.l), [s.n]);
    assert s.n in [s.n] && s.n in Inorder(s.l) + [s.n];
  }

  lemma {:induction false} PlugOrder(m: Mem, c: Ctx, s: Shape)
    requires Sorted(m, Inorder(Plug(c, s)))
    ensures Sorted(m, Inorder(s))
  {
    InorderPlug(c, s);
    SortedParts(m, Before(c) + Inorder(s), After(c));
    SortedParts(m, Before(c), Inorder(s));
  }

  lemma {:induction false} KeyBelow(m: Mem, s: Shape, k: UInt64)
    requires s.Bin? && Sorted(m, Inorder(s))
    ensures s.n in m
    ensures k < m[s.n].key ==> (HasKey(m, Inorder(s), k) <==> HasKey(m, Inorder(s.l), k))
    ensures m[s.n].key < k ==> (HasKey(m, Inorder(s), k) <==> HasKey(m, Inorder(s.r), k))
    ensures m[s.n].key == k ==> HasKey(m, Inorder(s), k)
  {
    RootOrder(m, s);
    assert forall n :: n in Inorder(s) <==> n in Inorder(s.l) || n == s.n || n in Inorder(s.r);
  }

  lemma {:induction false} BetweenBelow(m: Mem, c: Ctx, s: Shape, k: UInt64)
    requires s.Bin? && Sorted(m, Inorder(s)) && Between(m, c, k)
    ensures s.n in m
    ensures k < m[s.n].key ==> Between(m, InLeft(s.n, s.r, c), k)
    ensures m[s.n].key < k ==> Between(m, InRight(s.l, s.n, c), k)
  {
    RootOrder(m, s);
  }

  ghost predicate Leaf(r: Rec) {
    r.left == null && r.right == null && r.height == 1
  }

  /** A new leaf `node` was hung into the empty place of context `c`. */
  ghost predicate LeafHung(m: Mem, m': Mem, c: Ctx, node: Node, r: Rec) {
    && !c.Top? && c.n in m && node !in m
    && m' == m[c.n := if c.InLeft? then m[c.n].(left := node) else m[c.n].(right := node)][node := r.(parent := c.n)]
  }

  lemma {:induction false} LeafFits(m: Mem, m': Mem, c: Ctx, node: Node, r: Rec)
    requires Fits(m, c, Nil) && Leaf(r) && LeafHung(m, m', c, node, r)
    ensures var leaf := Bin(Nil, node, Nil);
      Apart(c, leaf) && Ok(m', leaf, Up(c)) && CtxOk(m', c, node, 0) && Avl(leaf) && H(leaf) == 1
  {
    CtxRecorded(m, c, null, 0);
    assert SameLinks(m, m', CtxNodes(c) - {Up(c)});
    CtxOkReplace(m, m', c, null, node, 0);
  }

  lemma {:induction false} Recorded(m: Mem, s: Shape, p: Node?)
    requires Ok(m, s, p)
    ensures forall n :: n in Nodes(s) ==> n in m
  {
    if s.Bin? {
      Recorded(m, s.l, s.n);
      Recorded(m, s.r, s.n);
    }
  }

  lemma {:induction false} CtxRecorded(m: Mem, c: Ctx, hole: Node?, h: nat)
    requires CtxOk(m, c, hole, h)
    ensures forall n :: n in CtxNodes(c) ==> n in m
    decreases c
  {
    if !c.Top? {
      Recorded(m, Sibling(c), c.n);
      CtxRecorded(m, c.up, c.n, HAbove(c, h));
    }
  }

  lemma {:induction false} SortedInsert(m: Mem, m': Mem, a: seq<Node>, b: seq<Node>, node: Node)
    requires Sorted(m, a + b) && node in m' && node !in m
    requires forall n :: n in m ==> n in m' && (n != null ==> m'[n].key == m[n].key)
    requires forall n :: n in a ==> n in m && m[n].key < m'[node].key
    requires forall n :: n in b ==> n in m && m'[node].key < m[n].key
    ensures Sorted(m', a + [node] + b)
  {
    var q, q' := a + b, a + [node] + b;
    forall i, j | 0 <= i < j < |q'|
      ensures q'[i] in m' && q'[j] in m' && m'[q'[i]].key < m'[q'[j]].key
    {
      var x, y := q'[i], q'[j];
      if i < |a| {
        assert x == q[i] && x in a;
      }
      if |a| < j {
        assert y == q[j - 1] && y in b;
      }
      if j < |a| {
        assert y == q[j] && y in a;
      }
      if |a| < i {
        assert x == q[i - 1] && x in b;
      }
    }
  }

  lemma {:induction false} LeafInorder(c: Ctx, node: Node)
    ensures Inorder(Plug(c, Nil)) == Before(c) + After(c)
    ensures Inorder(Plug(c, Bin(Nil, node, Nil))) == Before(c) + [node] + After(c)
  {
    InorderPlug(c, Nil);
    InorderPlug(c, Bin(Nil, node, Nil));
    assert Inorder(Bin(Nil, node, Nil)) == [node];
    assert Before(c) + [] + After(c) == Before(c) + After(c);
  }

  lemma {:induction false} LeafOrder(m: Mem, m': Mem, c: Ctx, node: Node, r: Rec)
    requires Sorted(m, Before(c) + After(c)) && Between(m, c, r.key) && LeafHung(m, m', c, node, r)
    ensures Sorted(m', Before(c) + [node] + After(c))
  {
    assert forall n :: n in m ==> n in m' && (n != null ==> m'[n].key == m[n].key);
    SortedInsert(m, m', Before(c), After(c), node);
  }

  // ----- taking a node out -----

  ghost function Without<T>(q: seq<T>, k: nat): seq<T>
    requires k < |q|
  {
    q[..k] + q[k + 1..]
  }

  /** A node with at most one child, and that child's subtree. */
  ghost function OnlyChild(s: Shape): Shape
    requires s.Bin? && (s.l.Nil? || s.r.Nil?)
  {
    if s.l.Nil? then s.r else s.l
  }

  lemma {:induction false} OnlyChildHeight(s: Shape)
    requires s.Bin? && (s.l.Nil? || s.r.Nil?) && Avl(s)
    ensures Avl(OnlyChild(s)) && H(OnlyChild(s)) + 1 == H(s)
  {
  }

  lemma {:induction false} DropMiddle(a: seq<Node>, l: seq<Node>, n: Node, r: seq<Node>, b: seq<Node>)
    ensures var q := a + (l + [n] + r) + b;
      && q[|a| + |l|] == n
      && Without(q, |a| + |l|) == a + (l + r) + b
  {
  }

  lemma {:induction false} OnlyChildInorder(c: Ctx, s: Shape)
    requires s.Bin? && (s.l.Nil? || s.r.Nil?)
    ensures var q := Inorder(Plug(c, s));
      var k := |Before(c)| + |Inorder(s.l)|;
      k < |q| && q[k] == s.n && Inorder(Plug(c, OnlyChild(s))) == Without(q, k)
  {
    InorderPlug(c, s);
    InorderPlug(c, OnlyChild(s));
    DropMiddle(Before(c), Inorder(s.l), s.n, Inorder(s.r), After(c));
    assert Inorder(OnlyChild(s)) == Inorder(s.l) + Inorder(s.r);
  }

  lemma {:induction false} SortedWithout(m: Mem, m': Mem, q: seq<Node>, k: nat)
    requires Sorted(m, q) && k < |q|
    requires m'.Keys == m.Keys - {q[k]} && forall n: Node :: n in m' ==> m'[n].key == m[n].key
    ensures Sorted(m', Without(q, k))
  {
    var q' := Without(q, k);
    forall i | 0 <= i < |q'|
      ensures q'[i] in m'
    {
      assert q'[i] == if i < k then q[i] else q[i + 1];
    }
    forall i, j | 0 <= i < j < |q'|
      ensures m'[q'[i]].key < m'[q'[j]].key
    {
      assert q'[i] == if i < k then q[i] else q[i + 1];
      assert q'[j] == if j < k then q[j] else q[j + 1];
    }
  }

  /** The recorded fields after a node with at most one child was bypassed. */
  ghost predicate Bypassed(m: Mem, m': Mem, c: Ctx, s: Shape)
    requires s.Bin? && (s.l.Nil? || s.r.Nil?)
  {
    var t := OnlyChild(s);
    && null in m && m'.Keys == m.Keys - {s.n} && m'[null].height == m[null].height
    && (t.Bin? ==> t.n in m' && m'[t.n] == m[t.n].(parent := Up(c)))
    && (!c.Top? ==>
          && c.n in m'
          && m'[c.n] == (if c.InLeft? then m[c.n].(left := Root(t)) else m[c.n].(right := Root(t))))
    && (forall n :: n in m' && n != null && n != Root(t) && n != Up(c) ==> m'[n] == m[n])
  }

  ghost function Dropped(m: Mem, gone: Node): Mem {
    map n | n in m && n != gone :: m[n]
  }

  /** Only the parent of the bypassed node has changed so far. */
  ghost predicate ParentTurned(m: Mem, m': Mem, c: Ctx, t: Shape) {
    && null in m && m'.Keys == m.Keys && m'[null].height == m[null].height
    && (!c.Top? ==>
          && c.n in m
          && m'[c.n] == (if c.InLeft? then m[c.n].(left := Root(t)) else m[c.n].(right := Root(t))))
    && (forall n :: n in m && n != null && n != Up(c) ==> m'[n] == m[n])
  }

  lemma {:induction false} BypassPlaces(m: Mem, c: Ctx, s: Shape)
    requires Records(m) && Fits(m, c, s) && s.Bin? && (s.l.Nil? || s.r.Nil?)
    ensures var t := Root(OnlyChild(s));
      && s.n in m && t in m && t != s.n && Up(c) != s.n && (t == null || t != Up(c))
      && m[s.n].parent == Up(c) && t == (if m[s.n].left == null then m[s.n].right else m[s.n].left)
  {
    OkHeight(m, OnlyChild(s), s.n);
  }

  lemma {:induction false} BypassSteps(m: Mem, m1: Mem, c: Ctx, s: Shape)
    requires s.Bin? && (s.l.Nil? || s.r.Nil?) && ParentTurned(m, m1, c, OnlyChild(s))
    requires s.n in m && Root(OnlyChild(s)) in m && Root(OnlyChild(s)) != s.n && Up(c) != s.n
    requires Root(OnlyChild(s)) == null || Root(OnlyChild(s)) != Up(c)
    ensures Bypassed(m, Dropped(SetParent(m1, Root(OnlyChild(s)), Up(c)), s.n), c, s)
  {
  }

  lemma {:induction false} BypassedFits(m: Mem, m': Mem, c: Ctx, s: Shape)
    requires Fits(m, c, s) && s.Bin? && (s.l.Nil? || s.r.Nil?) && Bypassed(m, m', c, s)
    ensures var t := OnlyChild(s);
      Apart(c, t) && Ok(m', t, Up(c)) && CtxOk(m', c, Root(t), H(s))
  {
    var t := OnlyChild(s);
    assert SameLinks(m, m', Nodes(t) - {Root(t)});
    OkReparent(m, m', t, s.n, Up(c));
    assert SameLinks(m, m', CtxNodes(c) - {Up(c)});
    CtxOkReplace(m, m', c, s.n, Root(t), H(s));
  }

  // ----- contents -----

  datatype Entry = Entry(key: UInt64, interval: Interval)

  /** The keys and intervals of a sequence of nodes. */
  ghost function Data(m: Mem, q: seq<Node>): seq<Entry> {
    if q == [] then []
    else [if q[0] in m then Entry(m[q[0]].key, m[q[0]].interval) else Entry(0, Interval(0, 0))] + Data(m, q[1..])
  }

  lemma {:induction false} DataAt(m: Mem, q: seq<Node>)
    requires forall i :: 0 <= i < |q| ==> q[i] in m
    ensures |Data(m, q)| == |q|
    ensures forall i :: 0 <= i < |q| ==> Data(m, q)[i] == Entry(m[q[i]].key, m[q[i]].interval)
  {
    if q != [] {
      DataAt(m, q[1..]);
      assert forall i :: 0 < i < |q| ==> q[i] == q[1..][i - 1];
    }
  }

  lemma {:induction false} EntryAt(m: Mem, q: seq<Node>, k: nat)
    requires Sorted(m, q) && k < |q|
    ensures k < |Data(m, q)| && Data(m, q)[k] == Entry(m[q[k]].key, m[q[k]].interval)
  {
    DataAt(m, q);
  }

  lemma {:induction false} DataInsert(m: Mem, m': Mem, q: seq<Node>, node: Node, k: nat)
    requires Sorted(m, q) && k <= |q| && node !in m && node in m'
    requires forall n: Node :: n in m ==> n in m' && m'[n].key == m[n].key && m'[n].interval == m[n].interval
    requires Sorted(m', q[..k] + [node] + q[k..])
    ensures |Data(m, q)| == |q|
    ensures Data(m', q[..k] + [node] + q[k..])
         == Data(m, q)[..k] + [Entry(m'[node].key, m'[node].interval)] + Data(m, q)[k..]
  {
    DataAt(m, q);
    DataAt(m', q[..k] + [node] + q[k..]);
  }

  lemma {:induction false} DataWithout(m: Mem, m': Mem, q: seq<Node>, k: nat)
    requires Sorted(m, q) && k < |q| && Sorted(m', Without(q, k))
    requires forall n: Node :: n in m' ==> n in m && m'[n].key == m[n].key && m'[n].interval == m[n].interval
    ensures |Data(m, q)| == |q| && Data(m', Without(q, k)) == Without(Data(m, q), k)
  {
    DataAt(m, q);
    DataAt(m', Without(q, k));
  }

  /** The successor's key and interval moved into the node before it. */
  ghost predicate SwappedIn(m: Mem, m1: Mem, m': Mem, q: seq<Node>, k: nat)
    requires k + 1 < |q|
  {
    && q[k] in m1 && q[k + 1] in m && m1.Keys == m.Keys - {q[k + 1]}
    && (forall n: Node :: n in m1 ==> m1[n].key == m[n].key && m1[n].interval == m[n].interval)
    && m' == m1[q[k] := m1[q[k]].(key := m[q[k + 1]].key, interval := m[q[k + 1]].interval)]
  }

  lemma {:induction false} SwappedAt(m: Mem, m1: Mem, m': Mem, q: seq<Node>, k: nat, i: nat)
    requires Sorted(m, q) && k + 1 < |q| && SwappedIn(m, m1, m', q, k) && i < |q| - 1
    ensures var n := Without(q, k + 1)[i];
      var from := if i < k then q[i] else q[i + 1];
      n in m' && m'[n].key == m[from].key && m'[n].interval == m[from].interval
  {
    var n := Without(q, k + 1)[i];
    assert n == if i <= k then q[i] else q[i + 1];
    if i != k {
      assert n != q[k + 1] && n != q[k];
    }
  }

  lemma {:induction false} DataSwapped(m: Mem, m1: Mem, m': Mem, q: seq<Node>, k: nat)
    requires Sorted(m, q) && k + 1 < |q| && SwappedIn(m, m1, m', q, k)
    ensures Sorted(m', Without(q, k + 1))
    ensures |Data(m, q)| == |q| && Data(m', Without(q, k + 1)) == Without(Data(m, q), k)
  {
    var q' := Without(q, k + 1);
    forall i | 0 <= i < |q'|
      ensures q'[i] in m'
    {
      SwappedAt(m, m1, m', q, k, i);
    }
    forall i, j | 0 <= i < j < |q'|
      ensures m'[q'[i]].key < m'[q'[j]].key
    {
      SwappedAt(m, m1, m', q, k, i);
      SwappedAt(m, m1, m', q, k, j);
    }
    DataAt(m, q);
    DataAt(m', q');
    forall i | 0 <= i < |q'|
      ensures Data(m', q')[i] == Without(Data(m, q), k)[i]
    {
      SwappedAt(m, m1, m', q, k, i);
    }
  }

  ghost predicate RemovedData(m: Mem, m': Mem, gone: Node) {
    && m'.Keys == m.Keys - {gone}
    && forall n: Node :: n in m' ==> m'[n].key == m[n].key && m'[n].interval == m[n].interval
  }

  /** The entry of `node`, at position `k`, has left the contents, and the node `removed` the tree. */
  ghost predicate EntryGone(m: Mem, m': Mem, q: seq<Node>, q': seq<Node>, node: Node, removed: Node, k: nat) {
    && k < |q| == |Data(m, q)| && q[k] == node
    && Data(m', q') == Without(Data(m, q), k)
    && |q'| == |q| - 1
    && (forall n :: n in q' ==> n in q && n != removed)
    && (forall n :: n in q && n != removed ==> n in q')
  }

  lemma {:induction false} SortedNoRepeats(m: Mem, q: seq<Node>, k: nat)
    requires Sorted(m, q) && k < |q|
    ensures forall n :: n in Without(q, k) <==> n in q && n != q[k]
  {
    var q' := Without(q, k);
    forall n
      ensures n in q' <==> n in q && n != q[k]
    {
      if n in q && n != q[k] {
        var i :| 0 <= i < |q| && q[i] == n;
        assert q'[if i < k then i else i - 1] == n;
      }
      if n in q' {
        var i :| 0 <= i < |q'| && q'[i] == n;
        assert n == q[if i < k then i else i + 1];
      }
    }
  }

  lemma {:induction false} OkNewData(m: Mem, m': Mem, s: Shape, p: Node?, node: Node)
    requires Ok(m, s, p) && node in m && node in m'
    requires m' == m[node := m[node].(key := m'[node].key, interval := m'[node].interval)]
    ensures Ok(m', s, p)
  {
    OkFrame(m, m', s, p);
  }

  lemma {:induction false} SimplyGone(m: Mem, m': Mem, q: seq<Node>, q': seq<Node>, node: Node, k: nat)
    requires Sorted(m, q) && k < |q| && q[k] == node && q' == Without(q, k)
    requires RemovedData(m, m', node) && Sorted(m', q')
    ensures EntryGone(m, m', q, q', node, node, k)
  {
    DataWithout(m, m', q, k);
    SortedNoRepeats(m, q, k);
  }

  lemma {:induction false} SwappedGone(m: Mem, m1: Mem, m': Mem, q: seq<Node>, q': seq<Node>, node: Node,
      removed: Node, k: nat)
    requires Sorted(m, q) && k + 1 < |q| && q[k] == node && q[k + 1] == removed && q' == Without(q, k + 1)
    requires removed in m && node in m1 && RemovedData(m, m1, removed)
    requires m' == m1[node := m1[node].(key := m[removed].key, interval := m[removed].interval)]
    ensures Sorted(m', q') && EntryGone(m, m', q, q', node, removed, k)
  {
    DataSwapped(m, m1, m', q, k);
    SortedNoRepeats(m, q, k + 1);
  }

  lemma {:induction false} BypassedWhole(m: Mem, m': Mem, c: Ctx, s: Shape)
    requires Fits(m, c, s) && s.Bin? && (s.l.Nil? || s.r.Nil?) && Bypassed(m, m', c, s)
    requires Sorted(m, Inorder(Plug(c, s)))
    ensures var t := OnlyChild(s);
      && Apart(c, t) && Ok(m', t, Up(c)) && CtxOk(m', c, Root(t), H(s))
      && Sorted(m', Inorder(Plug(c, t))) && RemovedData(m, m', s.n)
  {
    BypassedFits(m, m', c, s);
    BypassedData(m, m', c, s);
    OnlyChildInorder(c, s);
    SortedWithout(m, m', Inorder(Plug(c, s)), |Before(c)| + |Inorder(s.l)|);
  }

  lemma {:induction false} BypassedData(m: Mem, m': Mem, c: Ctx, s: Shape)
    requires s.Bin? && (s.l.Nil? || s.r.Nil?) && Bypassed(m, m', c, s)
    ensures RemovedData(m, m', s.n)
  {
  }

  lemma {:induction false} MiddleAt(q: seq<Node>, a: seq<Node>, l: seq<Node>, n: Node, r: seq<Node>, b: seq<Node>)
    requires q == a + (l + [n] + r) + b
    ensures |a| + |l| < |q| && q[|a| + |l|] == n
  {
  }

  /** Where a subtree's root stands in the whole order. */
  lemma {:induction false} PlaceOf(c: Ctx, s: Shape)
    requires s.Bin?
    ensures var q, k := Inorder(Plug(c, s)), |Before(c)| + |Inorder(s.l)|; k < |q| && q[k] == s.n
  {
    InorderPlug(c, s);
    MiddleAt(Inorder(Plug(c, s)), Before(c), Inorder(s.l), s.n, Inorder(s.r), After(c));
  }

  /** The smallest node to the right of `s.n` comes directly after it. */
  lemma {:induction false} SuccessorPlace(c: Ctx, s: Shape, c': Ctx, s': Shape)
    requires s.Bin? && s'.Bin? && s'.l.Nil? && Plug(c', s') == Plug(c, s)
    requires Before(c') == Before(InRight(s.l, s.n, c))
    ensures var q, k := Inorder(Plug(c, s)), |Before(c)| + |Inorder(s.l)|;
      k + 1 < |q| && q[k] == s.n && q[k + 1] == s'.n && |Before(c')| + |Inorder(s'.l)| == k + 1
  {
    hide *;
    assert |Inorder(s'.l)| == 0 && |Before(c')| == |Before(c)| + |Inorder(s.l)| + 1 by { SuccessorIndex(c, s, s'); }
    PlaceOf(c, s);
    PlaceOf(c', s');
  }

  lemma {:induction false} SuccessorIndex(c: Ctx, s: Shape, s': Shape)
    requires s.Bin? && s'.Bin? && s'.l.Nil?
    ensures |Inorder(s'.l)| == 0 && |Before(InRight(s.l, s.n, c))| == |Before(c)| + |Inorder(s.l)| + 1
  {
  }

  lemma {:induction false} KeysInEntries(m: Mem, q: seq<Node>, k: UInt64)
    requires Sorted(m, q)
    ensures HasKey(m, q, k) <==> exists e :: e in Data(m, q) && e.key == k
  {
    DataAt(m, q);
    if HasKey(m, q, k) {
      var n :| n in q && n in m && m[n].key == k;
      var i :| 0 <= i < |q| && q[i] == n;
      assert Data(m, q)[i].key == k;
    }
    if e :| e in Data(m, q) && e.key == k {
      var i :| 0 <= i < |q| && Data(m, q)[i] == e;
      assert q[i] in q;
    }
  }

  lemma {:induction false} Singleton(m: Mem, node: Node)
    requires node in m && Leaf(m[node]) && m[node].parent == null
    ensures var s := Bin(Nil, node, Nil);
      && Ok(m, s, null) && Distinct(s) && Avl(s) && Nodes(s) == {node} && Inorder(s) == [node]
      && Sorted(m, Inorder(s)) && Data(m, Inorder(s)) == [Entry(m[node].key, m[node].interval)]
  {
    DataAt(m, [node]);
  }

  lemma {:induction false} InsertedNodes(s: Shape, w: Shape, node: Node, k: nat)
    requires k <= |Inorder(s)| && Inorder(w) == Inorder(s)[..k] + [node] + Inorder(s)[k..]
    ensures Nodes(w) == Nodes(s) + {node}
  {
    NodesInorder(s);
    NodesInorder(w);
    var q := Inorder(s);
    assert Elems(q[..k]) + Elems(q[k..]) == Elems(q) by { assert q == q[..k] + q[k..]; }
    assert Elems(Inorder(w)) == Elems(q[..k]) + {node} + Elems(q[k..]);
  }

  lemma {:induction false} RemovedNodes(m: Mem, m': Mem, s: Shape, w: Shape, node: Node, removed: Node, k: nat)
    requires EntryGone(m, m', Inorder(s), Inorder(w), node, removed, k)
    ensures Nodes(w) == Nodes(s) - {removed}
  {
    NodesInorder(s);
    NodesInorder(w);
  }

  lemma {:induction false} DataReshaped(m: Mem, m': Mem, q: seq<Node>, k: nat)
    requires Sorted(m, q) && k < |q| && q[k] in m'
    requires m' == m[q[k] := m[q[k]].(key := m'[q[k]].key, interval := m'[q[k]].interval)]
    requires forall i :: 0 <= i < k ==> m[q[i]].key < m'[q[k]].key
    requires forall i :: k < i < |q| ==> m'[q[k]].key < m[q[i]].key
    ensures Sorted(m', q)
    ensures |Data(m, q)| == |q| && Data(m', q) == Data(m, q)[k := Entry(m'[q[k]].key, m'[q[k]].interval)]
  {
    assert forall i :: 0 <= i < |q| && i != k ==> q[i] != q[k] && m'[q[i]] == m[q[i]];
    DataAt(m, q);
    DataAt(m', q);
  }

  // ----- finding a node -----

  lemma {:induction false} FitsTop(m: Mem, w: Shape)
    requires Ok(m, w, null) && Avl(w) && Distinct(w)
    ensures Fits(m, Top, w)
  {
  }

  /** Every node of a subtree has a place of its own. */
  lemma {:induction false} Locate(m: Mem, c: Ctx, s: Shape, n: Node) returns (c': Ctx, s': Shape)
    requires Fits(m, c, s) && n in Nodes(s)
    ensures Fits(m, c', s') && s'.Bin? && s'.n == n
    ensures Plug(c', s') == Plug(c, s) && TopNode(c', n) == TopNode(c, Root(s))
    decreases s
  {
    FitsBelow(m, c, s);
    if n in Nodes(s.l) {
      c', s' := Locate(m, InLeft(s.n, s.r, c), s.l, n);
    } else if n in Nodes(s.r) {
      c', s' := Locate(m, InRight(s.l, s.n, c), s.r, n);
    } else {
      c', s' := c, s;
    }
  }

  // ----- searching -----

  /** `i` has room for the request's length at or after the request's start. */
  ghost predicate CanHost(i: Interval, req: Interval) {
    Max(req.first, i.first) + (req.second - req.first) <= i.second
  }

  /** First fit: the first of the nodes that can host the request. */
  ghost function FirstHost(m: Mem, q: seq<Node>, req: Interval): Node? {
    if q == [] then null
    else if q[0] in m && CanHost(m[q[0]].interval, req) then q[0]
    else FirstHost(m, q[1..], req)
  }

  lemma {:induction false} FirstHostConcat(m: Mem, a: seq<Node>, b: seq<Node>, req: Interval)
    ensures FirstHost(m, a + b, req) ==
      if FirstHost(m, a, req) != null then FirstHost(m, a, req) else FirstHost(m, b, req)
  {
    if a == [] {
      assert a + b == b;
    } else {
      assert (a + b)[1..] == a[1..] + b;
      FirstHostConcat(m, a[1..], b, req);
    }
  }

  lemma {:induction false} NoHost(m: Mem, q: seq<Node>, req: Interval)
    requires forall n :: n in q ==> n in m && !CanHost(m[n].interval, req)
    ensures FirstHost(m, q, req) == null
  {
    if q != [] {
      NoHost(m, q[1..], req);
    }
  }

  /** What searchTree returns. */
  ghost function SearchIn(m: Mem, s: Shape, req: Interval): Node? {
    if s.Nil? || s.n !in m then null
    else
      var i := m[s.n].interval;
      if i.first <= req.first && req.second <= i.second then s.n
      else
        var inLeft := if req.second < i.first then SearchIn(m, s.l, req) else null;
        if inLeft != null then inLeft
        else if req.first < i.first && Sub64(i.second, i.first) >= Sub64(req.second, req.first) then s.n
        else SearchIn(m, s.r, req)
  }

  /** Every interval is one, and those to the left of a node end before the node's starts. */
  ghost predicate Gaps(m: Mem, s: Shape) {
    s.Bin? ==>
      && s.n in m && m[s.n].interval.first <= m[s.n].interval.second
      && (forall n :: n in Inorder(s.l) ==> n in m && m[n].interval.second < m[s.n].interval.first)
      && Gaps(m, s.l) && Gaps(m, s.r)
  }

  lemma {:induction false} HostAtRoot(m: Mem, s: Shape, req: Interval)
    requires s.Bin?
    ensures FirstHost(m, Inorder(s), req) ==
      if FirstHost(m, Inorder(s.l), req) != null then FirstHost(m, Inorder(s.l), req)
      else if s.n in m && CanHost(m[s.n].interval, req) then s.n
      else FirstHost(m, Inorder(s.r), req)
  {
    FirstHostConcat(m, Inorder(s.l) + [s.n], Inorder(s.r), req);
    FirstHostConcat(m, Inorder(s.l), [s.n], req);
    assert FirstHost(m, [s.n], req) ==
      if s.n in m && CanHost(m[s.n].interval, req) then s.n else FirstHost(m, [s.n][1..], req);
  }

  /** The two cases in which the search takes a node are those in which it can host the request. */
  lemma {:induction false} RootDecides(i: Interval, req: Interval)
    requires i.first <= i.second && req.first <= req.second
    ensures CanHost(i, req) <==>
      || (i.first <= req.first && req.second <= i.second)
      || (req.first < i.first && Sub64(i.second, i.first) >= Sub64(req.second, req.first))
  {
  }

  /** What ends before a node starts cannot host a request that reaches the node. */
  lemma {:induction false} TooEarly(m: Mem, q: seq<Node>, first: UInt64, req: Interval)
    requires forall n :: n in q ==> n in m && m[n].interval.second < first
    requires first <= req.second && req.first <= req.second
    ensures FirstHost(m, q, req) == null
  {
    NoHost(m, q, req);
  }

  /** The search, which skips parts of the tree, finds what a scan in key order would. */
  lemma {:induction false} SearchIsFirstFit(m: Mem, s: Shape, req: Interval)
    requires Gaps(m, s) && req.first <= req.second
    ensures SearchIn(m, s, req) == FirstHost(m, Inorder(s), req)
  {
    if s.Bin? {
      SearchIsFirstFit(m, s.l, req);
      SearchIsFirstFit(m, s.r, req);
      hide FirstHost, CanHost, Sub64, Inorder;
      HostAtRoot(m, s, req);
      RootDecides(m[s.n].interval, req);
      if req.second >= m[s.n].interval.first {
        TooEarly(m, Inorder(s.l), m[s.n].interval.first, req);
      }
    }
  }

  /** The first interval starts and ends before the second one starts, though it may touch it. */
  ghost predicate Precedes(m: Mem, a: Node, b: Node) {
    && a in m && b in m
    && m[a].interval.first < m[b].interval.first && m[a].interval.second <= m[b].interval.first
  }

  /** Intervals that may touch but not overlap, with keys that are their starts. */
  ghost predicate Loose(m: Mem, q: seq<Node>) {
    && (forall i :: 0 <= i < |q| ==> q[i] in m && m[q[i]].interval.first <= m[q[i]].interval.second)
    && (forall i, j :: 0 <= i < j < |q| ==> Precedes(m, q[i], q[j]))
  }

  lemma {:induction false} LooseSplit(m: Mem, a: seq<Node>, b: seq<Node>)
    requires Loose(m, a + b)
    ensures Loose(m, a) && Loose(m, b)
    ensures forall i, j :: 0 <= i < |a| && 0 <= j < |b| ==> Precedes(m, a[i], b[j])
  {
    hide Precedes;
    var q := a + b;
    assert forall i :: 0 <= i < |a| ==> q[i] == a[i];
    assert forall j :: 0 <= j < |b| ==> b[j] == q[|a| + j];
  }

  lemma {:induction false} LooseParts(m: Mem, s: Shape)
    requires s.Bin? && Loose(m, Inorder(s))
    ensures s.n in m && m[s.n].interval.first <= m[s.n].interval.second
    ensures Loose(m, Inorder(s.l)) && Loose(m, Inorder(s.r))
    ensures forall n :: n in Inorder(s.l) ==> Precedes(m, n, s.n)
    ensures forall n :: n in Inorder(s.r) ==> Precedes(m, s.n, n)
  {
    hide Precedes;
    var l, r := Inorder(s.l), Inorder(s.r);
    LooseSplit(m, l + [s.n], r);
    LooseSplit(m, l, [s.n]);
    assert [s.n][0] == s.n && (l + [s.n])[|l|] == s.n;
  }

  lemma {:induction false} FoundInside(m: Mem, s: Shape, req: Interval)
    ensures SearchIn(m, s, req) != null ==> SearchIn(m, s, req) in Inorder(s)
  {
    if s.Bin? {
      FoundInside(m, s.l, req);
      FoundInside(m, s.r, req);
    }
  }

  /** A scan for an interval that is there finds it. */
  lemma {:induction false} ScanFinds(m: Mem, q: seq<Node>, p: Node)
    requires Loose(m, q) && p in q && p in m && m[p].interval.first < m[p].interval.second
    ensures FirstHost(m, q, m[p].interval) == p
  {
    if q[0] != p {
      assert q == [q[0]] + q[1..];
      LooseSplit(m, [q[0]], q[1..]);
      assert Precedes(m, q[0], p);
      ScanFinds(m, q[1..], p);
    }
  }

  /** A node of one side that the search of that side misses is missed. */
  lemma {:induction false} MissedAbove(m: Mem, s: Shape, req: Interval, p: Node)
    requires s.Bin? && Loose(m, Inorder(s))
    requires
      || (p in Inorder(s.l) && (SearchIn(m, s.l, req) != p || (s.n in m && req.second >= m[s.n].interval.first)))
      || (p in Inorder(s.r) && SearchIn(m, s.r, req) != p)
    requires !(s.n in m && m[s.n].interval.first <= req.first && req.second <= m[s.n].interval.second && p == s.n)
    ensures SearchIn(m, s, req) != p
  {
    LooseParts(m, s);
    FoundInside(m, s.l, req);
    FoundInside(m, s.r, req);
    hide Inorder, Loose, Sub64;
  }

  /** Two touching intervals, the earlier one to the left below the other: asked for the
      earlier one, the search does not find it. */
  lemma {:induction false} TouchingIsMissed(m: Mem, s: Shape) returns (p: Node, n: Node)
    requires Loose(m, Inorder(s)) && !Gaps(m, s)
    ensures p in Inorder(s) && n in Inorder(s) && p in m && n in m
    ensures m[p].interval.first < m[p].interval.second == m[n].interval.first
    ensures SearchIn(m, s, m[p].interval) != p
  {
    LooseParts(m, s);
    InorderHas(s);
    hide Inorder, SearchIn;
    if q :| q in Inorder(s.l) && m[q].interval.second == m[s.n].interval.first {
      p, n := q, s.n;
    } else if !Gaps(m, s.l) {
      p, n := TouchingIsMissed(m, s.l);
    } else {
      assert !Gaps(m, s.r);
      p, n := TouchingIsMissed(m, s.r);
    }
    MissedAbove(m, s, m[p].interval, p);
  }

  lemma {:induction false} InorderHas(s: Shape)
    requires s.Bin?
    ensures s.n in Inorder(s)
    ensures forall n :: n in Inorder(s.l) || n in Inorder(s.r) ==> n in Inorder(s)
  {
  }

  ghost predicate SearchesFirstFit(m: Mem, s: Shape) {
    forall req: Interval :: req.first <= req.second ==> SearchIn(m, s, req) == FirstHost(m, Inorder(s), req)
  }

  /** The search is first fit on every request exactly when no interval touches one that
      ends to the left below it. */
  lemma {:induction false} FirstFitExactly(m: Mem, s: Shape)
    requires Loose(m, Inorder(s))
    ensures SearchesFirstFit(m, s) <==> Gaps(m, s)
  {
    if Gaps(m, s) {
      forall req: Interval | req.first <= req.second
        ensures SearchIn(m, s, req) == FirstHost(m, Inorder(s), req)
      {
        SearchIsFirstFit(m, s, req);
      }
    } else {
      var p, n := TouchingIsMissed(m, s);
      ScanFinds(m, Inorder(s), p);
      assert SearchIn(m, s, m[p].interval) != FirstHost(m, Inorder(s), m[p].interval);
    }
  }
}

module IntervalTrees {
  import opened TreeShapes

  // ----- the tree -----

  class IntervalTree {
    var root: Node?
    var size: int
    ghost var mem: Mem
    ghost var shape: Shape

    /** The record of the nodes' fields is up to date. */
    ghost predicate Coherent()
      reads this, mem.Keys
    {
      && Records(mem)
      && forall n: Node :: n in mem ==>
        && n.parent == mem[n].parent && n.left == mem[n].left && n.right == mem[n].right
        && n.height == mem[n].height && n.key == mem[n].key && n.interval == mem[n].interval
    }

    method UpdateParentPointer(node: Node?, parent: Node?)
      requires Coherent() && node in mem
      modifies this`root, this`mem, node
      ensures Coherent() && mem == SetParent(old(mem), node, parent)
      ensures root == if parent == null then node else old(root)
    {
      mem := SetParent(mem, node, parent);
      if node != null {
        node.parent := parent;
      }
      if parent == null {
        root := node;
      }
    }

    method UpdateChildPointer(node: Node?, child: Node?, dir: ChildDirection)
      requires Coherent() && node in mem && child in mem
      requires node != null && dir.Unspecified? ==> child != null
      modifies this`mem, node
      ensures Coherent() && mem == SetChild(old(mem), node, child, dir)
    {
      mem := SetChild(mem, node, child, dir);
      if node != null {
        if dir.Right? || (dir.Unspecified? && node.key < child.key) {
          node.right := child;
        } else {
          node.left := child;
        }
      }
    }

    static function GetHeight(n: Node?): int
      reads n
    {
      if n == null then 0 else n.height
    }

    method UpdateHeight(node: Node)
      requires Coherent() && node in mem && mem[node].left in mem && mem[node].right in mem
      modifies this`mem, node
      ensures Coherent() && mem == SetHeight(old(mem), node)
    {
      mem := SetHeight(mem, node);
      node.height := (if GetHeight(node.left) < GetHeight(node.right) then GetHeight(node.right)
                      else GetHeight(node.left)) + 1;
    }

    method Hoist(x: Node, p: Node?)
      requires Coherent() && x in mem && p in mem
      modifies this`root, this`mem, x, p
      ensures Coherent() && mem == Hoisted(old(mem), x, p)
      ensures root == if p == null then x else old(root)
    {
      UpdateParentPointer(x, p);
      UpdateChildPointer(x.parent, x, Unspecified);
    }

    method HangLeft(y: Node, child: Node?)
      requires Coherent() && y in mem && child in mem
      modifies this`root, this`mem, y, child
      ensures Coherent() && mem == HungLeft(old(mem), y, child) && root == old(root)
    {
      y.left := child;
      mem := SetLeft(mem, y, child);
      UpdateParentPointer(y.left, y);
    }

    method HangRight(y: Node, child: Node?)
      requires Coherent() && y in mem && child in mem
      modifies this`root, this`mem, y, child
      ensures Coherent() && mem == HungRight(old(mem), y, child) && root == old(root)
    {
      y.right := child;
      mem := SetRight(mem, y, child);
      UpdateParentPointer(y.right, y);
    }

    method PerformRotation(y: Node, dir: RotationDirection, ghost top: Node, ghost b: Shape, ghost c: Ctx)
      requires Coherent() && RotationReady(mem, top, y, b, c, dir)
      modifies this`root, this`mem, mem.Keys
      ensures Coherent() && RotationEffect(old(mem), mem, top, y, b, c, dir)
      ensures RotationHeights(old(mem), mem, top, y, dir)
      ensures root == if c.Top? then top else old(root)
    {
      var x := if dir.Clockwise? then y.left else y.right;
      if dir.Clockwise? {
        RelinkClockwise(y, x, b, c);
      } else {
        RelinkAntiClockwise(y, x, b, c);
      }
      ReheightedEffect(old(mem), mem, x, y, b, c, dir);
      UpdateHeight(y);
      UpdateHeight(x);
    }

    method RelinkClockwise(y: Node, x: Node, ghost b: Shape, ghost c: Ctx)
      requires Coherent() && RotationReady(mem, x, y, b, c, Clockwise)
      modifies this`root, this`mem, mem.Keys
      ensures Coherent() && RotationEffect(old(mem), mem, x, y, b, c, Clockwise)
      ensures root == if c.Top? then x else old(root)
    {
      RelinkedClockwise(mem, x, y, b, c);
      Hoist(x, y.parent);
      HangLeft(y, x.right);
      HangRight(x, y);
    }

    method RelinkAntiClockwise(y: Node, x: Node, ghost b: Shape, ghost c: Ctx)
      requires Coherent() && RotationReady(mem, x, y, b, c, AntiClockwise)
      modifies this`root, this`mem, mem.Keys
      ensures Coherent() && RotationEffect(old(mem), mem, x, y, b, c, AntiClockwise)
      ensures root == if c.Top? then x else old(root)
    {
      RelinkedAntiClockwise(mem, x, y, b, c);
      Hoist(x, y.parent);
      HangRight(y, x.left);
      HangLeft(x, y);
    }

    /** A rotation turns a subtree whose pointers are right into the rotated outline with
        exact heights, in the same place. */
    method Rotate(y: Node, dir: RotationDirection, ghost s: Shape, ghost c: Ctx, ghost h: nat)
      requires Coherent() && Rotatable(s, dir) && s.n == y && Apart(c, s)
      requires RootLinked(mem, s, Up(c)) && CtxOk(mem, c, y, h) && root == TopNode(c, y)
      requires Sorted(mem, Inorder(Plug(c, s)))
      modifies this`root, this`mem, mem.Keys
      ensures Coherent() && SameData(old(mem), mem)
      ensures Ok(mem, Rotated(s, dir), Up(c)) && CtxOk(mem, c, Rotated(s, dir).n, h)
      ensures root == TopNode(c, Rotated(s, dir).n)
    {
      ghost var x := Rotated(s, dir).n;
      SideFromOrder(mem, c, s, x);
      RotateReady(mem, s, dir, c, h);
      PerformRotation(y, dir, x, Middle(s, dir), c);
      RotationData(old(mem), mem, x, y, Middle(s, dir), c, dir);
      RotateDone(old(mem), mem, s, dir, c, h);
    }

    /** The unbalanced subtree `s` is replaced by `Balanced(s)`. */
    method BalanceHeight(z: Node, ghost s: Shape, ghost c: Ctx, ghost h: nat) returns (top: Node)
      requires Coherent() && s.Bin? && s.n == z && Apart(c, s)
      requires RootLinked(mem, s, Up(c)) && CtxOk(mem, c, z, h) && root == TopNode(c, z)
      requires Sorted(mem, Inorder(Plug(c, s)))
      requires Avl(s.l) && Avl(s.r) && (H(s.l) == H(s.r) + 2 || H(s.r) == H(s.l) + 2)
      requires mem[z].height == h && (h > H(s.l) || h > H(s.r))
      modifies this`root, this`mem, mem.Keys
      ensures Coherent() && SameData(old(mem), mem) && top == Balanced(s).n
      ensures Ok(mem, Balanced(s), Up(c)) && CtxOk(mem, c, top, h) && root == TopNode(c, top)
    {
      OkHeight(mem, s.l, z);
      OkHeight(mem, s.r, z);
      if GetHeight(z.left) > GetHeight(z.right) {
        top := BalanceLeftHeavy(z, s, c, h);
      } else {
        top := BalanceRightHeavy(z, s, c, h);
      }
    }

    /** The first half of a double rotation on the left. */
    method RotateLeftChild(y: Node, ghost s: Shape, ghost c: Ctx, ghost h: nat)
      requires Coherent() && s.Bin? && Apart(c, s) && Rotatable(s.l, AntiClockwise) && y == s.l.n
      requires RootLinked(mem, s, Up(c)) && CtxOk(mem, c, s.n, h) && root == TopNode(c, s.n)
      requires Sorted(mem, Inorder(Plug(c, s))) && mem[s.n].height == h > H(s.r)
      modifies this`root, this`mem, mem.Keys
      ensures Coherent() && SameData(old(mem), mem) && CtxOk(mem, c, s.n, h) && root == TopNode(c, s.n)
      ensures var t := Bin(Rotated(s.l, AntiClockwise), s.n, s.r);
        Apart(c, t) && RootLinked(mem, t, Up(c)) && Sorted(mem, Inorder(Plug(c, t)))
    {
      ghost var t := Bin(Rotated(s.l, AntiClockwise), s.n, s.r);
      SwappedLeft(c, s, t.l);
      Rotate(y, AntiClockwise, s.l, InLeft(s.n, s.r, c), h - 1);
      SortedSameData(old(mem), mem, Inorder(Plug(c, t)));
    }

    /** The first half of a double rotation on the right. */
    method RotateRightChild(y: Node, ghost s: Shape, ghost c: Ctx, ghost h: nat)
      requires Coherent() && s.Bin? && Apart(c, s) && Rotatable(s.r, Clockwise) && y == s.r.n
      requires RootLinked(mem, s, Up(c)) && CtxOk(mem, c, s.n, h) && root == TopNode(c, s.n)
      requires Sorted(mem, Inorder(Plug(c, s))) && mem[s.n].height == h > H(s.l)
      modifies this`root, this`mem, mem.Keys
      ensures Coherent() && SameData(old(mem), mem) && CtxOk(mem, c, s.n, h) && root == TopNode(c, s.n)
      ensures var t := Bin(s.l, s.n, Rotated(s.r, Clockwise));
        Apart(c, t) && RootLinked(mem, t, Up(c)) && Sorted(mem, Inorder(Plug(c, t)))
    {
      ghost var t := Bin(s.l, s.n, Rotated(s.r, Clockwise));
      SwappedRight(c, s, t.r);
      Rotate(y, Clockwise, s.r, InRight(s.l, s.n, c), h - 1);
      SortedSameData(old(mem), mem, Inorder(Plug(c, t)));
    }

    method BalanceLeftHeavy(z: Node, ghost s: Shape, ghost c: Ctx, ghost h: nat) returns (top: Node)
      requires Coherent() && s.Bin? && s.n == z && Apart(c, s)
      requires RootLinked(mem, s, Up(c)) && CtxOk(mem, c, z, h) && root == TopNode(c, z)
      requires Sorted(mem, Inorder(Plug(c, s)))
      requires Avl(s.l) && Avl(s.r) && H(s.l) == H(s.r) + 2 && mem[z].height == h > H(s.r)
      modifies this`root, this`mem, mem.Keys
      ensures Coherent() && SameData(old(mem), mem) && top == Balanced(s).n
      ensures Ok(mem, Balanced(s), Up(c)) && CtxOk(mem, c, top, h) && root == TopNode(c, top)
    {
      hide Sorted, Inorder, Plug, CtxOk, Avl;
      var y := z.left;
      OkHeight(mem, s.l.l, y);
      OkHeight(mem, s.l.r, y);
      if GetHeight(y.left) < GetHeight(y.right) {
        var x := y.right;
        RotateLeftChild(y, s, c, h);
        Rotate(z, Clockwise, Bin(Rotated(s.l, AntiClockwise), z, s.r), c, h);
        return x;
      } else {
        Rotate(z, Clockwise, s, c, h);
        return y;
      }
    }

    method BalanceRightHeavy(z: Node, ghost s: Shape, ghost c: Ctx, ghost h: nat) returns (top: Node)
      requires Coherent() && s.Bin? && s.n == z && Apart(c, s)
      requires RootLinked(mem, s, Up(c)) && CtxOk(mem, c, z, h) && root == TopNode(c, z)
      requires Sorted(mem, Inorder(Plug(c, s)))
      requires Avl(s.l) && Avl(s.r) && H(s.r) == H(s.l) + 2 && mem[z].height == h > H(s.l)
      modifies this`root, this`mem, mem.Keys
      ensures Coherent() && SameData(old(mem), mem) && top == Balanced(s).n
      ensures Ok(mem, Balanced(s), Up(c)) && CtxOk(mem, c, top, h) && root == TopNode(c, top)
    {
      hide Sorted, Inorder, Plug, CtxOk, Avl;
      var y := z.right;
      OkHeight(mem, s.r.l, y);
      OkHeight(mem, s.r.r, y);
      if GetHeight(y.left) > GetHeight(y.right) {
        var x := y.left;
        RotateRightChild(y, s, c, h);
        Rotate(z, AntiClockwise, Bin(s.l, z, Rotated(s.r, Clockwise)), c, h);
        return x;
      } else {
        Rotate(z, AntiClockwise, s, c, h);
        return y;
      }
    }

    static predicate HeightBalanced(node: Node)
      reads node, node.left, node.right
    {
      -1 <= GetHeight(node.left) - GetHeight(node.right) <= 1
    }

    /** Climbs from `t` and repairs balance and heights until a height comes out as it was.
        Below `t`, the subtree `s` is in order; the context `c` with `t` at its end still
        records the height `h` that the subtree had. */
    method RebalanceAVLTree(t: Node?, ghost c: Ctx, ghost s: Shape, ghost h: nat) returns (ghost w: Shape)
      requires Coherent() && t == Up(c) && Apart(c, s)
      requires Ok(mem, s, t) && CtxOk(mem, c, Root(s), h) && root == TopNode(c, Root(s))
      requires Avl(s) && CtxAvl(c, h) && Near(H(s), h)
      requires Sorted(mem, Inorder(Plug(c, s)))
      modifies this`root, this`mem, mem.Keys
      ensures Coherent() && SameData(old(mem), mem)
      ensures Ok(mem, w, null) && Avl(w) && Distinct(w) && root == Root(w)
      ensures Inorder(w) == Inorder(Plug(c, s))
      decreases c
    {
      if t == null {
        return s;
      }
      ghost var u := Climb(c, s);
      ghost var h' := HAbove(c, h);
      ClimbApart(c, s);
      ClimbLinked(mem, c, s, h);
      SettledHeight(c, s, h);
      SettledOutline(c.up, u);
      PlugSameOrder(c.up, u, Settled(u));

      var oldHeight := t.height;
      var top := SettleAt(t, u, c.up, h');
      SortedSameData(old(mem), mem, Inorder(Plug(c, s)));
      if top.height != oldHeight {
        w := RebalanceAVLTree(top.parent, c.up, Settled(u), h');
      } else {
        PlugWhole(mem, c.up, Settled(u));
        w := Plug(c.up, Settled(u));
      }
    }

    /** One rebalancing step: rotations when the node is unbalanced, a new height otherwise. */
    method SettleAt(t: Node, ghost s: Shape, ghost c: Ctx, ghost h: nat) returns (top: Node)
      requires Coherent() && s.Bin? && s.n == t && Apart(c, s)
      requires RootLinked(mem, s, Up(c)) && CtxOk(mem, c, t, h) && root == TopNode(c, t)
      requires Sorted(mem, Inorder(Plug(c, s)))
      requires Avl(s.l) && Avl(s.r) && -2 <= H(s.l) - H(s.r) <= 2 && mem[t].height == h
      requires !Near(H(s.l), H(s.r)) ==> h > H(s.l) || h > H(s.r)
      modifies this`root, this`mem, mem.Keys
      ensures Coherent() && SameData(old(mem), mem) && top == Settled(s).n && top in mem
      ensures Ok(mem, Settled(s), Up(c)) && CtxOk(mem, c, top, h) && root == TopNode(c, top)
    {
      hide Sorted, Inorder, Plug, CtxOk, CtxDistinct;
      OkHeight(mem, s.l, t);
      OkHeight(mem, s.r, t);
      if !HeightBalanced(t) {
        top := BalanceHeight(t, s, c, h);
      } else {
        UpdateHeight(t);
        top := t;
        HeightUpdated(old(mem), mem, s, c, h);
      }
    }

    /** Finds the empty place where `node` belongs, hangs it there and rebalances; a node whose
        key is taken is an error and changes nothing. */
    method InsertInTree(node: Node, t: Node, ghost c: Ctx, ghost s: Shape)
      returns (ok: bool, ghost w: Shape, ghost k: nat)
      requires Coherent() && Fits(mem, c, s) && s.Bin? && s.n == t && root == TopNode(c, t)
      requires Sorted(mem, Inorder(Plug(c, s))) && Between(mem, c, node.key)
      requires node !in mem && Leaf(node.Image())
      modifies this`root, this`mem, node, mem.Keys
      ensures ok <==> !HasKey(old(mem), Inorder(s), old(node.key))
      ensures Coherent()
      ensures !ok ==> mem == old(mem) && root == old(root)
      ensures ok ==>
        && node in mem && SameData(old(mem)[node := old(node.Image())], mem)
        && Ok(mem, w, null) && Avl(w) && Distinct(w) && root == Root(w) && Sorted(mem, Inorder(w))
        && k <= |Inorder(Plug(c, s))|
        && Inorder(w) == Inorder(Plug(c, s))[..k] + [node] + Inorder(Plug(c, s))[k..]
      decreases s
    {
      FitsBelow(mem, c, s);
      PlugOrder(mem, c, s);
      BetweenBelow(mem, c, s, node.key);
      KeyBelow(mem, s, node.key);
      if node.key < t.key {
        if t.left != null {
          ok, w, k := InsertInTree(node, t.left, InLeft(t, s.r, c), s.l);
        } else {
          ok := true;
          w, k := HangLeaf(node, t, Left, InLeft(t, s.r, c));
        }
      } else if node.key > t.key {
        if t.right != null {
          ok, w, k := InsertInTree(node, t.right, InRight(s.l, t, c), s.r);
        } else {
          ok := true;
          w, k := HangLeaf(node, t, Right, InRight(s.l, t, c));
        }
      } else {
        ok := false;
        w, k := Nil, 0;
      }
    }

    method HangLeaf(node: Node, t: Node, dir: ChildDirection, ghost c: Ctx) returns (ghost w: Shape, ghost k: nat)
      requires !c.Top? && dir == (if c.InLeft? then Left else Right)
      requires Coherent() && Fits(mem, c, Nil) && t == c.n && root == TopNode(c, null)
      requires Sorted(mem, Inorder(Plug(c, Nil))) && Between(mem, c, node.key)
      requires node !in mem && Leaf(node.Image())
      modifies this`root, this`mem, node, mem.Keys
      ensures Coherent()
      ensures node in mem && SameData(old(mem)[node := old(node.Image())], mem)
      ensures Ok(mem, w, null) && Avl(w) && Distinct(w) && root == Root(w) && Sorted(mem, Inorder(w))
      ensures k <= |Inorder(Plug(c, Nil))|
      ensures Inorder(w) == Inorder(Plug(c, Nil))[..k] + [node] + Inorder(Plug(c, Nil))[k..]
    {
      hide Inorder, Plug, Sorted, Between, Before, After, CtxAvl;
      ghost var r := node.Image();
      AttachLeaf(node, t, dir, c);
      LeafFits(old(mem), mem, c, node, r);
      LeafInorder(c, node);
      LeafOrder(old(mem), mem, c, node, r);
      k := |Before(c)|;
      ghost var m := mem;
      w := RebalanceAVLTree(t, c, Bin(Nil, node, Nil), 0);
      SortedSameData(m, mem, Inorder(w));
    }

    method AttachLeaf(node: Node, t: Node, dir: ChildDirection, ghost c: Ctx)
      requires !c.Top? && dir == (if c.InLeft? then Left else Right)
      requires Coherent() && t == c.n && t in mem && node !in mem
      modifies this`mem, node, t
      ensures Coherent() && LeafHung(old(mem), mem, c, node, old(node.Image()))
    {
      ghost var r := node.Image();
      if dir.Left? {
        t.left := node;
        mem := mem[t := mem[t].(left := node)];
      } else {
        t.right := node;
        mem := mem[t := mem[t].(right := node)];
      }
      node.parent := t;
      mem := mem[node := r.(parent := t)];
    }

    /** Points the parent of `node` to the only child of `node`. */
    method TurnParent(node: Node, ghost c: Ctx, ghost s: Shape)
      requires Coherent() && Fits(mem, c, s) && s.Bin? && s.n == node && (s.l.Nil? || s.r.Nil?)
      requires Sorted(mem, Inorder(Plug(c, s)))
      modifies this`mem, Up(c)
      ensures Coherent() && ParentTurned(old(mem), mem, c, OnlyChild(s))
    {
      OkHeight(mem, OnlyChild(s), node);
      SideFromOrder(mem, c, s, node);
      if node.left == null {
        if node.parent != null {
          UpdateChildPointer(node.parent, node.right, if node.parent.key < node.key then Right else Left);
        }
      } else {
        SideFromOrder(mem, c, s, node.left);
        UpdateChildPointer(node.parent, node.left, Unspecified);
      }
    }

    /** Links the parent of `node` and its only child to each other. */
    method Bypass(node: Node, ghost c: Ctx, ghost s: Shape)
      requires Coherent() && Fits(mem, c, s) && s.Bin? && s.n == node && (s.l.Nil? || s.r.Nil?)
      requires root == TopNode(c, node) && Sorted(mem, Inorder(Plug(c, s)))
      modifies this`root, this`mem, mem.Keys
      ensures Coherent() && Bypassed(old(mem), mem, c, s) && root == TopNode(c, Root(OnlyChild(s)))
      ensures node.Image() == old(node.Image())
    {
      hide Sorted, Inorder, Plug, CtxAvl, Bypassed;
      BypassPlaces(mem, c, s);
      TurnParent(node, c, s);
      BypassSteps(old(mem), mem, c, s);
      var child := if node.left == null then node.right else node.left;
      UpdateParentPointer(child, node.parent);
      Forget(node);
    }

    /** Ends the record of a node. */
    ghost method Forget(node: Node)
      requires Coherent()
      modifies this`mem
      ensures Coherent() && mem == Dropped(old(mem), node)
    {
      mem := Dropped(mem, node);
    }

    /** The leftmost node of a subtree, where it hangs, and that nothing else of the subtree
        comes before it. */
    method FindMinKeyNode(t: Node, ghost c: Ctx, ghost s: Shape) returns (n: Node, ghost c': Ctx, ghost s': Shape)
      requires Coherent() && Fits(mem, c, s) && s.Bin? && s.n == t && root == TopNode(c, t)
      ensures Fits(mem, c', s') && s'.Bin? && s'.n == n && s'.l.Nil? && root == TopNode(c', n)
      ensures Plug(c', s') == Plug(c, s) && Before(c') == Before(c)
      ensures Inorder(s) != [] && n == Inorder(s)[0]
      decreases s
    {
      if t.left != null {
        FitsBelow(mem, c, s);
        n, c', s' := FindMinKeyNode(t.left, InLeft(t, s.r, c), s.l);
      } else {
        return t, c, s;
      }
    }

    /** Bypassing a node with at most one child leaves a subtree that is one lower than the
        rest of the tree expects. */
    method Detach(node: Node, ghost c: Ctx, ghost s: Shape)
      requires Coherent() && Fits(mem, c, s) && s.Bin? && s.n == node && (s.l.Nil? || s.r.Nil?)
      requires root == TopNode(c, node) && Sorted(mem, Inorder(Plug(c, s)))
      modifies this`root, this`mem, mem.Keys
      ensures Coherent() && RemovedData(old(mem), mem, node) && root == TopNode(c, Root(OnlyChild(s)))
      ensures Apart(c, OnlyChild(s)) && Ok(mem, OnlyChild(s), Up(c)) && CtxOk(mem, c, Root(OnlyChild(s)), H(s))
      ensures Sorted(mem, Inorder(Plug(c, OnlyChild(s))))
      ensures node.Image() == old(node.Image())
    {
      Bypass(node, c, s);
      BypassedWhole(old(mem), mem, c, s);
    }

    /** Takes out a node that has at most one child. */
    method RemoveSimple(node: Node, ghost c: Ctx, ghost s: Shape) returns (ghost w: Shape)
      requires Coherent() && Fits(mem, c, s) && s.Bin? && s.n == node && (s.l.Nil? || s.r.Nil?)
      requires root == TopNode(c, node) && Sorted(mem, Inorder(Plug(c, s)))
      modifies this`root, this`mem, mem.Keys
      ensures Coherent() && RemovedData(old(mem), mem, node) && root == Root(w)
      ensures Ok(mem, w, null) && Avl(w) && Distinct(w) && Sorted(mem, Inorder(w))
      ensures Inorder(w) == Inorder(Plug(c, OnlyChild(s)))
      ensures node.key == old(node.key) && node.interval == old(node.interval)
    {
      OnlyChildHeight(s);
      Detach(node, c, s);
      ghost var m := mem;
      w := RebalanceAVLTree(node.parent, c, OnlyChild(s), H(s));
      SortedSameData(m, mem, Inorder(w));
    }

    /** Takes `node`'s entry out of the tree; the node returned carries it.  With two children,
        that is the successor, whose entry `node` has taken over. */
    method RemoveFromTree(node: Node, ghost c: Ctx, ghost s: Shape) returns (removed: Node, ghost w: Shape,
        ghost k: nat)
      requires Coherent() && Fits(mem, c, s) && s.Bin? && s.n == node
      requires root == TopNode(c, node) && Sorted(mem, Inorder(Plug(c, s)))
      modifies this`root, this`mem, mem.Keys
      ensures Coherent() && removed in old(mem) && mem.Keys == old(mem).Keys - {removed} && root == Root(w)
      ensures Ok(mem, w, null) && Avl(w) && Distinct(w) && Sorted(mem, Inorder(w))
      ensures removed.key == old(node.key) && removed.interval == old(node.interval)
      ensures EntryGone(old(mem), mem, Inorder(Plug(c, s)), Inorder(w), node, removed, k)
    {
      hide Sorted, Inorder, Plug, Avl, CtxAvl, Before, CtxOk, EntryGone, H;
      if node.left == null || node.right == null {
        removed := node;
        OnlyChildInorder(c, s);
        k := |Before(c)| + |Inorder(s.l)|;
        w := RemoveSimple(node, c, s);
        SimplyGone(old(mem), mem, Inorder(Plug(c, s)), Inorder(w), node, k);
      } else {
        removed, w, k := RemoveInner(node, c, s);
      }
    }

    method RemoveInner(node: Node, ghost c: Ctx, ghost s: Shape) returns (removed: Node, ghost w: Shape, ghost k: nat)
      requires Coherent() && Fits(mem, c, s) && s.Bin? && s.n == node && s.l.Bin? && s.r.Bin?
      requires root == TopNode(c, node) && Sorted(mem, Inorder(Plug(c, s)))
      modifies this`root, this`mem, mem.Keys
      ensures Coherent() && removed in old(mem) && mem.Keys == old(mem).Keys - {removed} && root == Root(w)
      ensures Ok(mem, w, null) && Avl(w) && Distinct(w) && Sorted(mem, Inorder(w))
      ensures removed.key == old(node.key) && removed.interval == old(node.interval)
      ensures EntryGone(old(mem), mem, Inorder(Plug(c, s)), Inorder(w), node, removed, k)
    {
      hide Ok, Avl, Distinct, Sorted, Inorder, Plug, EntryGone, Fits;
      k := |Before(c)| + |Inorder(s.l)|;
      removed, w := RemoveSuccessor(node, c, s);
      ghost var m1 := mem;
      Swap(node, removed);
      SwappedGone(old(mem), m1, mem, Inorder(Plug(c, s)), Inorder(w), node, removed, k);
      OkNewData(m1, mem, w, null, node);
    }

    /** Takes out the node that comes directly after `node`. */
    method RemoveSuccessor(node: Node, ghost c: Ctx, ghost s: Shape) returns (removed: Node, ghost w: Shape)
      requires Coherent() && Fits(mem, c, s) && s.Bin? && s.n == node && s.l.Bin? && s.r.Bin?
      requires root == TopNode(c, node) && Sorted(mem, Inorder(Plug(c, s)))
      modifies this`root, this`mem, mem.Keys
      ensures Coherent() && node in mem && removed != node && RemovedData(old(mem), mem, removed) && root == Root(w)
      ensures Ok(mem, w, null) && Avl(w) && Distinct(w)
      ensures removed in old(mem) && removed.key == old(mem)[removed].key
      ensures removed.interval == old(mem)[removed].interval
      ensures var q, k := Inorder(Plug(c, s)), |Before(c)| + |Inorder(s.l)|;
        && k + 1 < |q| && q[k] == node && q[k + 1] == removed
        && Inorder(w) == Without(q, k + 1)
    {
      hide Inorder, Plug, Sorted, Avl, CtxAvl, Before, CtxOk;
      FitsBelow(mem, c, s);
      PlaceOf(c, s);
      ghost var c', s';
      removed, c', s' := FindMinKeyNode(node.right, InRight(s.l, node, c), s.r);
      OnlyChildInorder(c', s');
      SuccessorPlace(c, s, c', s');
      w := RemoveSimple(removed, c', s');
    }

    /** Exchanges keys and intervals. */
    method Swap(node: Node, other: Node)
      requires Coherent() && node in mem && other !in mem
      modifies this`mem, node, other
      ensures Coherent()
      ensures mem == old(mem)[node := old(mem)[node].(key := old(other.key), interval := old(other.interval))]
      ensures other.key == old(node.key) && other.interval == old(node.interval)
    {
      node.key, other.key := other.key, node.key;
      node.interval, other.interval := other.interval, node.interval;
      mem := mem[node := mem[node].(key := node.key, interval := node.interval)];
    }

    // ----- the interface -----

    /** A search tree, balanced, with consistent links and exact heights. */
    ghost predicate ValidTree()
      reads this, mem.Keys
    {
      && Coherent() && mem.Keys == Nodes(shape) + {null}
      && root == Root(shape) && Ok(mem, shape, null)
      && Distinct(shape) && Avl(shape) && Sorted(mem, Inorder(shape))
    }

    ghost predicate Valid()
      reads this, mem.Keys
    {
      ValidTree() && size == |Inorder(shape)|
    }

    /** The keys and intervals in key order. */
    ghost function Entries(): seq<Entry>
      reads this
    {
      Data(mem, Inorder(shape))
    }

    constructor (node: Node)
      requires Leaf(node.Image()) && node.parent == null
      ensures Valid() && Entries() == [Entry(node.key, node.interval)]
      ensures mem.Keys == {null, node} && size == 1
    {
      root := node;
      size := 1;
      mem := map[null := Rec(null, null, null, 0, 0, Interval(0, 0)), node := node.Image()];
      shape := Bin(Nil, node, Nil);
      new;
      Singleton(mem, node);
    }

    lemma NonEmpty(k: nat)
      requires ValidTree() && k < |Inorder(shape)|
      ensures root != null
    {
    }

    method Search(req: Interval) returns (n: Node?)
      requires ValidTree()
      ensures n == SearchIn(mem, shape, req)
    {
      n := SearchTree(req, root, shape, null);
    }

    method SearchTree(req: Interval, t: Node?, ghost s: Shape, ghost p: Node?) returns (n: Node?)
      requires Coherent() && Ok(mem, s, p) && t == Root(s)
      ensures n == SearchIn(mem, s, req)
      decreases s
    {
      if t == null {
        return null;
      }
      if req.first >= t.interval.first && req.second <= t.interval.second {
        return t;
      }
      if req.second < t.interval.first {
        var found := SearchTree(req, t.left, s.l, t);
        if found != null {
          return found;
        }
      }
      if req.first < t.interval.first
         && Sub64(t.interval.second, t.interval.first) >= Sub64(req.second, req.first) {
        return t;
      }
      n := SearchTree(req, t.right, s.r, t);
    }

    method Insert(node: Node) returns (ok: bool, ghost k: nat)
      requires Valid() && root != null && node !in mem && Leaf(node.Image())
      modifies this, node, mem.Keys
      ensures ok <==> forall e :: e in old(Entries()) ==> e.key != old(node.key)
      ensures ok ==> Valid() && mem.Keys == old(mem.Keys) + {node} && size == old(size) + 1
      ensures ok ==>
        && k <= |old(Entries())|
        && Entries() == old(Entries())[..k] + [old(Entry(node.key, node.interval))] + old(Entries())[k..]
        && k <= |old(Inorder(shape))|
        && Inorder(shape) == old(Inorder(shape))[..k] + [node] + old(Inorder(shape))[k..]
      ensures !ok ==> ValidTree() && Entries() == old(Entries()) && size == old(size) + 1
    {
      hide Ok, Avl, Distinct, Inorder, Data, HasKey, Nodes, Fits;
      size := size + 1;
      FitsTop(mem, shape);
      ghost var s, w := shape, Nil;
      ok, w, k := InsertInTree(node, root, Top, shape);
      KeysInEntries(old(mem), Inorder(s), old(node.key));
      if ok {
        DataInsert(old(mem), mem, Inorder(s), node, k);
        InsertedNodes(s, w, node, k);
        shape := w;
      }
    }

    method Remove(node: Node) returns (removed: Node, ghost k: nat)
      requires Valid() && node in mem
      modifies this, mem.Keys
      ensures Valid() && removed in old(mem) && mem.Keys == old(mem.Keys) - {removed} && size == old(size) - 1
      ensures removed.key == old(node.key) && removed.interval == old(node.interval)
      ensures k < |old(Entries())| && k < |old(Inorder(shape))| && old(Inorder(shape))[k] == node
      ensures old(Entries())[k] == old(Entry(node.key, node.interval)) && Entries() == Without(old(Entries()), k)
    {
      hide Ok, Avl, Distinct, Inorder, Data, Nodes, Fits;
      size := size - 1;
      FitsTop(mem, shape);
      ghost var c, s := Locate(mem, Top, shape, node);
      ghost var w;
      removed, w, k := RemoveFromTree(node, c, s);
      EntryAt(old(mem), old(Inorder(shape)), k);
      RemovedNodes(old(mem), mem, shape, w, node, removed, k);
      shape := w;
    }

    /** Gives a node another interval and key that keep its place in the order. */
    method Reshape(node: Node, key: UInt64, interval: Interval, ghost k: nat)
      requires Valid() && k < |Inorder(shape)| && Inorder(shape)[k] == node && node in mem
      requires forall i :: 0 <= i < k ==> mem[Inorder(shape)[i]].key < key
      requires forall i :: k < i < |Inorder(shape)| ==> key < mem[Inorder(shape)[i]].key
      modifies this`mem, node
      ensures Valid() && shape == old(shape) && mem.Keys == old(mem.Keys)
      ensures k < |old(Entries())| && Entries() == old(Entries())[k := Entry(key, interval)]
    {
      hide Ok, Avl, Distinct, Inorder, Data, Nodes;
      node.key := key;
      node.interval := interval;
      mem := mem[node := mem[node].(key := key, interval := interval)];
      DataReshaped(old(mem), mem, Inorder(shape), k);
      OkNewData(old(mem), mem, shape, null, node);
    }
  }
}
