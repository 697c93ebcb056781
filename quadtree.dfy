/**
 * The point quadtree of Go/src/Programmierwettbewerb-Server/data/data.go.
 * Coordinates are reals; `float32` matters only through the `EPSILON`
 * equality of `floatEquals`.  The nodes are values: the source never
 * shares a node between two parents, so overwriting a child of an inner
 * node in place and building a new node are the same here.  The stored
 * values (`interface{}`) are a type parameter.
 */
module QuadTreeData {
  import opened Wrappers
  import opened GoShared

  /** `EPSILON`. */
  const Epsilon: real := 0.00000001

  /** `floatEquals`: the two numbers differ by less than `EPSILON`. */
  predicate FloatEquals(a: real, b: real) {
    a - b < Epsilon && b - a < Epsilon
  }

  /** `floatEquals` is reflexive and symmetric. */
  lemma FloatEqualsSymmetric(a: real, b: real)
    ensures FloatEquals(a, a)
    ensures FloatEquals(a, b) <==> FloatEquals(b, a)
  {
  }

  /** `Quad`: a square given by its lower-left corner and its side. */
  datatype Quad = Quad(origin: Vec2, size: real)

  /** `quadTreeEntry`. */
  datatype Entry<V> = Entry(position: Vec2, value: V)

  /** The four node kinds behind the `quadTreeNode` interface, each over its quad. */
  datatype Node<V> =
    | Empty(quad: Quad)
    | Inner(quad: Quad, leftLower: Node<V>, rightLower: Node<V>, rightUpper: Node<V>, leftUpper: Node<V>)
    | Leaf(quad: Quad, entry: Entry<V>)
    | Equal(quad: Quad, entry: Entry<V>, next: Node<V>)

  /*
   * Child quads
   */

  function LeftLowerSpace(q: Quad): Quad {
    Quad(q.origin, q.size / 2.0)
  }

  function RightLowerSpace(q: Quad): Quad {
    Quad(Vec2(q.origin.x + q.size / 2.0, q.origin.y), q.size / 2.0)
  }

  function RightUpperSpace(q: Quad): Quad {
    Quad(Vec2(q.origin.x + q.size / 2.0, q.origin.y + q.size / 2.0), q.size / 2.0)
  }

  function LeftUpperSpace(q: Quad): Quad {
    Quad(Vec2(q.origin.x, q.origin.y + q.size / 2.0), q.size / 2.0)
  }

  /** `newInnerNode`: four empty children over the four child quads. */
  function NewInner<V>(q: Quad): (n: Node<V>)
    ensures n.Inner? && n.quad == q
  {
    Inner(q, Empty(LeftLowerSpace(q)), Empty(RightLowerSpace(q)), Empty(RightUpperSpace(q)), Empty(LeftUpperSpace(q)))
  }

  /** `p` lies in the square including its lower and left edges but not its upper and right ones. */
  predicate InHalfOpen(q: Quad, p: Vec2) {
    q.origin.x <= p.x < q.origin.x + q.size && q.origin.y <= p.y < q.origin.y + q.size
  }

  /**
   * The child quads have half the side and tile the parent: a point of the
   * parent lies in exactly one of them, the one `Insert` sends it to.
   */
  lemma ChildrenTile(q: Quad, p: Vec2)
    ensures LeftLowerSpace(q).size == RightLowerSpace(q).size == RightUpperSpace(q).size
      == LeftUpperSpace(q).size == q.size / 2.0
    ensures InHalfOpen(q, p) <==>
      InHalfOpen(LeftLowerSpace(q), p) || InHalfOpen(RightLowerSpace(q), p)
      || InHalfOpen(RightUpperSpace(q), p) || InHalfOpen(LeftUpperSpace(q), p)
    ensures InHalfOpen(q, p) ==>
      var left, lower := p.x < q.origin.x + q.size / 2.0, p.y < q.origin.y + q.size / 2.0;
      && (InHalfOpen(LeftLowerSpace(q), p) <==> left && lower)
      && (InHalfOpen(RightLowerSpace(q), p) <==> !left && lower)
      && (InHalfOpen(RightUpperSpace(q), p) <==> !left && !lower)
      && (InHalfOpen(LeftUpperSpace(q), p) <==> left && !lower)
  {
  }

  /*
   * Counting
   */

  /** `CountElements`. */
  function Count<V>(n: Node<V>): nat {
    match n
    case Empty(_) => 0
    case Leaf(_, _) => 1
    case Equal(_, _, next) => 1 + Count(next)
    case Inner(_, ll, rl, ru, lu) => Count(ll) + Count(rl) + Count(ru) + Count(lu)
  }

  /** The values stored under `n`, in the order `FindValuesInQuad` visits them. */
  function Values<V>(n: Node<V>): seq<V> {
    match n
    case Empty(_) => []
    case Leaf(_, e) => [e.value]
    case Equal(_, e, next) => [e.value] + Values(next)
    case Inner(_, ll, rl, ru, lu) => Values(ll) + Values(rl) + Values(ru) + Values(lu)
  }

  /** The stored values as a multiset. */
  function Bag<V>(n: Node<V>): multiset<V> {
    match n
    case Empty(_) => multiset{}
    case Leaf(_, e) => multiset{e.value}
    case Equal(_, e, next) => multiset{e.value} + Bag(next)
    case Inner(_, ll, rl, ru, lu) => Bag(ll) + Bag(rl) + Bag(ru) + Bag(lu)
  }

  /** `Bag` holds the values `Values` lists, and as many as `CountElements` counts. */
  lemma {:induction false} BagValues<V>(n: Node<V>)
    ensures Bag(n) == multiset(Values(n)) && |Bag(n)| == Count(n)
  {
    match n
    case Empty(_) =>
    case Leaf(_, _) =>
    case Equal(_, e, next) =>
      BagValues(next);
      assert [e.value] + Values(next) == Values(n);
    case Inner(_, ll, rl, ru, lu) =>
      BagValues(ll); BagValues(rl); BagValues(ru); BagValues(lu);
      assert Values(n) == Values(ll) + Values(rl) + Values(ru) + Values(lu);
  }

  /** `CountElements` counts the stored values. */
  lemma {:induction false} CountValues<V>(n: Node<V>)
    ensures Count(n) == |Values(n)|
  {
    match n
    case Empty(_) =>
    case Leaf(_, _) =>
    case Equal(_, _, next) => CountValues(next);
    case Inner(_, ll, rl, ru, lu) =>
      CountValues(ll); CountValues(rl); CountValues(ru); CountValues(lu);
  }

  /** `QuadTreeInfo`. */
  datatype QuadTreeInfo = QuadTreeInfo(emptyNodeCount: int, innerNodeCount: int, leafNodeCount: int, equalNodeCount: int)

  /** `addQuadTreeInfos`. */
  function AddInfos(i1: QuadTreeInfo, i2: QuadTreeInfo): (r: QuadTreeInfo) {
    QuadTreeInfo(i1.emptyNodeCount + i2.emptyNodeCount, i1.innerNodeCount + i2.innerNodeCount,
      i1.leafNodeCount + i2.leafNodeCount, i1.equalNodeCount + i2.equalNodeCount)
  }

  /** `GetInfo`: the number of nodes of each kind. */
  function GetInfo<V>(n: Node<V>): QuadTreeInfo {
    match n
    case Empty(_) => QuadTreeInfo(1, 0, 0, 0)
    case Leaf(_, _) => QuadTreeInfo(0, 0, 1, 0)
    case Equal(_, _, next) => AddInfos(QuadTreeInfo(0, 0, 0, 1), GetInfo(next))
    case Inner(_, ll, rl, ru, lu) =>
      var lower := AddInfos(GetInfo(ll), GetInfo(rl));
      var upper := AddInfos(GetInfo(lu), GetInfo(ru));
      AddInfos(QuadTreeInfo(0, 1, 0, 0), AddInfos(lower, upper))
  }

  /**
   * Each element sits in one leaf or one equal node, and every inner node
   * has four children: empty and leaf nodes together number one more than
   * three per inner node.
   */
  lemma {:induction false} InfoCounts<V>(n: Node<V>)
    ensures var i := GetInfo(n);
      && Count(n) == i.leafNodeCount + i.equalNodeCount
      && i.emptyNodeCount + i.leafNodeCount == 1 + 3 * i.innerNodeCount
  {
    match n
    case Empty(_) =>
    case Leaf(_, _) =>
    case Equal(_, _, next) => InfoCounts(next);
    case Inner(_, ll, rl, ru, lu) =>
      InfoCounts(ll); InfoCounts(rl); InfoCounts(ru); InfoCounts(lu);
  }

  /*
   * Insertion
   */

  /** Every child quad is the one `newInnerNode` gave it, and an equal node shares its quad with the chain below it. */
  predicate Wf<V>(n: Node<V>) {
    match n
    case Empty(_) => true
    case Leaf(_, _) => true
    case Equal(q, _, next) => (next.Leaf? || next.Equal?) && next.quad == q && Wf(next)
    case Inner(q, ll, rl, ru, lu) =>
      && ll.quad == LeftLowerSpace(q) && rl.quad == RightLowerSpace(q)
      && ru.quad == RightUpperSpace(q) && lu.quad == LeftUpperSpace(q)
      && Wf(ll) && Wf(rl) && Wf(ru) && Wf(lu)
  }

  /**
   * `Insert` of every node kind.  An inner node sends the entry to the
   * child on its side of the midpoint; an empty node becomes a leaf; a leaf
   * holding an equal position (within `EPSILON` in both coordinates) and
   * an equal node get an equal node in front; any other leaf becomes an
   * inner node over its quad into which the new entry and then the old one
   * are inserted.  The source recurses without bound when two distinct
   * entries keep falling into the same child; `fuel` bounds the number of
   * leaves split, and `None` means it ran out.
   */
  function InsertNode<V>(n: Node<V>, e: Entry<V>, fuel: nat): Option<Node<V>>
    decreases fuel, 1, n
  {
    match n
    case Empty(q) => Some(Leaf(q, e))
    case Equal(q, _, _) => Some(Equal(q, e, n))
    case Leaf(q, other) =>
      if FloatEquals(other.position.x, e.position.x) && FloatEquals(other.position.y, e.position.y) then
        Some(Equal(q, e, n))
      else if fuel == 0 then None
      else SplitLeaf(q, other, e, fuel - 1)
    case Inner(q, ll, rl, ru, lu) =>
      var half := q.size / 2.0;
      if e.position.x < q.origin.x + half then
        if e.position.y < q.origin.y + half then
          match InsertNode(ll, e, fuel) case None => None case Some(c) => Some(Inner(q, c, rl, ru, lu))
        else
          match InsertNode(lu, e, fuel) case None => None case Some(c) => Some(Inner(q, ll, rl, ru, c))
      else
        if e.position.y < q.origin.y + half then
          match InsertNode(rl, e, fuel) case None => None case Some(c) => Some(Inner(q, ll, c, ru, lu))
        else
          match InsertNode(ru, e, fuel) case None => None case Some(c) => Some(Inner(q, ll, rl, c, lu))
  }

  /** A leaf over `q` holding `other` that receives `e` at a different position: a fresh inner node gets `e`, then `other`. */
  function SplitLeaf<V>(q: Quad, other: Entry<V>, e: Entry<V>, fuel: nat): Option<Node<V>>
    decreases fuel, 2, NewInner<V>(q)
  {
    match InsertNode(NewInner(q), e, fuel)
    case None => None
    case Some(n1) => InsertNode(n1, other, fuel)
  }

  /**
   * A finished insertion keeps the node's quad and its well-formedness,
   * and adds exactly the new value to the stored ones.
   */
  lemma InsertAdds<V>(n: Node<V>, e: Entry<V>, fuel: nat)
    requires Wf(n)
    ensures var r := InsertNode(n, e, fuel);
      r.Some? ==>
        && r.value.quad == n.quad && Wf(r.value)
        && Bag(r.value) == Bag(n) + multiset{e.value}
  {
    InsertKeepsWf(n, e, fuel);
    InsertAddsValue(n, e, fuel);
  }

  /** A finished insertion keeps the node's quad and its well-formedness. */
  lemma {:induction false} InsertKeepsWf<V>(n: Node<V>, e: Entry<V>, fuel: nat)
    requires Wf(n)
    ensures var r := InsertNode(n, e, fuel);
      r.Some? ==> r.value.quad == n.quad && Wf(r.value)
    decreases fuel, n, 1
  {
    match n
    case Empty(_) =>
    case Equal(_, _, _) =>
    case Leaf(q, other) =>
      if !(FloatEquals(other.position.x, e.position.x) && FloatEquals(other.position.y, e.position.y)) && fuel > 0 {
        InsertKeepsWfSplit(n, e, fuel);
      }
    case Inner(_, _, _, _, _) =>
      InsertKeepsWfInner(n, e, fuel);
  }

  /** A split leaf: the new entry and then the old one go into a fresh inner node. */
  lemma {:induction false} InsertKeepsWfSplit<V>(n: Node<V>, e: Entry<V>, fuel: nat)
    requires n.Leaf? && fuel > 0
    requires !(FloatEquals(n.entry.position.x, e.position.x) && FloatEquals(n.entry.position.y, e.position.y))
    ensures var r := InsertNode(n, e, fuel);
      r.Some? ==> r.value.quad == n.quad && Wf(r.value)
    decreases fuel, n, 0
  {
    var inner: Node<V> := NewInner(n.quad);
    NewInnerEmpty<V>(n.quad);
    InsertKeepsWf(inner, e, fuel - 1);
    var r1 := InsertNode(inner, e, fuel - 1);
    assert InsertNode(n, e, fuel) == if r1.Some? then InsertNode(r1.value, n.entry, fuel - 1) else None;
    if r1.Some? {
      InsertKeepsWf(r1.value, n.entry, fuel - 1);
    }
  }

  /** An inner node: the child on the entry's side receives it. */
  lemma {:induction false} InsertKeepsWfInner<V>(n: Node<V>, e: Entry<V>, fuel: nat)
    requires n.Inner? && Wf(n)
    ensures var r := InsertNode(n, e, fuel);
      r.Some? ==> r.value.quad == n.quad && Wf(r.value)
    decreases fuel, n, 0
  {
    var half := n.quad.size / 2.0;
    if e.position.x < n.quad.origin.x + half {
      if e.position.y < n.quad.origin.y + half {
        InsertKeepsWf(n.leftLower, e, fuel);
      } else {
        InsertKeepsWf(n.leftUpper, e, fuel);
      }
    } else {
      if e.position.y < n.quad.origin.y + half {
        InsertKeepsWf(n.rightLower, e, fuel);
      } else {
        InsertKeepsWf(n.rightUpper, e, fuel);
      }
    }
  }

  /** A finished insertion of `e` into `n` adds exactly `e`'s value to the stored ones. */
  predicate AddsValue<V(==)>(n: Node<V>, e: Entry<V>, fuel: nat) {
    var r := InsertNode(n, e, fuel);
    r.Some? ==> Bag(r.value) == Bag(n) + multiset{e.value}
  }

  /** A finished insertion adds exactly the new value to the stored ones. */
  lemma {:induction false} InsertAddsValue<V>(n: Node<V>, e: Entry<V>, fuel: nat)
    ensures AddsValue(n, e, fuel)
    decreases fuel, 1, n, 1
  {
    match n
    case Empty(_) =>
    case Equal(_, _, _) =>
    case Leaf(q, other) =>
      if !(FloatEquals(other.position.x, e.position.x) && FloatEquals(other.position.y, e.position.y)) && fuel > 0 {
        InsertAddsValueSplit(n, e, fuel);
      }
    case Inner(_, _, _, _, _) =>
      InsertAddsValueInner(n, e, fuel);
  }

  /** A split leaf: the new entry and then the old one go into a fresh inner node. */
  lemma {:induction false} InsertAddsValueSplit<V>(n: Node<V>, e: Entry<V>, fuel: nat)
    requires n.Leaf? && fuel > 0
    requires !(FloatEquals(n.entry.position.x, e.position.x) && FloatEquals(n.entry.position.y, e.position.y))
    ensures AddsValue(n, e, fuel)
    decreases fuel, 1, n, 0
  {
    SplitLeafAdds(n.quad, n.entry, e, fuel - 1);
  }

  /** Splitting a leaf stores exactly its old value and the new one. */
  lemma {:induction false} SplitLeafAdds<V>(q: Quad, other: Entry<V>, e: Entry<V>, fuel: nat)
    ensures var r := SplitLeaf(q, other, e, fuel);
      r.Some? ==> Bag(r.value) == multiset{other.value} + multiset{e.value}
    decreases fuel, 2
  {
    var inner: Node<V> := NewInner(q);
    NewInnerEmpty<V>(q);
    InsertAddsValue(inner, e, fuel);
    var r1 := InsertNode(inner, e, fuel);
    if r1.Some? {
      InsertAddsValue(r1.value, other, fuel);
      var r2 := InsertNode(r1.value, other, fuel);
      if r2.Some? {
        TwoAdded(Bag(r2.value), Bag(r1.value), Bag(inner), e.value, other.value);
      }
    }
  }

  /** An inner node: the child on the entry's side receives it. */
  lemma {:induction false} InsertAddsValueInner<V>(n: Node<V>, e: Entry<V>, fuel: nat)
    requires n.Inner?
    ensures AddsValue(n, e, fuel)
    decreases fuel, 1, n, 0
  {
    var half := n.quad.size / 2.0;
    if e.position.x < n.quad.origin.x + half {
      if e.position.y < n.quad.origin.y + half {
        InsertAddsValue(n.leftLower, e, fuel);
      } else {
        InsertAddsValue(n.leftUpper, e, fuel);
      }
    } else {
      if e.position.y < n.quad.origin.y + half {
        InsertAddsValue(n.rightLower, e, fuel);
      } else {
        InsertAddsValue(n.rightUpper, e, fuel);
      }
    }
  }

  /** Adding `x` and then `y` to nothing stores the two of them. */
  lemma TwoAdded<V>(b2: multiset<V>, b1: multiset<V>, b0: multiset<V>, x: V, y: V)
    requires b0 == multiset{} && b1 == b0 + multiset{x} && b2 == b1 + multiset{y}
    ensures b2 == multiset{y} + multiset{x}
  {
  }

  /** `newInnerNode` gives a well-formed inner node over the quad that stores nothing. */
  lemma NewInnerEmpty<V>(q: Quad)
    ensures var inner: Node<V> := NewInner(q); Wf(inner) && Bag(inner) == multiset{}
  {
  }

  /** Each finished insertion raises `CountElements` by one. */
  lemma InsertCounts<V>(n: Node<V>, e: Entry<V>, fuel: nat)
    requires Wf(n)
    ensures InsertNode(n, e, fuel).Some? ==> Count(InsertNode(n, e, fuel).value) == Count(n) + 1
  {
    InsertAdds(n, e, fuel);
    if InsertNode(n, e, fuel).Some? {
      BagValues(n);
      BagValues(InsertNode(n, e, fuel).value);
    }
  }

  /** More fuel never changes a finished insertion. */
  lemma {:induction false} InsertFuel<V>(n: Node<V>, e: Entry<V>, fuel: nat, more: nat)
    requires fuel <= more && InsertNode(n, e, fuel).Some?
    ensures InsertNode(n, e, more) == InsertNode(n, e, fuel)
    decreases fuel, n
  {
    match n
    case Empty(_) =>
    case Equal(_, _, _) =>
    case Leaf(q, other) =>
      if !(FloatEquals(other.position.x, e.position.x) && FloatEquals(other.position.y, e.position.y)) {
        InsertFuel(NewInner<V>(q), e, fuel - 1, more - 1);
        InsertFuel(InsertNode(NewInner(q), e, fuel - 1).value, other, fuel - 1, more - 1);
      }
    case Inner(q, ll, rl, ru, lu) =>
      var half := q.size / 2.0;
      if e.position.x < q.origin.x + half {
        if e.position.y < q.origin.y + half { InsertFuel(ll, e, fuel, more); } else { InsertFuel(lu, e, fuel, more); }
      } else {
        if e.position.y < q.origin.y + half { InsertFuel(rl, e, fuel, more); } else { InsertFuel(ru, e, fuel, more); }
      }
  }

  /**
   * The cases of `Insert`: an empty node becomes a leaf over its quad; a
   * leaf with an equal position, and an equal node, get an equal node in
   * front whose `next` is the old node; an inner node replaces exactly
   * the child on the entry's side and keeps the other three.
   */
  lemma InsertShape<V>(n: Node<V>, e: Entry<V>, fuel: nat)
    ensures n.Empty? ==> InsertNode(n, e, fuel) == Some(Leaf(n.quad, e))
    ensures (n.Equal? || (n.Leaf? && FloatEquals(n.entry.position.x, e.position.x)
      && FloatEquals(n.entry.position.y, e.position.y))) ==> InsertNode(n, e, fuel) == Some(Equal(n.quad, e, n))
    ensures n.Inner? && InsertNode(n, e, fuel).Some? ==>
      var r, half := InsertNode(n, e, fuel).value, n.quad.size / 2.0;
      var left, lower := e.position.x < n.quad.origin.x + half, e.position.y < n.quad.origin.y + half;
      && r.Inner? && r.quad == n.quad
      && (if left && lower then InsertNode(n.leftLower, e, fuel) == Some(r.leftLower) else r.leftLower == n.leftLower)
      && (if !left && lower then InsertNode(n.rightLower, e, fuel) == Some(r.rightLower) else r.rightLower == n.rightLower)
      && (if !left && !lower then InsertNode(n.rightUpper, e, fuel) == Some(r.rightUpper) else r.rightUpper == n.rightUpper)
      && (if left && !lower then InsertNode(n.leftUpper, e, fuel) == Some(r.leftUpper) else r.leftUpper == n.leftUpper)
  {
  }

  lemma InnerStaysInner<V>(n: Node<V>, e: Entry<V>, fuel: nat)
    requires n.Inner?
    ensures InsertNode(n, e, fuel).Some? ==> InsertNode(n, e, fuel).value.Inner?
  {
  }

  lemma SplitLeafIsInner<V>(n: Node<V>, e: Entry<V>, fuel: nat)
    requires n.Leaf?
    requires !(FloatEquals(n.entry.position.x, e.position.x) && FloatEquals(n.entry.position.y, e.position.y))
    ensures InsertNode(n, e, fuel).Some? ==> InsertNode(n, e, fuel).value.Inner?
  {
    if InsertNode(n, e, fuel).Some? {
      var inner: Node<V> := NewInner(n.quad);
      var r1 := InsertNode(inner, e, fuel - 1);
      assert r1.Some? && InsertNode(n, e, fuel) == InsertNode(r1.value, n.entry, fuel - 1);
      InnerStaysInner(inner, e, fuel - 1);
      InnerStaysInner(r1.value, n.entry, fuel - 1);
    }
  }

  /** A leaf receiving a position that is not equal to its own becomes an inner node over the same quad holding both values. */
  lemma LeafSplits<V>(n: Node<V>, e: Entry<V>, fuel: nat)
    requires n.Leaf?
    requires !(FloatEquals(n.entry.position.x, e.position.x) && FloatEquals(n.entry.position.y, e.position.y))
    ensures InsertNode(n, e, fuel).Some? ==>
      var r := InsertNode(n, e, fuel).value;
      r.Inner? && r.quad == n.quad && Bag(r) == multiset{e.value, n.entry.value}
  {
    SplitLeafIsInner(n, e, fuel);
    InsertAdds(n, e, fuel);
  }

  /**
   * Example: a leaf at (0.25, 0.25) in the unit square that receives
   * (0.75, 0.75) splits once, and the two entries land in the lower-left
   * and upper-right children.
   */
  lemma LeafSplitsOnce()
    ensures var q := Quad(Vec2(0.0, 0.0), 1.0);
      var a, b := Entry(Vec2(0.25, 0.25), 1), Entry(Vec2(0.75, 0.75), 2);
      InsertNode(Leaf(q, a), b, 1)
        == Some(Inner(q, Leaf(LeftLowerSpace(q), a), Empty(RightLowerSpace(q)), Leaf(RightUpperSpace(q), b), Empty(LeftUpperSpace(q))))
  {
    var q := Quad(Vec2(0.0, 0.0), 1.0);
    var a, b := Entry(Vec2(0.25, 0.25), 1), Entry(Vec2(0.75, 0.75), 2);
    var placed := Inner(q, Empty(LeftLowerSpace(q)), Empty(RightLowerSpace(q)), Leaf(RightUpperSpace(q), b), Empty(LeftUpperSpace(q)));
    assert InsertNode(NewInner<int>(q), b, 0) == Some(placed);
    assert InsertNode(placed, a, 0)
      == Some(Inner(q, Leaf(LeftLowerSpace(q), a), Empty(RightLowerSpace(q)), Leaf(RightUpperSpace(q), b), Empty(LeftUpperSpace(q))));
  }

  /**
   * The same split without fuel does not complete, although the source
   * returns there: `None` also means the fuel was too small.
   */
  lemma LeafSplitNeedsFuel()
    ensures var q := Quad(Vec2(0.0, 0.0), 1.0);
      InsertNode(Leaf(q, Entry(Vec2(0.25, 0.25), 1)), Entry(Vec2(0.75, 0.75), 2), 0) == None
  {
  }

  /**
   * Two entries outside the root quad on the same side never separate:
   * a leaf at (5, 5) in the unit square receiving (6, 6) splits without
   * end, whatever the fuel.
   */
  lemma {:induction false} OutsideDiverges<V>(q: Quad, a: Entry<V>, b: Entry<V>, fuel: nat)
    requires q.size >= 0.0 && q.origin.x + q.size <= 5.0 && q.origin.y + q.size <= 5.0
    requires a.position in {Vec2(5.0, 5.0), Vec2(6.0, 6.0)} && b.position in {Vec2(5.0, 5.0), Vec2(6.0, 6.0)}
    requires a.position != b.position
    ensures InsertNode(Leaf(q, a), b, fuel) == None
    decreases fuel
  {
    if fuel > 0 {
      var ru := RightUpperSpace(q);
      var inner: Node<V> := NewInner(q);
      var n1 := Inner(q, inner.leftLower, inner.rightLower, Leaf(ru, b), inner.leftUpper);
      assert InsertNode(inner, b, fuel - 1) == Some(n1);
      OutsideDiverges(ru, b, a, fuel - 1);
      assert InsertNode(n1, a, fuel - 1) == None;
    }
  }

  /*
   * Range queries
   */

  /** `intervalsOverlap`: the closed intervals `[x1, x2]` and `[y1, y2]` meet. */
  predicate IntervalsOverlap(x1: real, x2: real, y1: real, y2: real) {
    x1 <= y2 && y1 <= x2
  }

  /** `quadsOverlap`. */
  predicate QuadsOverlap(q1: Quad, q2: Quad) {
    && IntervalsOverlap(q1.origin.x, q1.origin.x + q1.size, q2.origin.x, q2.origin.x + q2.size)
    && IntervalsOverlap(q1.origin.y, q1.origin.y + q1.size, q2.origin.y, q2.origin.y + q2.size)
  }

  /** `p` lies in the closed square. */
  predicate InClosed(q: Quad, p: Vec2) {
    q.origin.x <= p.x <= q.origin.x + q.size && q.origin.y <= p.y <= q.origin.y + q.size
  }

  /**
   * `quadsOverlap` is symmetric, and for squares of non-negative side it
   * holds exactly when the closed squares share a point, so squares that
   * only touch at an edge or a corner overlap.
   */
  lemma OverlapMeaning(q1: Quad, q2: Quad)
    ensures QuadsOverlap(q1, q2) <==> QuadsOverlap(q2, q1)
    ensures q1.size >= 0.0 && q2.size >= 0.0 ==>
      (QuadsOverlap(q1, q2) <==> exists p :: InClosed(q1, p) && InClosed(q2, p))
  {
    if q1.size >= 0.0 && q2.size >= 0.0 && QuadsOverlap(q1, q2) {
      var x := if q1.origin.x < q2.origin.x then q2.origin.x else q1.origin.x;
      var y := if q1.origin.y < q2.origin.y then q2.origin.y else q1.origin.y;
      assert InClosed(q1, Vec2(x, y)) && InClosed(q2, Vec2(x, y));
    }
  }

  /** The values `FindValuesInQuad` appends for the query `q`. */
  function Found<V>(n: Node<V>, q: Quad): seq<V> {
    match n
    case Empty(_) => []
    case Leaf(nq, e) => if QuadsOverlap(q, nq) then [e.value] else []
    case Equal(nq, e, next) => if QuadsOverlap(q, nq) then [e.value] + Found(next, q) else []
    case Inner(nq, ll, rl, ru, lu) =>
      if QuadsOverlap(q, nq) then Found(ll, q) + Found(rl, q) + Found(ru, q) + Found(lu, q) else []
  }

  /** A query reports only stored values, each at most as often as it is stored. */
  lemma {:induction false} FoundStored<V>(n: Node<V>, q: Quad)
    ensures multiset(Found(n, q)) <= Bag(n)
    ensures !QuadsOverlap(q, n.quad) ==> Found(n, q) == []
  {
    match n
    case Empty(_) =>
    case Leaf(_, _) =>
    case Equal(_, _, next) => FoundStored(next, q);
    case Inner(nq, ll, rl, ru, lu) =>
      FoundStored(ll, q); FoundStored(rl, q); FoundStored(ru, q); FoundStored(lu, q);
      if QuadsOverlap(q, nq) {
        var a, b, c, d := Found(ll, q), Found(rl, q), Found(ru, q), Found(lu, q);
        assert multiset(Found(n, q)) == multiset(a) + multiset(b) + multiset(c) + multiset(d);
        SumWithin(multiset(a), multiset(b), multiset(c), multiset(d), Bag(ll), Bag(rl), Bag(ru), Bag(lu));
      }
  }

  /** Four parts within four bags are together within their sum. */
  lemma SumWithin<V>(a: multiset<V>, b: multiset<V>, c: multiset<V>, d: multiset<V>,
                     a': multiset<V>, b': multiset<V>, c': multiset<V>, d': multiset<V>)
    requires a <= a' && b <= b' && c <= c' && d <= d'
    ensures a + b + c + d <= a' + b' + c' + d'
  {
  }

  /** The closed square `outer` contains the closed square `q`. */
  predicate Covers(outer: Quad, q: Quad) {
    && outer.origin.x <= q.origin.x && q.origin.x + q.size <= outer.origin.x + outer.size
    && outer.origin.y <= q.origin.y && q.origin.y + q.size <= outer.origin.y + outer.size
  }

  /** A query covering a well-formed node's quad reports every value stored under it. */
  lemma {:induction false} FoundAll<V>(n: Node<V>, q: Quad)
    requires Wf(n) && n.quad.size >= 0.0 && Covers(q, n.quad)
    ensures Found(n, q) == Values(n)
  {
    match n
    case Empty(_) =>
    case Leaf(_, _) =>
    case Equal(_, _, next) => FoundAll(next, q);
    case Inner(nq, ll, rl, ru, lu) =>
      FoundAll(ll, q); FoundAll(rl, q); FoundAll(ru, q); FoundAll(lu, q);
  }

  /** `ValueBuffer`: the values are appended to a growing list. */
  class ValueBuffer<V> {
    var values: seq<V>

    constructor()
      ensures values == []
    {
      values := [];
    }

    method Append(value: V)
      modifies this
      ensures values == old(values) + [value]
    {
      values := values + [value];
    }
  }

  /** `FindValuesInQuad` of every node kind, appending to the buffer. */
  method FindValuesInQuad<V>(n: Node<V>, q: Quad, buffer: ValueBuffer<V>)
    modifies buffer
    ensures buffer.values == old(buffer.values) + Found(n, q)
    decreases n, 1
  {
    match n
    case Empty(_) =>
    case Leaf(nq, e) =>
      if QuadsOverlap(q, nq) {
        buffer.Append(e.value);
      }
    case Equal(nq, _, _) =>
      if QuadsOverlap(q, nq) {
        FindInChain(n, q, buffer);
      }
    case Inner(nq, _, _, _, _) =>
      if QuadsOverlap(q, nq) {
        FindInChildren(n, q, buffer);
      }
  }

  /** The equal node's `FindValuesInQuad`: its own value, then those of the chain below it. */
  method FindInChain<V>(n: Node<V>, q: Quad, buffer: ValueBuffer<V>)
    requires n.Equal? && QuadsOverlap(q, n.quad)
    modifies buffer
    ensures buffer.values == old(buffer.values) + Found(n, q)
    decreases n, 0
  {
    buffer.Append(n.entry.value);
    FindValuesInQuad(n.next, q, buffer);
  }

  /** The four calls of the inner node's `FindValuesInQuad`, in its order. */
  method FindInChildren<V>(n: Node<V>, q: Quad, buffer: ValueBuffer<V>)
    requires n.Inner? && QuadsOverlap(q, n.quad)
    modifies buffer
    ensures buffer.values == old(buffer.values) + Found(n, q)
    decreases n, 0
  {
    ghost var before := buffer.values;
    FindValuesInQuad(n.leftLower, q, buffer);
    FindValuesInQuad(n.rightLower, q, buffer);
    FindValuesInQuad(n.rightUpper, q, buffer);
    FindValuesInQuad(n.leftUpper, q, buffer);
    AppendFour(before, Found(n.leftLower, q), Found(n.rightLower, q), Found(n.rightUpper, q), Found(n.leftUpper, q));
  }

  lemma AppendFour<T>(s: seq<T>, a: seq<T>, b: seq<T>, c: seq<T>, d: seq<T>)
    ensures s + a + b + c + d == s + (a + b + c + d)
  {
  }

  /** `QuadTree`: the root node, replaced by each insertion. */
  class QuadTree<V> {
    var root: Node<V>

    predicate Valid()
      reads this
    {
      Wf(root)
    }

    /** `NewQuadTree`: an empty root over the quad. */
    constructor(quad: Quad)
      ensures Valid() && root == Empty(quad)
    {
      root := Empty(quad);
    }

    /**
     * `Insert`; `false` when the fuel ran out: either the fuel was too small
     * for the leaf splits this insertion needs, or the source would not
     * return at all (`OutsideDiverges`).
     */
    method Insert(position: Vec2, value: V, fuel: nat) returns (done: bool)
      requires Valid()
      modifies this
      ensures Valid()
      ensures var r := InsertNode(old(root), Entry(position, value), fuel);
        && (done <==> r.Some?)
        && root == (if done then r.value else old(root))
      ensures done ==> root.quad == old(root).quad && Count(root) == Count(old(root)) + 1
    {
      var r := InsertNode(root, Entry(position, value), fuel);
      InsertAdds(root, Entry(position, value), fuel);
      InsertCounts(root, Entry(position, value), fuel);
      if r.Some? {
        root := r.value;
      }
      done := r.Some?;
    }

    /** `CountElements`: the number of stored values. */
    function CountElements(): (n: nat)
      reads this
      ensures n == |Values(root)|
    {
      CountValues(root);
      Count(root)
    }

    /** `GetInfo`: the leaf and equal nodes number the stored values. */
    function Info(): (i: QuadTreeInfo)
      reads this
      ensures i.leafNodeCount + i.equalNodeCount == |Values(root)|
      ensures i.emptyNodeCount + i.leafNodeCount == 1 + 3 * i.innerNodeCount
    {
      InfoCounts(root);
      CountValues(root);
      GetInfo(root)
    }

    /** `FindValuesInQuad`. */
    method FindValues(q: Quad, buffer: ValueBuffer<V>)
      modifies buffer
      ensures buffer.values == old(buffer.values) + Found(root, q)
    {
      FindValuesInQuad(root, q, buffer);
    }
  }
}
