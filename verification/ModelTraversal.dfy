/** Walking the node forest of a glTF model with an explicit matrix stack, and drawing the
    collected blocks in three passes. */
module ModelTraversal {

  // ----- transforms -----

  /** Row-vector matrices: a point is multiplied from the left, so `Mul(a, b)` is a, then b. */
  datatype Row = Row(x: real, y: real, z: real, w: real)
  datatype Matrix = Matrix(r0: Row, r1: Row, r2: Row, r3: Row)

  function Dot(r: Row, x: real, y: real, z: real, w: real): real { r.x * x + r.y * y + r.z * z + r.w * w }

  function RowMul(r: Row, m: Matrix): Row {
    Row(Dot(r, m.r0.x, m.r1.x, m.r2.x, m.r3.x),
        Dot(r, m.r0.y, m.r1.y, m.r2.y, m.r3.y),
        Dot(r, m.r0.z, m.r1.z, m.r2.z, m.r3.z),
        Dot(r, m.r0.w, m.r1.w, m.r2.w, m.r3.w))
  }

  /** XMMatrixMultiply, without rounding. */
  function Mul(a: Matrix, b: Matrix): Matrix {
    Matrix(RowMul(a.r0, b), RowMul(a.r1, b), RowMul(a.r2, b), RowMul(a.r3, b))
  }

  /** XMMatrixScaling(1, 1, -1): from the right-handed system of glTF to the left-handed one. */
  const FLIP: Matrix :=
    Matrix(Row(1.0, 0.0, 0.0, 0.0), Row(0.0, 1.0, 0.0, 0.0), Row(0.0, 0.0, -1.0, 0.0), Row(0.0, 0.0, 0.0, 1.0))

  function RowAdd(a: Row, b: Row): Row { Row(a.x + b.x, a.y + b.y, a.z + b.z, a.w + b.w) }

  function Scale(k: real, r: Row): Row { Row(k * r.x, k * r.y, k * r.z, k * r.w) }

  lemma ScaledDot(k: real, r: Row, x: real, y: real, z: real, w: real)
    ensures Dot(Scale(k, r), x, y, z, w) == k * Dot(r, x, y, z, w)
  {
  }

  lemma ScaledRow(k: real, r: Row, m: Matrix)
    ensures RowMul(Scale(k, r), m) == Scale(k, RowMul(r, m))
  {
    hide Dot;
    ScaledDot(k, r, m.r0.x, m.r1.x, m.r2.x, m.r3.x);
    ScaledDot(k, r, m.r0.y, m.r1.y, m.r2.y, m.r3.y);
    ScaledDot(k, r, m.r0.z, m.r1.z, m.r2.z, m.r3.z);
    ScaledDot(k, r, m.r0.w, m.r1.w, m.r2.w, m.r3.w);
  }

  lemma AddedRows(a: Row, b: Row, m: Matrix)
    ensures RowMul(RowAdd(a, b), m) == RowAdd(RowMul(a, m), RowMul(b, m))
  {
  }

  lemma RowMulIsCombination(r: Row, m: Matrix)
    ensures RowMul(r, m) == RowAdd(RowAdd(Scale(r.x, m.r0), Scale(r.y, m.r1)),
                                   RowAdd(Scale(r.z, m.r2), Scale(r.w, m.r3)))
  {
  }

  lemma RowMulAssociative(r: Row, a: Matrix, b: Matrix)
    ensures RowMul(RowMul(r, a), b) == RowMul(r, Mul(a, b))
  {
    hide RowMul, Scale, RowAdd;
    RowMulIsCombination(r, a);
    RowMulIsCombination(r, Mul(a, b));
    var (p, q, s, t) := (Scale(r.x, a.r0), Scale(r.y, a.r1), Scale(r.z, a.r2), Scale(r.w, a.r3));
    AddedRows(RowAdd(p, q), RowAdd(s, t), b);
    AddedRows(p, q, b);
    AddedRows(s, t, b);
    ScaledRow(r.x, a.r0, b);
    ScaledRow(r.y, a.r1, b);
    ScaledRow(r.z, a.r2, b);
    ScaledRow(r.w, a.r3, b);
  }

  lemma MulAssociative(a: Matrix, b: Matrix, c: Matrix)
    ensures Mul(Mul(a, b), c) == Mul(a, Mul(b, c))
  {
    hide RowMul;
    RowMulAssociative(a.r0, b, c);
    RowMulAssociative(a.r1, b, c);
    RowMulAssociative(a.r2, b, c);
    RowMulAssociative(a.r3, b, c);
  }

  // ----- the forest -----

  datatype AlphaMode = Opaque | Mask | Blend

  /** `loads` says that the buffers of the primitive can be read. */
  datatype Primitive = Primitive(id: nat, alphaMode: AlphaMode, loads: bool)

  datatype Node = Node(local: Matrix, primitives: seq<Primitive>, children: seq<nat>)

  /** A model whose children have smaller ranks than their parents: no node is below itself. */
  ghost predicate Acyclic(nodes: seq<Node>, rank: seq<nat>) {
    |rank| == |nodes| && forall i | 0 <= i < |nodes| :: Below(rank, i, nodes[i].children)
  }

  ghost predicate Below(rank: seq<nat>, i: nat, children: seq<nat>)
    requires i < |rank|
  {
    forall k | 0 <= k < |children| :: children[k] < |rank| && rank[children[k]] < rank[i]
  }

  ghost predicate Roots(nodes: seq<Node>, roots: seq<nat>) {
    forall k | 0 <= k < |roots| :: roots[k] < |nodes|
  }

  datatype Block = Block(matrix: Matrix, id: nat, alphaMask: bool, alphaBlend: bool)

  function BlockOf(matrix: Matrix, p: Primitive): Block {
    Block(matrix, p.id, p.alphaMode == Mask, p.alphaMode == Blend)
  }

  function BlocksOf(matrix: Matrix, ps: seq<Primitive>): seq<Block> {
    seq(|ps|, k requires 0 <= k < |ps| => BlockOf(matrix, ps[k]))
  }

  /** The primitives at and below node `i`, in preorder, each under the world transform of its
      node, which is its own transform and then its parent's world transform. */
  ghost function Preorder(nodes: seq<Node>, rank: seq<nat>, i: nat, parent: Matrix): seq<Block>
    requires Acyclic(nodes, rank) && i < |nodes|
    decreases rank[i], 1, 0
  {
    var world := Mul(nodes[i].local, parent);
    BlocksOf(world, nodes[i].primitives) + PreorderAll(nodes, rank, i, nodes[i].children, world)
  }

  /** The same for some of the children of node `i`. */
  ghost function PreorderAll(nodes: seq<Node>, rank: seq<nat>, i: nat, children: seq<nat>, parent: Matrix): seq<Block>
    requires Acyclic(nodes, rank) && i < |nodes| && Below(rank, i, children)
    decreases rank[i], 0, |children|
  {
    if children == [] then []
    else
      var n := |children| - 1;
      PreorderAll(nodes, rank, i, children[..n], parent) + Preorder(nodes, rank, children[n], parent)
  }

  ghost predicate AllLoad(nodes: seq<Node>, rank: seq<nat>, i: nat)
    requires Acyclic(nodes, rank) && i < |nodes|
    decreases rank[i]
  {
    && (forall k | 0 <= k < |nodes[i].primitives| :: nodes[i].primitives[k].loads)
    && (forall k | 0 <= k < |nodes[i].children| :: AllLoad(nodes, rank, nodes[i].children[k]))
  }

  // ----- the matrix stack -----

  /** The world transform of the node on top of the stack. */
  function World(stack: seq<Matrix>): Matrix {
    if stack == [] then FLIP else Mul(stack[|stack| - 1], World(stack[..|stack| - 1]))
  }

  /** Multiplying down the stack one after the other, the flip last, is the same as the world
      transform of the parent applied once. */
  lemma {:induction false} StackProduct(m: Matrix, stack: seq<Matrix>, k: nat)
    requires k <= |stack|
    ensures Mul(Down(m, stack[..k]), FLIP) == Mul(m, World(stack[..k]))
    decreases k
  {
    if k > 0 {
      var top := stack[k - 1];
      assert stack[..k][..k - 1] == stack[..k - 1];
      StackProduct(Mul(m, top), stack, k - 1);
      MulAssociative(m, top, World(stack[..k - 1]));
    }
  }

  function Down(m: Matrix, stack: seq<Matrix>): Matrix
    decreases |stack|
  {
    if stack == [] then m else Down(Mul(m, stack[|stack| - 1]), stack[..|stack| - 1])
  }

  class Model {
    var stack: seq<Matrix>
    var blocks: seq<Block>

    constructor ()
      ensures stack == [] && blocks == []
    {
      stack, blocks := [], [];
    }

    /** The matrix of a node: its own, then every one on the stack from the top, then the flip. */
    method WorldMatrix(local: Matrix) returns (m: Matrix)
      ensures m == Mul(local, World(stack))
    {
      hide Mul;
      m := local;
      var j := |stack|;
      assert stack[..j] == stack;
      while j > 0
        invariant 0 <= j <= |stack|
        invariant Down(m, stack[..j]) == Down(local, stack)
      {
        assert stack[..j][..j - 1] == stack[..j - 1];
        m := Mul(m, stack[j - 1]);
        j := j - 1;
      }
      m := Mul(m, FLIP);
      assert stack[..|stack|] == stack;
      StackProduct(local, stack, |stack|);
    }

    /** The primitives of one node, up to the first that cannot be loaded. */
    method EmitPrimitives(local: Matrix, primitives: seq<Primitive>) returns (ok: bool)
      modifies this`blocks
      ensures ok == forall k | 0 <= k < |primitives| :: primitives[k].loads
      ensures old(blocks) <= blocks <= old(blocks) + BlocksOf(Mul(local, World(stack)), primitives)
      ensures ok ==> blocks == old(blocks) + BlocksOf(Mul(local, World(stack)), primitives)
    {
      hide Mul;
      ghost var all := BlocksOf(Mul(local, World(stack)), primitives);
      var k := 0;
      while k < |primitives|
        invariant k <= |primitives|
        invariant blocks == old(blocks) + all[..k]
        invariant forall m | 0 <= m < k :: primitives[m].loads
      {
        var m := WorldMatrix(local);
        if !primitives[k].loads {
          return false;
        }
        blocks := blocks + [BlockOf(m, primitives[k])];
        k := k + 1;
      }
      assert primitives[..k] == primitives;
      return true;
    }

    /** processNode: on success the blocks of the whole subtree have been added in preorder and
        the stack is as it was; on failure only a beginning of them has, and the nodes on the
        way to the failure are still on the stack. */
    method ProcessNode(nodes: seq<Node>, i: nat, ghost rank: seq<nat>) returns (ok: bool)
      requires Acyclic(nodes, rank) && i < |nodes|
      modifies this
      ensures ok == AllLoad(nodes, rank, i)
      ensures ok ==> stack == old(stack) && blocks == old(blocks) + Preorder(nodes, rank, i, World(old(stack)))
      ensures !ok ==>
                old(stack) <= stack &&
                old(blocks) <= blocks <= old(blocks) + Preorder(nodes, rank, i, World(old(stack)))
      decreases rank[i], 1
    {
      hide Mul, Preorder, PreorderAll;
      var node := nodes[i];
      ghost var world := Mul(node.local, World(stack));
      ghost var own := BlocksOf(world, node.primitives);
      ghost var (s0, b0) := (stack, blocks);
      ghost var below := PreorderAll(nodes, rank, i, node.children, world);
      assert Preorder(nodes, rank, i, World(s0)) == own + below by {
        PreorderSplits(nodes, rank, i, World(s0));
      }
      Concatenated(b0, own, below);
      var fine := EmitPrimitives(node.local, node.primitives);
      if !fine {
        PrefixesChain(b0, [], own, own + below, blocks);
        return false;
      }
      stack := stack + [node.local];
      assert stack[..|stack| - 1] == s0;
      assert World(stack) == world;
      ok := ProcessChildren(nodes, i, rank);
      if ok {
        stack := stack[..|stack| - 1];
      } else {
        PrefixesChain(b0, own, below, own + below, blocks);
      }
    }

    method ProcessChildren(nodes: seq<Node>, i: nat, ghost rank: seq<nat>) returns (ok: bool)
      requires Acyclic(nodes, rank) && i < |nodes|
      modifies this
      ensures ok == forall k | 0 <= k < |nodes[i].children| :: AllLoad(nodes, rank, nodes[i].children[k])
      ensures var below := PreorderAll(nodes, rank, i, nodes[i].children, World(old(stack)));
              && (ok ==> stack == old(stack) && blocks == old(blocks) + below)
              && (!ok ==> old(stack) <= stack && old(blocks) <= blocks <= old(blocks) + below)
      decreases rank[i], 0
    {
      hide Mul, Preorder, PreorderAll, World, AllLoad;
      var children := nodes[i].children;
      ghost var (s0, b0, world) := (stack, blocks, World(stack));
      PreorderAllNone(nodes, rank, i, world);
      var k := 0;
      while k < |children|
        invariant k <= |children|
        invariant stack == s0
        invariant blocks == b0 + PreorderAll(nodes, rank, i, children[..k], world)
        invariant forall m | 0 <= m < k :: AllLoad(nodes, rank, children[m])
      {
        var c := children[k];
        PreorderAllSnoc(nodes, rank, i, children, k, world);
        ghost var (done, next) := (PreorderAll(nodes, rank, i, children[..k], world), Preorder(nodes, rank, c, world));
        ChildPrefix(nodes, rank, i, children, k, world);
        Concatenated(b0, done, next);
        var good := ProcessNode(nodes, c, rank);
        if !good {
          PrefixesChain(b0, done, next, PreorderAll(nodes, rank, i, children, world), blocks);
          return false;
        }
        k := k + 1;
      }
      assert children[..k] == children;
      return true;
    }

    /** createModelBlock: the roots of the scene one after the other. */
    method CreateModelBlock(nodes: seq<Node>, roots: seq<nat>, ghost rank: seq<nat>) returns (ok: bool)
      requires Acyclic(nodes, rank) && Roots(nodes, roots)
      modifies this
      ensures ok == forall k | 0 <= k < |roots| :: AllLoad(nodes, rank, roots[k])
      ensures ok ==> stack == old(stack) && blocks == old(blocks) + Forest(nodes, rank, roots, World(old(stack)))
    {
      hide Mul, World, AllLoad, Preorder;
      ghost var (s0, b0) := (stack, blocks);
      var k := 0;
      while k < |roots|
        invariant k <= |roots|
        invariant stack == s0 && blocks == b0 + Forest(nodes, rank, roots[..k], World(s0))
        invariant forall m | 0 <= m < k :: AllLoad(nodes, rank, roots[m])
      {
        var r := roots[k];
        assert roots[..k + 1][..k] == roots[..k];
        var good := ProcessNode(nodes, r, rank);
        if !good {
          return false;
        }
        k := k + 1;
      }
      assert roots[..k] == roots;
      return true;
    }

    /** The three passes of draw: each looks at every block. */
    method Draw() returns (drawn: seq<Block>)
      ensures drawn == InPasses(blocks)
    {
      drawn := [];
      var k := 0;
      while k < |blocks|
        invariant k <= |blocks|
        invariant drawn == Select(blocks[..k], IsOpaque)
      {
        assert blocks[..k + 1][..k] == blocks[..k];
        if !blocks[k].alphaMask && !blocks[k].alphaBlend {
          drawn := drawn + [blocks[k]];
        }
        k := k + 1;
      }
      assert blocks[..k] == blocks;
      ghost var opaques := drawn;
      k := 0;
      while k < |blocks|
        invariant k <= |blocks|
        invariant drawn == opaques + Select(blocks[..k], IsMasked)
      {
        assert blocks[..k + 1][..k] == blocks[..k];
        if blocks[k].alphaMask {
          drawn := drawn + [blocks[k]];
        }
        k := k + 1;
      }
      assert blocks[..k] == blocks;
      ghost var masked := drawn;
      k := 0;
      while k < |blocks|
        invariant k <= |blocks|
        invariant drawn == masked + Select(blocks[..k], IsBlended)
      {
        assert blocks[..k + 1][..k] == blocks[..k];
        if blocks[k].alphaBlend {
          drawn := drawn + [blocks[k]];
        }
        k := k + 1;
      }
      assert blocks[..k] == blocks;
    }
  }

  ghost function Forest(nodes: seq<Node>, rank: seq<nat>, roots: seq<nat>, parent: Matrix): seq<Block>
    requires Acyclic(nodes, rank) && Roots(nodes, roots)
  {
    if roots == [] then []
    else
      var n := |roots| - 1;
      Forest(nodes, rank, roots[..n], parent) + Preorder(nodes, rank, roots[n], parent)
  }

  lemma Concatenated<T>(a: seq<T>, b: seq<T>, c: seq<T>)
    ensures a + b + c == a + (b + c) && a + b <= a + (b + c) && a <= a + b
  {
  }

  lemma PrefixesChain<T>(a: seq<T>, b: seq<T>, c: seq<T>, all: seq<T>, d: seq<T>)
    requires b + c <= all && a + b <= d <= a + b + c
    ensures a <= d <= a + all
  {
    assert d == a + d[|a|..];
    assert d[|a|..] <= b + c by {
      assert (a + b + c)[|a|..] == b + c;
    }
  }

  lemma PreorderAllNone(nodes: seq<Node>, rank: seq<nat>, i: nat, parent: Matrix)
    requires Acyclic(nodes, rank) && i < |nodes|
    ensures PreorderAll(nodes, rank, i, [], parent) == []
  {
  }

  lemma PreorderAllSnoc(nodes: seq<Node>, rank: seq<nat>, i: nat, children: seq<nat>, k: nat, parent: Matrix)
    requires Acyclic(nodes, rank) && i < |nodes| && k < |children| && Below(rank, i, children)
    ensures PreorderAll(nodes, rank, i, children[..k + 1], parent) ==
            PreorderAll(nodes, rank, i, children[..k], parent) + Preorder(nodes, rank, children[k], parent)
  {
    assert children[..k + 1][..k] == children[..k];
  }

  lemma PreorderSplits(nodes: seq<Node>, rank: seq<nat>, i: nat, parent: Matrix)
    requires Acyclic(nodes, rank) && i < |nodes|
    ensures Preorder(nodes, rank, i, parent) ==
            BlocksOf(Mul(nodes[i].local, parent), nodes[i].primitives) +
            PreorderAll(nodes, rank, i, nodes[i].children, Mul(nodes[i].local, parent))
  {
  }

  lemma {:induction false} ChildPrefix(nodes: seq<Node>, rank: seq<nat>, i: nat, children: seq<nat>, k: nat,
                                       parent: Matrix)
    requires Acyclic(nodes, rank) && i < |nodes| && k < |children| && Below(rank, i, children)
    ensures PreorderAll(nodes, rank, i, children[..k], parent) + Preorder(nodes, rank, children[k], parent) <=
            PreorderAll(nodes, rank, i, children, parent)
    decreases |children|
  {
    var n := |children| - 1;
    if k < n {
      ChildPrefix(nodes, rank, i, children[..n], k, parent);
      assert children[..n][..k] == children[..k];
    }
  }

  // ----- the passes -----

  predicate IsOpaque(b: Block) { !b.alphaMask && !b.alphaBlend }
  predicate IsMasked(b: Block) { b.alphaMask }
  predicate IsBlended(b: Block) { b.alphaBlend }

  function Select(blocks: seq<Block>, p: Block -> bool): seq<Block> {
    if blocks == [] then []
    else
      var n := |blocks| - 1;
      Select(blocks[..n], p) + (if p(blocks[n]) then [blocks[n]] else [])
  }

  ghost predicate OneMode(blocks: seq<Block>) {
    forall b | b in blocks :: !(b.alphaMask && b.alphaBlend)
  }

  /** The three passes draw every block exactly once, exactly when no block is both masked and
      blended. */
  lemma {:induction false} PassesCoverIff(blocks: seq<Block>)
    ensures |InPasses(blocks)| >= |blocks|
    ensures multiset(InPasses(blocks)) == multiset(blocks) <==> OneMode(blocks)
  {
    PassesCount(blocks);
    if OneMode(blocks) {
      PassesCover(blocks);
    } else {
      assert |multiset(InPasses(blocks))| == |InPasses(blocks)| && |multiset(blocks)| == |blocks|;
    }
  }

  function InPasses(blocks: seq<Block>): seq<Block> {
    Select(blocks, IsOpaque) + Select(blocks, IsMasked) + Select(blocks, IsBlended)
  }

  lemma {:induction false} PassesCount(blocks: seq<Block>)
    ensures |InPasses(blocks)| >= |blocks|
    ensures |InPasses(blocks)| == |blocks| <==> OneMode(blocks)
  {
    if blocks != [] {
      var n := |blocks| - 1;
      PassesCount(blocks[..n]);
      assert blocks == blocks[..n] + [blocks[n]];
    }
  }

  /** Selecting keeps every block it selects as often as it occurs. */
  lemma {:induction false} SelectCounts(blocks: seq<Block>, p: Block -> bool, b: Block)
    ensures multiset(Select(blocks, p))[b] == if p(b) then multiset(blocks)[b] else 0
  {
    if blocks != [] {
      var n := |blocks| - 1;
      SelectCounts(blocks[..n], p, b);
      assert blocks == blocks[..n] + [blocks[n]];
    }
  }

  lemma PassesCover(blocks: seq<Block>)
    requires OneMode(blocks)
    ensures multiset(InPasses(blocks)) == multiset(blocks)
  {
    hide Select;
    forall b: Block
      ensures multiset(InPasses(blocks))[b] == multiset(blocks)[b]
    {
      SelectCounts(blocks, IsOpaque, b);
      SelectCounts(blocks, IsMasked, b);
      SelectCounts(blocks, IsBlended, b);
      assert b in multiset(blocks) ==> b in blocks;
    }
  }

  /** The blocks made from a forest never are. */
  lemma {:induction false} PreorderOneMode(nodes: seq<Node>, rank: seq<nat>, i: nat, parent: Matrix)
    requires Acyclic(nodes, rank) && i < |nodes|
    ensures OneMode(Preorder(nodes, rank, i, parent))
    decreases rank[i], 1, 0
  {
    PreorderAllOneMode(nodes, rank, i, nodes[i].children, Mul(nodes[i].local, parent));
  }

  lemma {:induction false} PreorderAllOneMode(nodes: seq<Node>, rank: seq<nat>, i: nat, children: seq<nat>,
                                              parent: Matrix)
    requires Acyclic(nodes, rank) && i < |nodes| && Below(rank, i, children)
    ensures OneMode(PreorderAll(nodes, rank, i, children, parent))
    decreases rank[i], 0, |children|
  {
    if children != [] {
      var n := |children| - 1;
      PreorderAllOneMode(nodes, rank, i, children[..n], parent);
      PreorderOneMode(nodes, rank, children[n], parent);
    }
  }

  /** So a whole model is drawn with every primitive of its scene exactly once. */
  lemma {:induction false} SceneDrawnOnce(nodes: seq<Node>, rank: seq<nat>, roots: seq<nat>, parent: Matrix)
    requires Acyclic(nodes, rank) && Roots(nodes, roots)
    ensures OneMode(Forest(nodes, rank, roots, parent))
    ensures multiset(InPasses(Forest(nodes, rank, roots, parent))) == multiset(Forest(nodes, rank, roots, parent))
    decreases |roots|
  {
    if roots != [] {
      var n := |roots| - 1;
      SceneDrawnOnce(nodes, rank, roots[..n], parent);
      PreorderOneMode(nodes, rank, roots[n], parent);
    }
    PassesCoverIff(Forest(nodes, rank, roots, parent));
  }

  // ----- what is drawn, in terms of the primitives -----

  /** A primitive where it stands in the scene, and where a drawn block is. */
  datatype Instance = Instance(world: Matrix, primitive: Primitive)
  datatype Place = Place(matrix: Matrix, id: nat)

  function Here(world: Matrix, ps: seq<Primitive>): seq<Instance> {
    seq(|ps|, k requires 0 <= k < |ps| => Instance(world, ps[k]))
  }

  /** The instances at and below node `i`, each node before its children. */
  ghost function Instances(nodes: seq<Node>, rank: seq<nat>, i: nat, parent: Matrix): seq<Instance>
    requires Acyclic(nodes, rank) && i < |nodes|
    decreases rank[i], 1, 0
  {
    var world := Mul(nodes[i].local, parent);
    Here(world, nodes[i].primitives) + InstancesBelow(nodes, rank, i, nodes[i].children, world)
  }

  ghost function InstancesBelow(nodes: seq<Node>, rank: seq<nat>, i: nat, children: seq<nat>,
                                parent: Matrix): seq<Instance>
    requires Acyclic(nodes, rank) && i < |nodes| && Below(rank, i, children)
    decreases rank[i], 0, |children|
  {
    if children == [] then []
    else
      var n := |children| - 1;
      InstancesBelow(nodes, rank, i, children[..n], parent) + Instances(nodes, rank, children[n], parent)
  }

  ghost function SceneInstances(nodes: seq<Node>, rank: seq<nat>, roots: seq<nat>, parent: Matrix): seq<Instance>
    requires Acyclic(nodes, rank) && Roots(nodes, roots)
  {
    if roots == [] then []
    else
      var n := |roots| - 1;
      SceneInstances(nodes, rank, roots[..n], parent) + Instances(nodes, rank, roots[n], parent)
  }

  /** The places of the instances of one mode, in their order. */
  function PlacesOf(s: seq<Instance>, mode: AlphaMode): seq<Place> {
    if s == [] then []
    else
      var n := |s| - 1;
      PlacesOf(s[..n], mode) +
      if s[n].primitive.alphaMode == mode then [Place(s[n].world, s[n].primitive.id)] else []
  }

  function DrawnPlaces(blocks: seq<Block>): seq<Place> {
    seq(|blocks|, k requires 0 <= k < |blocks| => Place(blocks[k].matrix, blocks[k].id))
  }

  /** The blocks are those of the instances, one by one. */
  function BlocksAt(s: seq<Instance>): seq<Block> {
    seq(|s|, k requires 0 <= k < |s| => BlockOf(s[k].world, s[k].primitive))
  }

  lemma BlocksConcat(a: seq<Instance>, b: seq<Instance>)
    ensures BlocksAt(a + b) == BlocksAt(a) + BlocksAt(b)
  {
  }

  lemma {:induction false} PreorderInstances(nodes: seq<Node>, rank: seq<nat>, i: nat, parent: Matrix)
    requires Acyclic(nodes, rank) && i < |nodes|
    ensures Preorder(nodes, rank, i, parent) == BlocksAt(Instances(nodes, rank, i, parent))
    decreases rank[i], 1, 0
  {
    hide Mul;
    var world := Mul(nodes[i].local, parent);
    BelowInstances(nodes, rank, i, nodes[i].children, world);
    BlocksConcat(Here(world, nodes[i].primitives), InstancesBelow(nodes, rank, i, nodes[i].children, world));
    assert BlocksAt(Here(world, nodes[i].primitives)) == BlocksOf(world, nodes[i].primitives);
  }

  lemma {:induction false} BelowInstances(nodes: seq<Node>, rank: seq<nat>, i: nat, children: seq<nat>, parent: Matrix)
    requires Acyclic(nodes, rank) && i < |nodes| && Below(rank, i, children)
    ensures PreorderAll(nodes, rank, i, children, parent) == BlocksAt(InstancesBelow(nodes, rank, i, children, parent))
    decreases rank[i], 0, |children|
  {
    hide Mul, Preorder, Instances;
    if children != [] {
      var n := |children| - 1;
      BelowInstances(nodes, rank, i, children[..n], parent);
      PreorderInstances(nodes, rank, children[n], parent);
      BlocksConcat(InstancesBelow(nodes, rank, i, children[..n], parent), Instances(nodes, rank, children[n], parent));
    }
  }

  lemma {:induction false} ForestInstances(nodes: seq<Node>, rank: seq<nat>, roots: seq<nat>, parent: Matrix)
    requires Acyclic(nodes, rank) && Roots(nodes, roots)
    ensures Forest(nodes, rank, roots, parent) == BlocksAt(SceneInstances(nodes, rank, roots, parent))
    decreases |roots|
  {
    hide Mul, Preorder, Instances;
    if roots != [] {
      var n := |roots| - 1;
      ForestInstances(nodes, rank, roots[..n], parent);
      PreorderInstances(nodes, rank, roots[n], parent);
      BlocksConcat(SceneInstances(nodes, rank, roots[..n], parent), Instances(nodes, rank, roots[n], parent));
    }
  }

  lemma {:induction false} PassPlaces(s: seq<Instance>)
    ensures DrawnPlaces(Select(BlocksAt(s), IsOpaque)) == PlacesOf(s, Opaque)
    ensures DrawnPlaces(Select(BlocksAt(s), IsMasked)) == PlacesOf(s, Mask)
    ensures DrawnPlaces(Select(BlocksAt(s), IsBlended)) == PlacesOf(s, Blend)
  {
    if s != [] {
      var n := |s| - 1;
      PassPlaces(s[..n]);
      assert BlocksAt(s)[..n] == BlocksAt(s[..n]);
    }
  }

  /** A loaded scene is drawn in three runs: its opaque primitives, then its masked ones, then its
      blended ones, each run in preorder and every primitive under its world transform. */
  lemma SceneOrder(nodes: seq<Node>, rank: seq<nat>, roots: seq<nat>)
    requires Acyclic(nodes, rank) && Roots(nodes, roots)
    ensures var s := SceneInstances(nodes, rank, roots, World([]));
            DrawnPlaces(InPasses(Forest(nodes, rank, roots, World([])))) ==
            PlacesOf(s, Opaque) + PlacesOf(s, Mask) + PlacesOf(s, Blend)
  {
    hide Select, PlacesOf, World;
    ForestInstances(nodes, rank, roots, World([]));
    PassPlaces(SceneInstances(nodes, rank, roots, World([])));
  }

  // ----- where a point goes -----

  const IDENTITY: Matrix :=
    Matrix(Row(1.0, 0.0, 0.0, 0.0), Row(0.0, 1.0, 0.0, 0.0), Row(0.0, 0.0, 1.0, 0.0), Row(0.0, 0.0, 0.0, 1.0))

  /** A point through a node's transform, then its parent's, up to the root, then mirrored. */
  function Through(p: Row, stack: seq<Matrix>): Row
    decreases |stack|
  {
    if stack == [] then Row(p.x, p.y, -p.z, p.w) else Through(RowMul(p, stack[|stack| - 1]), stack[..|stack| - 1])
  }

  /** The matrix of a node takes a point through all of them. */
  lemma {:induction false} PointThroughStack(p: Row, local: Matrix, stack: seq<Matrix>)
    ensures RowMul(p, Mul(local, World(stack))) == Through(RowMul(p, local), stack)
    decreases |stack|
  {
    RowMulAssociative(p, local, World(stack));
    if stack != [] {
      hide RowMul, Mul;
      var n := |stack| - 1;
      RowMulAssociative(RowMul(p, local), stack[n], World(stack[..n]));
      PointThroughStack(RowMul(p, local), stack[n], stack[..n]);
    }
  }

  /** A transform is the combination of its rows: the last one is where the origin goes. */
  lemma PointByRows(x: real, y: real, z: real, m: Matrix)
    ensures RowMul(Row(x, y, z, 1.0), m) ==
            Row(x * m.r0.x + y * m.r1.x + z * m.r2.x + m.r3.x, x * m.r0.y + y * m.r1.y + z * m.r2.y + m.r3.y,
                x * m.r0.z + y * m.r1.z + z * m.r2.z + m.r3.z, x * m.r0.w + y * m.r1.w + z * m.r2.w + m.r3.w)
  {
  }

  lemma PointStays(x: real, y: real, z: real)
    ensures RowMul(Row(x, y, z, 1.0), IDENTITY) == Row(x, y, z, 1.0)
  {
    PointByRows(x, y, z, IDENTITY);
    hide RowMul;
  }

  /** At the root, the z axis is mirrored. */
  lemma PointMirrored(x: real, y: real, z: real)
    ensures RowMul(Row(x, y, z, 1.0), Mul(IDENTITY, World([]))) == Row(x, y, -z, 1.0)
  {
    hide RowMul, Mul, World, IDENTITY;
    PointThroughStack(Row(x, y, z, 1.0), IDENTITY, []);
    PointStays(x, y, z);
  }
}
