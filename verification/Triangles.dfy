/** From corners to triangles.  The GPU assembles each indexed draw on its own and drops what
    is left over at its end; an unbatched renderer assembles each draw call. */
module Triangles {
  import opened Helpers
  import opened Graphics
  import opened DrawLists
  import opened UploadRing
  import opened ImmediateMode
  import opened BatchedMode
  import opened FlushSteps
  import opened Deferral

  datatype Shape = Triangle(a: Event, b: Event, c: Event) | Other(event: Event)

  /** Triangle list assembly of one draw. */
  function Assemble(corners: seq<Event>): (r: seq<Shape>)
    ensures |r| == |corners| / 3
  {
    if |corners| < 3 then [] else [Triangle(corners[0], corners[1], corners[2])] + Assemble(corners[3..])
  }

  function AssembledCommand(c: GpuCommand, s: Store): seq<Shape> {
    if c.Draw? then Assemble(Executed(c, s)) else [Other(c.event)]
  }

  /** What the queue shows, triangle by triangle, on a GPU that runs it now. */
  function Assembled(queue: seq<GpuCommand>, s: Store): seq<Shape> {
    if queue == [] then [] else Assembled(queue[..|queue| - 1], s) + AssembledCommand(queue[|queue| - 1], s)
  }

  /** What the first `j` commands of a list will show. */
  function PendingShapes(l: DrawList, j: nat, s: State): seq<Shape>
    requires j <= |l.commands|
  {
    if j == 0 then [] else PendingShapes(l, j - 1, s) + Assemble(CornersOf(l, j - 1, s))
  }

  /** The corners of command `j`. */
  function CornersOf(l: DrawList, j: nat, s: State): seq<Event>
    requires j < |l.commands|
  {
    CommandCorners(l.vertices, l.indices, VerticesUpTo(l, j), IndicesUpTo(l, j), l.commands[j],
                   Prescribed(s.states, s.camera, s.target, l.commands[j].texture))
  }

  /** Everything drawn so far, pending draws included. */
  function ShapesOf(b: Batch): seq<Shape> { Assembled(b.queue, b.ring.store) +
                                           PendingShapes(b.list, |b.list.commands|, b.state) }

  // ----- what each call shows by itself -----

  /** What one call sends to the GPU by itself. */
  function Emitted(s: State, call: Call): seq<Event> {
    if IsDraw(call) then (if Refused(call) then [] else OwnCorners(VerticesOf(call), IndicesOf(call), LookFor(s)))
    else
      match call
      case ClearRenderTarget(color) => if s.target.color == None then []
          else [ClearedColor(color, s.target.color.value)]
      case ClearDepthBuffer(z) => if s.target.depth == None then [] else [ClearedDepth(z, s.target.depth.value)]
      case DrawModel(id, _, _) => [ForeignPass(id)]
      case DrawPostEffect(id, _, _) => if s.target.color == None then [] else [ForeignPass(id)]
      case _ => []
  }

  lemma StepEmits(s: State, call: Call)
    ensures Step(s, call).events == s.events + Emitted(s, call)
  {
  }

  /** The shapes one call makes by itself: a draw call is assembled on its own. */
  function CallShapes(s: State, call: Call): seq<Shape> {
    var e := Emitted(s, call);
    if IsDraw(call) then Assemble(e) else seq(|e|, k requires 0 <= k < |e| => Other(e[k]))
  }

  /** The shapes an unbatched renderer makes of a run of calls. */
  function Shapes(s: State, calls: seq<Call>): seq<Shape>
    decreases |calls|
  {
    if calls == [] then [] else CallShapes(s, calls[0]) + Shapes(Step(s, calls[0]), calls[1..])
  }

  // ----- assembly -----

  lemma {:induction false} AssembleConcat(a: seq<Event>, b: seq<Event>)
    requires |a| % 3 == 0
    ensures Assemble(a + b) == Assemble(a) + Assemble(b)
  {
    if a == [] {
      assert a + b == b;
    } else {
      var ab := a + b;
      assert ab[0] == a[0] && ab[1] == a[1] && ab[2] == a[2] && ab[3..] == a[3..] + b;
      AssembleConcat(a[3..], b);
      var first := [Triangle(a[0], a[1], a[2])];
      assert Assemble(ab) == first + Assemble(ab[3..]) && Assemble(a) == first + Assemble(a[3..]);
    }
  }

  lemma {:induction false} AssembleAt(a: seq<Event>, k: nat)
    requires 3 * k + 2 < |a|
    ensures Assemble(a)[k] == Triangle(a[3 * k], a[3 * k + 1], a[3 * k + 2])
  {
    if k > 0 {
      AssembleAt(a[3..], k - 1);
    }
  }

  lemma {:induction false} AssembledConcat(a: seq<GpuCommand>, b: seq<GpuCommand>, s: Store)
    ensures Assembled(a + b, s) == Assembled(a, s) + Assembled(b, s)
  {
    hide AssembledCommand;
    if b == [] {
      assert a + b == a;
    } else {
      var n := |b| - 1;
      assert (a + b)[..|a| + n] == a + b[..n];
      AssembledConcat(a, b[..n], s);
    }
  }

  /** Issued draws show the same triangles from memory that has only grown. */
  lemma {:induction false} AssembledGrows(queue: seq<GpuCommand>, s: Store, t: Store)
    requires Grown(s, t) && VersionsExist(queue, s) && AllFetched(ExecutedLater(queue, s))
    ensures Assembled(queue, t) == Assembled(queue, s)
  {
    if queue != [] {
      hide Executed, Assemble;
      var n := |queue| - 1;
      var (a, c) := (ExecutedLater(queue[..n], s), Executed(queue[n], s));
      assert forall k | 0 <= k < |a| :: (a + c)[k] == a[k];
      AssembledGrows(queue[..n], s, t);
      PartFetched(queue, n, s);
      ExecutedGrows(queue[n], s, t);
    }
  }

  // ----- flushing -----

  lemma {:induction false} QueuedShapes(l: DrawList, j: nat, u: Ring, s: State)
    requires WellFormed(l) && j <= |l.commands| && u.store.Valid()
    requires Holds(Last(u.store.vertex), u.vertexOffset, l.vertices) &&
             Holds(Last(u.store.index), u.indexOffset, l.indices)
    ensures Assembled(Queued(l, j, u, s.states, s.camera, s.target), u.store) == PendingShapes(l, j, s)
  {
    hide Assembled, AssembledCommand, Assemble, CornersOf, DrawOf, WellFormed, Holds;
    if j > 0 {
      var n := j - 1;
      QueuedShapes(l, n, u, s);
      OneMoreShapes(l, n, u, s);
      AssembledConcat(Queued(l, n, u, s.states, s.camera, s.target), DrawOf(l, n, u, s.states, s.camera, s.target),
                      u.store);
      assert Queued(l, j, u, s.states, s.camera, s.target) ==
             Queued(l, n, u, s.states, s.camera, s.target) + DrawOf(l, n, u, s.states, s.camera, s.target);
    } else {
      NothingAssembled();
    }
  }

  /** One command's draw shows the triangles of the command. */
  lemma OneMoreShapes(l: DrawList, j: nat, u: Ring, s: State)
    requires WellFormed(l) && j < |l.commands| && u.store.Valid()
    requires Holds(Last(u.store.vertex), u.vertexOffset, l.vertices) &&
             Holds(Last(u.store.index), u.indexOffset, l.indices)
    ensures Assembled(DrawOf(l, j, u, s.states, s.camera, s.target), u.store) == Assemble(CornersOf(l, j, s))
  {
    hide WellFormed, DrawCorners, Holds, CommandCorners, Prescribed, Assemble;
    CommandFetched(l, j, u.store, u.vertexOffset, u.indexOffset, u.vertexOffset + VerticesUpTo(l, j),
                   u.indexOffset + IndicesUpTo(l, j), Prescribed(s.states, s.camera, s.target, l.commands[j].texture));
    var d := DrawOf(l, j, u, s.states, s.camera, s.target);
    if d == [] {
      NothingAssembled();
    } else {
      OneAssembled(d[0], u.store);
      assert d == [d[0]];
    }
  }

  lemma NothingAssembled()
    ensures Assemble([]) == [] && forall s :: Assembled([], s) == []
  {
  }

  lemma OneAssembled(c: GpuCommand, s: Store)
    ensures Assembled([c], s) == AssembledCommand(c, s)
  {
    assert [c][..0] == [] && Assembled([], s) == [];
  }

  lemma FlushShapes(b: Batch)
    requires Safe(b)
    ensures ShapesOf(FlushList(b)) == ShapesOf(b) == Assembled(FlushList(b).queue, FlushList(b).ring.store)
  {
    hide WellFormed, Queued, Corners, Assembled;
    var (s, l) := (b.state, b.list);
    var u := Uploaded(b.ring, l.vertices, l.indices);
    EmptyHalves(l);
    UploadHolds(b.ring, l.vertices, l.indices);
    UploadGrows(b.ring, l.vertices, l.indices);
    AssembledGrows(b.queue, b.ring.store, u.store);
    QueuedShapes(l, |l.commands|, u, s);
    AssembledConcat(b.queue, Queued(l, |l.commands|, u, s.states, s.camera, s.target), u.store);
    FreshShapes(s.texture, FlushList(b).state);
  }

  lemma FreshShapes(t: Option<Texture>, s: State)
    ensures PendingShapes(Fresh(t), 1, s) == []
  {
    var l := Fresh(t);
    assert CornersOf(l, 0, s) == [];
    assert PendingShapes(l, 0, s) == [];
  }

  lemma IssuedShapes(b: Batch, e: Event, t: Option<Texture>)
    requires b.list == Fresh(t)
    ensures ShapesOf(Issued(b, e)) == ShapesOf(b) + [Other(e)]
  {
    hide PendingShapes, Assembled;
    FreshShapes(t, b.state);
    FreshShapes(t, Issued(b, e).state);
    AssembledConcat(b.queue, [Immediate(e)], b.ring.store);
    OneAssembled(Immediate(e), b.ring.store);
  }

  // ----- the list -----

  /** Two lists that differ only behind the first `j` commands. */
  lemma {:induction false} ShapesUnderExtension(l: DrawList, m: DrawList, j: nat, s: State)
    requires j <= |l.commands| && j <= |m.commands| && l.commands[..j] == m.commands[..j]
    requires l.vertices <= m.vertices && l.indices <= m.indices
    requires VerticesUpTo(l, j) <= |l.vertices| && IndicesUpTo(l, j) <= |l.indices|
    ensures PendingShapes(m, j, s) == PendingShapes(l, j, s)
  {
    hide Assemble, CommandCorners, Prescribed;
    if j > 0 {
      var n := j - 1;
      assert l.commands[..j][..n] == l.commands[..n] && m.commands[..j][..n] == m.commands[..n];
      assert l.commands[..j][n] == m.commands[..j][n];
      TotalsSnoc(l.commands, n);
      ShapesUnderExtension(l, m, n, s);
      CommandUnderExtension(l.vertices, m.vertices[|l.vertices|..], l.indices, m.indices[|l.indices|..],
                            VerticesUpTo(l, n),
                            IndicesUpTo(l, n), l.commands[n],
                                Prescribed(s.states, s.camera, s.target, l.commands[n].texture));
      assert l.vertices + m.vertices[|l.vertices|..] == m.vertices && l.indices + m.indices[|l.indices|..] == m.indices;
    }
  }

  lemma OpenShapes(l: DrawList, t: Option<Texture>, s: State)
    requires WellFormed(l) && |l.commands| < COMMAND_CAPACITY
    ensures PendingShapes(Open(l, t), |l.commands| + 1, s) == PendingShapes(l, |l.commands|, s)
  {
    var m := Open(l, t);
    assert m.commands[..|l.commands|] == l.commands[..|l.commands|] == l.commands;
    ShapesUnderExtension(l, m, |l.commands|, s);
    assert CornersOf(m, |l.commands|, s) == [];
  }

  /** A draw call merged into the last command is assembled together with what was there. */
  lemma AppendShapes(l: DrawList, verts: seq<Vertex>, idx: seq<Index>, s: State)
    requires WellFormed(l) && l.commands != []
    requires |l.vertices| + |verts| <= CAPACITY && |l.indices| + |idx| <= CAPACITY
    requires forall k | 0 <= k < |idx| :: idx[k] < |verts|
    ensures var n := |l.commands| - 1;
            var (own, look) := (CornersOf(l, n, s), Prescribed(s.states, s.camera, s.target, l.commands[n].texture));
            && |own| == l.commands[n].indexCount
            && PendingShapes(l, n + 1, s) == PendingShapes(l, n, s) + Assemble(own)
            && PendingShapes(Append(l, verts, idx), n + 1, s) ==
               PendingShapes(l, n, s) + Assemble(own + OwnCorners(verts, idx, look))
  {
    hide Assemble, Prescribed, OwnCorners;
    var n := |l.commands| - 1;
    var m := Append(l, verts, idx);
    LastCommand(l);
    RoomInCommand(l, |verts|, |idx|);
    assert m.commands[..n] == l.commands[..n];
    ShapesUnderExtension(l, m, n, s);
    GrownCommand(l.vertices, l.indices, VerticesUpTo(l, n), IndicesUpTo(l, n), l.commands[n], m.commands[n], verts, idx,
                 Prescribed(s.states, s.camera, s.target, l.commands[n].texture));
    CountOfCommand(l, n, s);
  }

  lemma LastCommand(l: DrawList)
    requires WellFormed(l) && l.commands != []
    ensures var n := |l.commands| - 1;
            && VerticesUpTo(l, n) + l.commands[n].vertexCount == |l.vertices|
            && IndicesUpTo(l, n) + l.commands[n].indexCount == |l.indices|
            && InRange(l.indices, IndicesUpTo(l, n), l.commands[n])
  {
  }

  lemma CountOfCommand(l: DrawList, j: nat, s: State)
    requires j < |l.commands|
    requires VerticesUpTo(l, j) + l.commands[j].vertexCount <= |l.vertices|
    requires IndicesUpTo(l, j) + l.commands[j].indexCount <= |l.indices|
    ensures |CornersOf(l, j, s)| == l.commands[j].indexCount
  {
  }
}
