/** The batching renderer as a value: the state an unbatched renderer has, the pending draw list,
    the ring of GPU memory, and every command issued.  The class is proved to do to its value
    exactly what these functions say; what holds of whole runs is proved about them. */
module BatchedMode {
  import opened Helpers
  import opened Graphics
  import opened DrawLists
  import opened UploadRing
  import opened ImmediateMode

  /** In `state`, the events are those already given to the GPU. */
  datatype Batch = Batch(state: State, list: DrawList, ring: Ring, queue: seq<GpuCommand>)

  ghost predicate Ready(b: Batch) { WellFormed(b.list) && b.ring.Valid() }

  /** Inside a batch there is a command to draw with. */
  ghost predicate InBatch(b: Batch) { Ready(b) && b.list.commands != [] }

  /** What an unbatched renderer would have in hand: everything drawn, pending draws included. */
  function Abs(b: Batch): State {
    b.state.(events := b.state.events + Pending(b.list, b.state.states, b.state.camera, b.state.target))
  }

  /** A list with nothing but an empty command. */
  function Fresh(texture: Option<Texture>): DrawList { DrawList([], [], [DrawCommand(texture, 0, 0)]) }

  // ----- flushing -----

  /** The draw of command `j` of an uploaded list, unless it is skipped. */
  function DrawOf(l: DrawList, j: nat, u: Ring, states: RendererStateSet, camera: CameraStateSet,
                  target: Target): seq<GpuCommand>
    requires j < |l.commands| && u.store.Valid()
  {
    var cmd := l.commands[j];
    if cmd.vertexCount > 0 && cmd.indexCount > 0
    then [GpuCommand.Draw(cmd.indexCount, u.indexOffset + IndicesUpTo(l, j), u.vertexOffset + VerticesUpTo(l, j),
                          |u.store.vertex| - 1, |u.store.index| - 1, Prescribed(states, camera, target, cmd.texture))]
    else []
  }

  /** The draws of the first `j` commands. */
  function Queued(l: DrawList, j: nat, u: Ring, states: RendererStateSet, camera: CameraStateSet,
                  target: Target): seq<GpuCommand>
    requires j <= |l.commands| && u.store.Valid()
  {
    if j == 0 then [] else Queued(l, j - 1, u, states, camera, target) + DrawOf(l, j - 1, u, states, camera, target)
  }

  ghost function FlushList(b: Batch): (r: Batch)
    requires Ready(b)
    ensures InBatch(r) && r.list == Fresh(b.state.texture)
    ensures r.state == b.state.(events := r.state.events) && r.state == Abs(b)
  {
    var (s, l) := (b.state, b.list);
    UploadHolds(b.ring, l.vertices, l.indices);
    OnlyOpen(s.texture, s.states, s.camera, s.target);
    var u := Uploaded(b.ring, l.vertices, l.indices);
    Batch(s.(events := s.events + Pending(l, s.states, s.camera, s.target)), Fresh(s.texture),
          Flushed(b.ring, l.vertices, l.indices), b.queue + Queued(l, |l.commands|, u, s.states, s.camera, s.target))
  }

  /** A command that is not a batched draw. */
  function Issued(b: Batch, e: Event): Batch {
    b.(state := b.state.(events := b.state.events + [e]), queue := b.queue + [Immediate(e)])
  }

  // ----- calls -----

  ghost function NewCommand(b: Batch, t: Option<Texture>): (r: Batch)
    requires Ready(b)
    ensures InBatch(r)
  {
    var f := if |b.list.commands| == COMMAND_CAPACITY then FlushList(b) else b;
    OpenMeansNothing(f.list, t, f.state.states, f.state.camera, f.state.target);
    f.(list := Open(f.list, t))
  }

  ghost function TextureSet(b: Batch, t: Option<Texture>): (r: Batch)
    requires Ready(b)
    ensures InBatch(r)
  {
    var n := |b.list.commands|;
    var c := if n > 0 && IsSame(b.list.commands[n - 1].texture, t) then b else NewCommand(b, t);
    c.(state := c.state.(texture := Kept(c.state.texture, t)))
  }

  /** A state setter: nothing happens unless the state changes or everything is bound again. */
  ghost function Set(b: Batch, states: RendererStateSet, camera: CameraStateSet, dirty: bool): (r: Batch)
    requires Ready(b)
    ensures Ready(r) && (InBatch(b) ==> InBatch(r))
  {
    if dirty || b.state.states != states || b.state.camera != camera
    then var f := FlushList(b); f.(state := f.state.(states := states, camera := camera))
    else b
  }

  /** Room for a draw call. */
  ghost function Room(b: Batch, nvert: nat, nidx: nat): (r: Batch)
    requires InBatch(b)
    ensures InBatch(r)
    ensures nvert <= CAPACITY && nidx <= CAPACITY ==>
            |r.list.vertices| + nvert <= CAPACITY && |r.list.indices| + nidx <= CAPACITY
  {
    if CAPACITY - |b.list.vertices| < nvert || CAPACITY - |b.list.indices| < nidx then FlushList(b) else b
  }

  ghost function Drawn(b: Batch, verts: seq<Vertex>, idx: seq<Index>): (r: Batch)
    requires InBatch(b) && |verts| <= CAPACITY && |idx| <= CAPACITY && forall k | 0 <= k < |idx| :: idx[k] < |verts|
    ensures InBatch(r)
  {
    var c := Room(b, |verts|, |idx|);
    AppendWellFormed(c.list, verts, idx);
    c.(list := Append(c.list, verts, idx))
  }

  ghost function Ended(b: Batch): (r: Batch)
    requires Ready(b)
    ensures InBatch(r)
  {
    var f := FlushList(b);
    f.(state := f.state.(texture := None))
  }

  /** A pass of another renderer between two batches. */
  ghost function Passed(b: Batch, id: nat): (r: Batch)
    requires Ready(b)
    ensures InBatch(r)
  {
    FlushList(Issued(Ended(b), ForeignPass(id)))
  }

  ghost function BatchStep(b: Batch, call: Call): (r: Batch)
    requires InBatch(b) && Drawable(call)
    ensures InBatch(r)
  {
    var t := b.state.target;
    if IsDraw(call) then (if Refused(call) then b else Drawn(b, VerticesOf(call), IndicesOf(call)))
    else
      match call
      case SetTexture(texture) => TextureSet(b, texture)
      case Flush | SetViewportAndScissorRect => FlushList(b)
      case NextBatch => FlushList(Ended(b))
      case ClearRenderTarget(color) =>
        if t.color == None then FlushList(b) else Issued(FlushList(b), ClearedColor(color, t.color.value))
      case ClearDepthBuffer(z) =>
        if t.depth == None then FlushList(b) else Issued(FlushList(b), ClearedDepth(z, t.depth.value))
      case SetRenderAttachment(target) => var f := FlushList(b); f.(state := f.state.(target := target))
      case DrawModel(id, _, _) => Passed(b, id)
      case DrawPostEffect(id, _, _) => if t.color == None then Ended(b) else Passed(b, id)
      case _ => var s := ImmediateMode.Step(b.state, call); Set(b, s.states, s.camera, false)
  }

  ghost predicate AllDrawable(calls: seq<Call>) {
    forall k | 0 <= k < |calls| :: Drawable(calls[k])
  }

  ghost function BatchRun(b: Batch, calls: seq<Call>): (r: Batch)
    requires InBatch(b) && AllDrawable(calls)
    ensures InBatch(r)
    decreases |calls|
  {
    if calls == [] then b else BatchRun(BatchStep(b, calls[0]), calls[1..])
  }

  /** A batch on a new renderer. */
  ghost function Begun(s: State): (r: Batch)
    ensures InBatch(r)
  {
    OnlyOpen(s.texture, s.states, s.camera, s.target);
    Batch(s.(events := []), Fresh(s.texture), Ring(Store([map[]], [map[]]), 0, 0), [])
  }

  // ----- proofs -----

  /** With nothing pending a flush changes nothing. */
  lemma FlushFresh(b: Batch)
    requires Ready(b) && b.list.vertices == [] && b.list.indices == []
    ensures FlushList(b) == b.(list := Fresh(b.state.texture))
  {
    var (s, l) := (b.state, b.list);
    NoIndicesNoCorners([], l.commands, s.states, s.camera, s.target);
    NothingQueued(l, |l.commands|, Uploaded(b.ring, [], []), s.states, s.camera, s.target);
  }

  lemma {:induction false} NothingQueued(l: DrawList, j: nat, u: Ring, states: RendererStateSet,
                                         camera: CameraStateSet, target: Target)
    requires WellFormed(l) && l.indices == [] && j <= |l.commands| && u.store.Valid()
    ensures Queued(l, j, u, states, camera, target) == []
  {
    if j > 0 {
      NothingQueued(l, j - 1, u, states, camera, target);
      TotalsSnoc(l.commands, j - 1);
      TotalsAtPrefix(l.commands, j);
    }
  }

  lemma FlushTwice(b: Batch)
    requires Ready(b)
    ensures FlushList(FlushList(b)) == FlushList(b)
  {
    FlushFresh(FlushList(b));
  }

  /** Setting what is set already, with everything to be bound again, only flushes. */
  lemma SetAgain(b: Batch)
    requires Ready(b)
    ensures Set(b, b.state.states, b.state.camera, true) == FlushList(b)
    ensures Set(FlushList(b), b.state.states, b.state.camera, true) == FlushList(b)
  {
    FlushTwice(b);
  }

  /** The renderer puts work off: a draw call with room for it, a texture of the view drawn last
      and a state that is set already send nothing to the GPU, and another texture only opens a
      command. */
  lemma PutOff(b: Batch, call: Call)
    requires InBatch(b) && Drawable(call)
    ensures var r := BatchStep(b, call);
            var n := |b.list.commands|;
            && (IsDraw(call) && |b.list.vertices| + |VerticesOf(call)| <= CAPACITY
                && |b.list.indices| + |IndicesOf(call)| <= CAPACITY ==>
                  r == b.(list := r.list) && |r.list.commands| == n)
            && (call.SetTexture? && ViewOf(call.texture) == ViewOf(b.list.commands[n - 1].texture) ==>
                  r == b.(state := r.state))
            && (call.SetTexture? && ViewOf(call.texture) != ViewOf(b.list.commands[n - 1].texture) &&
                n < COMMAND_CAPACITY ==>
                  && r == b.(state := r.state, list := r.list)
                  && r.list == b.list.(commands := b.list.commands + [DrawCommand(call.texture, 0, 0)]))
            && (call.SetViewport? && call.viewport == b.state.states.viewport ==> r == b)
            && (call.SetScissorRect? && call.rect == b.state.states.scissorRect ==> r == b)
            && (call.SetBlendState? && call.blend == b.state.states.blendState ==> r == b)
            && (call.SetDepthState? && call.depth == b.state.states.depthState ==> r == b)
            && (call.SetVertexColorBlendState? && call.vertexColor == b.state.states.vertexColorBlendState ==> r == b)
  {
    hide FlushList, WellFormed, Prescribed;
  }

  lemma SetChanges(b: Batch, states: RendererStateSet, camera: CameraStateSet, dirty: bool)
    requires Ready(b) && (dirty || b.state.states != states || b.state.camera != camera)
    ensures Set(b, states, camera, dirty) ==
            FlushList(b).(state := FlushList(b).state.(states := states, camera := camera))
  {
  }

  lemma {:induction false} RunSnoc(b: Batch, calls: seq<Call>, call: Call)
    requires InBatch(b) && AllDrawable(calls) && Drawable(call)
    ensures AllDrawable(calls + [call]) && BatchRun(b, calls + [call]) == BatchStep(BatchRun(b, calls), call)
    decreases |calls|
  {
    hide BatchStep;
    if calls == [] {
      assert calls + [call] == [call] && [call][1..] == [];
      assert BatchRun(b, [call]) == BatchRun(BatchStep(b, call), []);
    } else {
      assert (calls + [call])[1..] == calls[1..] + [call];
      RunSnoc(BatchStep(b, calls[0]), calls[1..], call);
    }
  }
}
