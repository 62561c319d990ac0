/** Whole runs of calls inside a batch: the batching renderer against the unbatched one. */
module BatchRuns {
  import opened Helpers
  import opened Graphics
  import opened DrawLists
  import opened UploadRing
  import opened Renderers
  import opened ImmediateMode
  import opened BatchedMode
  import opened Deferral
  import opened Triangles
  import opened TriangleRuns

  predicate IsSetter(call: Call) {
    call.SetOrtho? || call.SetPerspective? || call.SetViewport? || call.SetScissorRect? ||
    call.SetViewportAndScissorRect? || call.SetVertexColorBlendState? || call.SetFogState? ||
    call.SetDepthState? || call.SetBlendState? || call.SetTexture?
  }

  lemma ValidInBatch(r: Renderer)
    requires r.Valid() && r.batchScope
    ensures InBatch(r.Value())
  {
  }

  method ExecuteSetter(r: Renderer, call: Call)
    requires r.Valid() && r.batchScope && IsSetter(call)
    requires InBatch(r.Value())
    modifies r, r.commandData
    ensures r.Valid() && r.batchScope && r.Abs() == Step(old(r.Abs()), call) &&
            r.Value() == BatchStep(old(r.Value()), call)
  {
    hide Corners, WellFormed, Prescribed, FlushList, TextureSet, Set, BatchStep;
    SetterStep(r.Value(), call);
    if call.SetTexture? {
      r.SetTexture(call.texture);
    } else if call.SetViewportAndScissorRect? {
      r.SetViewportAndScissorRect();
    } else {
      ExecuteState(r, call);
    }
  }

  lemma SetterStep(b: Batch, call: Call)
    requires InBatch(b) && IsSetter(call)
    ensures var s := Step(b.state, call);
            BatchStep(b, call) == (if call.SetTexture? then TextureSet(b, call.texture)
                                   else if call.SetViewportAndScissorRect? then FlushList(b)
                                   else Set(b, s.states, s.camera, false))
  {
  }

  method ExecuteState(r: Renderer, call: Call)
    requires r.Valid() && r.batchScope && IsSetter(call) && !call.SetTexture? && !call.SetViewportAndScissorRect?
    requires InBatch(r.Value())
    modifies r, r.commandData
    ensures r.Valid() && r.batchScope && r.Abs() == Step(old(r.Abs()), call)
    ensures r.Value() == Set(old(r.Value()), Step(old(r.Value()).state, call).states,
                             Step(old(r.Value()).state, call).camera, false)
  {
    hide Corners, WellFormed, Prescribed, FlushList, TextureSet, Set;
    match call
    case SetOrtho(box) => r.SetOrtho(box);
    case SetPerspective(eye, lookat, headup, fov, aspect, znear, zfar) =>
      r.SetPerspective(eye, lookat, headup, fov, aspect, znear, zfar);
    case SetViewport(box) => r.SetViewport(box);
    case SetScissorRect(rect) => r.SetScissorRect(rect);
    case SetVertexColorBlendState(b) => r.SetVertexColorBlendState(b);
    case SetFogState(fog, color, near, far) => r.SetFogState(fog, color, near, far);
    case SetDepthState(d) => r.SetDepthState(d);
    case SetBlendState(b) => r.SetBlendState(b);
  }

  method ExecuteDraw(r: Renderer, call: Call)
    requires r.Valid() && r.batchScope && IsDraw(call) && Drawable(call)
    requires InBatch(r.Value())
    modifies r, r.vertexData, r.indexData, r.commandData
    ensures r.Valid() && r.batchScope && r.Abs() == Step(old(r.Abs()), call) &&
            r.Value() == BatchStep(old(r.Value()), call)
  {
    hide Corners, WellFormed, Prescribed, FlushList, Append, OwnCorners, Room, Drawn;
    ghost var (v, i) := (VerticesOf(call), IndicesOf(call));
    assert forall k | 0 <= k < |i| :: i[k] < |v|;
    match call
    case DrawTriangle(v1, v2, v3) => r.DrawTriangle(v1, v2, v3);
    case DrawQuad(v1, v2, v3, v4) => r.DrawQuad(v1, v2, v3, v4);
    case DrawRaw(vertices, indices) =>
      var ok := r.DrawRaw(vertices, indices);
    case DrawRequested(vertices, indices) => ExecuteRequest(r, vertices, indices);
  }

  /** A request, and the caller's filling of the space. */
  method ExecuteRequest(r: Renderer, vertices: seq<Vertex>, indices: seq<Index>)
    requires r.Valid() && r.batchScope && InBatch(r.Value()) && Drawable(DrawRequested(vertices, indices))
    requires forall k | 0 <= k < |indices| :: indices[k] < |vertices|
    modifies r, r.vertexData, r.indexData, r.commandData
    ensures r.Valid() && r.batchScope && r.Abs() == Step(old(r.Abs()), DrawRequested(vertices, indices))
    ensures r.Value() == BatchStep(old(r.Value()), DrawRequested(vertices, indices))
  {
    hide Corners, WellFormed, Prescribed, FlushList, Append, OwnCorners, Room;
    ghost var room := Room(r.Value(), |vertices|, |indices|);
    var ok, vpos, ipos, idxOffset := r.DrawRequest(|vertices|, |indices|);
    if ok {
      r.FillRequest(vpos, ipos, idxOffset, vertices, indices, room);
    }
  }

  method ExecuteOther(r: Renderer, call: Call)
    requires r.Valid() && r.batchScope && !IsSetter(call) && !IsDraw(call) && Allowed(r.Abs(), call)
    requires InBatch(r.Value())
    modifies r, r.commandData
    ensures r.Valid() && r.batchScope && r.Abs() == Step(old(r.Abs()), call) &&
            r.Value() == BatchStep(old(r.Value()), call)
  {
    hide Corners, WellFormed, Prescribed, FlushList, Passed, Issued;
    match call
    case Flush => r.Flush();
    case NextBatch =>
      r.EndBatch();
      r.BeginBatch();
    case ClearRenderTarget(color) => r.ClearRenderTarget(color);
    case ClearDepthBuffer(z) => r.ClearDepthBuffer(z);
    case SetRenderAttachment(target) => r.SetRenderAttachment(target);
    case DrawModel(id, left, binding) => r.DrawModel(id, left, binding);
    case DrawPostEffect(id, matrix, fog) =>
      var ok := r.DrawPostEffect(id, matrix, fog, r.ctx.frame, true);
  }

  /** Any call does to the renderer what the batched specification says, and to what it stands
      for what an unbatched renderer does. */
  method Execute(r: Renderer, call: Call)
    requires r.Valid() && r.batchScope && Allowed(r.Abs(), call)
    requires InBatch(r.Value())
    modifies r, r.vertexData, r.indexData, r.commandData
    ensures r.Valid() && r.batchScope && r.Abs() == Step(old(r.Abs()), call) &&
            r.Value() == BatchStep(old(r.Value()), call)
  {
    hide Corners, WellFormed, Prescribed, Step, BatchStep;
    if IsSetter(call) {
      ExecuteSetter(r, call);
    } else if IsDraw(call) {
      ExecuteDraw(r, call);
    } else {
      ExecuteOther(r, call);
    }
  }

  /** A new renderer with its first batch begun is where the batched specification begins. */
  method NewBatch() returns (r: Renderer)
    ensures fresh(r) && fresh(r.vertexData) && fresh(r.indexData) && fresh(r.commandData)
    ensures r.Valid() && r.batchScope && r.Value() == Begun(r.Abs()) && Shaped(r.Value())
  {
    hide Corners, WellFormed, Prescribed, FlushList, Shaped;
    r := new Renderer();
    ghost var b := r.Value();
    FlushFresh(b);
    r.BeginBatch();
    assert r.Value() == b.(list := Fresh(r.texture));
    BegunShaped(r.Abs());
  }

  /** Every call does what an unbatched renderer does: the loop over the calls of a run. */
  method ExecuteAll(r: Renderer, calls: seq<Call>)
    requires r.Valid() && r.batchScope && InBatch(r.Value()) && AllowedRun(r.Abs(), calls) && AllDrawable(calls)
    modifies r, r.vertexData, r.indexData, r.commandData
    ensures r.Valid() && r.batchScope && r.Abs() == Run(old(r.Abs()), calls) &&
            r.Value() == BatchRun(old(r.Value()), calls)
  {
    hide Corners, WellFormed, Prescribed, Step, BatchStep, Drawable;
    ghost var (s, b) := (r.Abs(), r.Value());
    var k := 0;
    assert calls[0..] == calls;
    while k < |calls|
      invariant k <= |calls|
      invariant r.Valid() && r.batchScope && InBatch(r.Value())
      invariant Run(r.Abs(), calls[k..]) == Run(s, calls)
      invariant AllDrawable(calls[k..]) && BatchRun(r.Value(), calls[k..]) == BatchRun(b, calls)
      invariant AllowedRun(r.Abs(), calls[k..])
    {
      assert calls[k..][1..] == calls[k + 1..];
      Execute(r, calls[k]);
      k := k + 1;
    }
    assert calls[k..] == [];
  }

  lemma {:induction false} AllowedIsDrawable(s: State, calls: seq<Call>)
    requires AllowedRun(s, calls)
    ensures AllDrawable(calls)
    decreases |calls|
  {
    if calls != [] {
      AllowedIsDrawable(Step(s, calls[0]), calls[1..]);
      assert forall k | 1 <= k < |calls| :: calls[k] == calls[1..][k - 1];
    }
  }

  /** Batching is invisible.  After any run of calls in a batch and a flush, the GPU has been
      given exactly the corners, in the same order and each under the same look, that an
      unbatched renderer would have drawn; with textures of one view alike, one that takes every
      texture it is given.  If the draw calls are careful, this is so too for a GPU that runs its
      commands only later; if they are clean as well, it shows the triangles of each call. */
  method RunBatch(r: Renderer, calls: seq<Call>, ghost atlas: set<Texture>)
    requires r.Valid() && r.batchScope && AllowedRun(r.Abs(), calls)
    modifies r, r.vertexData, r.indexData, r.commandData
    ensures r.Valid() && r.batchScope && r.Empty() && r.Abs() == Run(old(r.Abs()), calls)
    ensures InBatch(old(r.Value())) && AllDrawable(calls) && r.Value() == FlushList(BatchRun(old(r.Value()), calls))
    ensures r.ctx.shown == Run(old(r.Abs()), calls).events
    ensures InAtlas(old(r.texture), atlas) && FromAtlas(calls, atlas) &&
            ViewsAgree(atlas, old(r.states).samplerState) ==>
              r.ctx.shown == PlainRun(old(r.Abs()), calls).events
    ensures old(Safe(r.Value())) && AllCareful(calls) ==>
              && Safe(r.Value()) && ExecutedLater(r.ctx.queue, r.ctx.store) == Run(old(r.Abs()), calls).events
              && AllDrawable(calls + [Call.Flush]) &&
                 AtAllTimes(old(r.Value()), calls + [Call.Flush], Run(old(r.Abs()), calls).events)
    ensures old(Shaped(r.Value())) && AllCareful(calls) && AllClean(calls) ==>
              Shaped(r.Value()) &&
              Assembled(r.ctx.queue, r.ctx.store) == old(ShapesOf(r.Value())) + Shapes(old(r.Abs()), calls)
  {
    hide Corners, WellFormed, Prescribed, Step, BatchRun, FlushList, Safe, ShapesOf, AllowedRun, Run, PlainRun;
    ghost var (s, b) := (r.Abs(), r.Value());
    ValidInBatch(r);
    AllowedIsDrawable(s, calls);
    ExecuteAll(r, calls);
    ghost var c := r.Value();
    ValidInBatch(r);
    r.Flush();
    RunMeans(s, b, calls, atlas);
  }

  lemma EachAtItsTime(b: Batch, calls: seq<Call>)
    requires InBatch(b) && Safe(b) && AllDrawable(calls) && AllCareful(calls)
    ensures AllDrawable(calls + [Call.Flush])
    ensures AtAllTimes(b, calls + [Call.Flush], FlushList(BatchRun(b, calls)).state.events)
  {
    hide BatchRun, FlushList, Safe, AtAllTimes;
    RunSnoc(b, calls, Call.Flush);
    assert AllCareful(calls + [Call.Flush]);
    AtAnyTimes(b, calls + [Call.Flush]);
  }

  /** What holds of a run, once it is known to be the run of the specification. */
  lemma RunMeans(s: State, b: Batch, calls: seq<Call>, atlas: set<Texture>)
    requires InBatch(b) && AllDrawable(calls) && AllowedRun(s, calls) && s == b.state.(events := s.events)
    ensures InAtlas(s.texture, atlas) && FromAtlas(calls, atlas) && ViewsAgree(atlas, s.states.samplerState) ==>
              Run(s, calls).events == PlainRun(s, calls).events
    ensures var r := FlushList(BatchRun(b, calls));
            && (Safe(b) && AllCareful(calls) ==>
                  Safe(r) && ExecutedLater(r.queue, r.ring.store) == r.state.events &&
                  AllDrawable(calls + [Call.Flush]) && AtAllTimes(b, calls + [Call.Flush], r.state.events))
            && (Shaped(b) && AllCareful(calls) && AllClean(calls) ==>
                  Shaped(r) && Assembled(r.queue, r.ring.store) == ShapesOf(b) + Shapes(s, calls))
  {
    hide FlushList, WellFormed, BatchRun, ShapesOf, AllowedRun, Run, PlainRun, Shapes;
    if InAtlas(s.texture, atlas) {
      KeptInvisibleIff(s, atlas);
    }
    if Safe(b) && AllCareful(calls) {
      RunSafe(b, calls);
      FlushSafe(BatchRun(b, calls));
      EachAtItsTime(b, calls);
      if Shaped(b) && AllClean(calls) {
        IgnoreEvents(s, b.state, calls);
        RunShapes(b, calls);
        FlushShapes(BatchRun(b, calls));
        FlushShaped(BatchRun(b, calls));
      }
    }
  }
}
