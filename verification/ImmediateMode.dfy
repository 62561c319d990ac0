/** The reference: a renderer that caches and batches nothing.  Every draw call goes to the
    GPU by itself, under the state current at that call. */
module ImmediateMode {
  import opened Helpers
  import opened Graphics
  import opened DrawLists

  datatype State = State(
    states: RendererStateSet, camera: CameraStateSet, texture: Option<Texture>, target: Target,
    events: seq<Event>)

  datatype Call =
    | SetOrtho(box: Box)
    | SetPerspective(eye: Vector3, lookat: Vector3, headup: Vector3, fov: real, aspect: real, znear: real, zfar: real)
    | SetViewport(viewport: Box)
    | SetScissorRect(rect: Rect)
    | SetViewportAndScissorRect
    | SetVertexColorBlendState(vertexColor: VertexColorBlendState)
    | SetFogState(fog: FogState, color: Color, near: real, far: real)
    | SetDepthState(depth: DepthState)
    | SetBlendState(blend: BlendState)
    | SetTexture(texture: Option<Texture>)
    | DrawTriangle(v1: Vertex, v2: Vertex, v3: Vertex)
    | DrawQuad(q1: Vertex, q2: Vertex, q3: Vertex, q4: Vertex)
    | DrawRaw(vertices: seq<Vertex>, indices: seq<Index>)
    | DrawRequested(vertices: seq<Vertex>, indices: seq<Index>)
    | Flush
    | NextBatch
    | ClearRenderTarget(clear: Color)
    | ClearDepthBuffer(z: real)
    | SetRenderAttachment(target: Target)
    | DrawModel(model: nat, left: Frame, binding: Binding)
    | DrawPostEffect(effect: nat, leftMatrix: nat, leftFog: FogBlock)

  predicate IsDraw(call: Call) {
    call.DrawTriangle? || call.DrawQuad? || call.DrawRaw? || call.DrawRequested?
  }

  /** What a draw call draws. */
  function VerticesOf(call: Call): seq<Vertex>
    requires IsDraw(call)
  {
    match call
    case DrawTriangle(v1, v2, v3) => [v1, v2, v3]
    case DrawQuad(v1, v2, v3, v4) => [v1, v2, v3, v4]
    case DrawRaw(vertices, _) => vertices
    case DrawRequested(vertices, _) => vertices
  }

  function IndicesOf(call: Call): seq<Index>
    requires IsDraw(call)
  {
    match call
    case DrawTriangle(_, _, _) => [0, 1, 2]
    case DrawQuad(_, _, _, _) => [0, 1, 2, 0, 2, 3]
    case DrawRaw(_, indices) => indices
    case DrawRequested(_, indices) => indices
  }

  /** A call too large for the draw list. */
  predicate Refused(call: Call)
    requires IsDraw(call)
  {
    |VerticesOf(call)| > CAPACITY || |IndicesOf(call)| > CAPACITY
  }

  function Draw(s: State, vertices: seq<Vertex>, indices: seq<Index>): State {
    s.(events := s.events + OwnCorners(vertices, indices, Prescribed(s.states, s.camera, s.target, s.texture)))
  }

  /** A pass of its own leaves no texture selected. */
  function Pass(s: State, id: nat): State {
    s.(texture := None, events := s.events + [ForeignPass(id)])
  }

  function Clear(s: State, color: Color): State {
    if s.target.color == None then s else s.(events := s.events + [ClearedColor(color, s.target.color.value)])
  }

  function ClearDepth(s: State, z: real): State {
    if s.target.depth == None then s else s.(events := s.events + [ClearedDepth(z, s.target.depth.value)])
  }

  /** A pass that needs a colour target. */
  function PassOnTarget(s: State, id: nat): State {
    if s.target.color == None then s.(texture := None) else Pass(s, id)
  }

  /** Asked for a texture with the view of the current one, the renderer keeps the current one. */
  function Kept(current: Option<Texture>, t: Option<Texture>): Option<Texture> {
    if IsSame(current, t) then current else t
  }

  function Step(s: State, call: Call): State {
    match call
    case SetOrtho(box) => s.(camera := s.camera.(ortho := box, is3D := false))
    case SetPerspective(eye, lookat, headup, fov, aspect, znear, zfar) =>
      s.(camera := CameraStateSet(s.camera.ortho, eye, lookat, headup, fov, aspect, znear, zfar, true))
    case SetViewport(box) => s.(states := s.states.(viewport := box))
    case SetScissorRect(rect) => s.(states := s.states.(scissorRect := rect))
    case SetViewportAndScissorRect => s
    case SetVertexColorBlendState(b) => s.(states := s.states.(vertexColorBlendState := b))
    case SetFogState(fog, color, near, far) =>
      s.(states := s.states.(fogState := fog, fogColor := color, fogNearOrDensity := near, fogFar := far))
    case SetDepthState(d) => s.(states := s.states.(depthState := d))
    case SetBlendState(b) => s.(states := s.states.(blendState := b))
    case SetTexture(t) => s.(texture := Kept(s.texture, t))
    case DrawTriangle(v1, v2, v3) => Draw(s, VerticesOf(call), IndicesOf(call))
    case DrawQuad(v1, v2, v3, v4) => Draw(s, VerticesOf(call), IndicesOf(call))
    case DrawRaw(vertices, indices) => if Refused(call) then s else Draw(s, vertices, indices)
    case DrawRequested(vertices, indices) => if Refused(call) then s else Draw(s, vertices, indices)
    case Flush => s
    case NextBatch => s.(texture := None)
    case ClearRenderTarget(color) => Clear(s, color)
    case ClearDepthBuffer(z) => ClearDepth(s, z)
    case SetRenderAttachment(target) => s.(target := target)
    case DrawModel(id, _, _) => Pass(s, id)
    case DrawPostEffect(id, _, _) => PassOnTarget(s, id)
  }

  function Run(s: State, calls: seq<Call>): State
    decreases |calls|
  {
    if calls == [] then s else Run(Step(s, calls[0]), calls[1..])
  }

  // ----- what each call means -----

  /** A setter shows in the looks of what is drawn after it, in its own part of them and in no other. */
  lemma SettersShow(s: State, call: Call)
    requires !IsDraw(call)
    ensures var t := Step(s, call);
            var (l, m) := (Prescribed(s.states, s.camera, s.target, s.texture),
                           Prescribed(t.states, t.camera, t.target, t.texture));
            match call
            case SetOrtho(box) =>
              m == l.(matrix := OrthographicOffCenter(box.a.x, box.b.x, box.b.y, box.a.y, box.a.z, box.b.z),
                      camera := None)
            case SetPerspective(eye, lookat, headup, fov, aspect, znear, zfar) =>
              && m == l.(matrix := LookAtPerspective(eye, lookat, headup, fov, aspect, znear, zfar), camera := m.camera)
              && m.camera.Some? && CameraMeans(m.camera.value, eye, lookat)
            case SetViewport(box) =>
              && m == l.(frame := l.frame.(viewport := m.frame.viewport))
              && m.frame.viewport.Some? && ViewportMeans(m.frame.viewport.value, box)
            case SetScissorRect(rect) =>
              && m == l.(frame := l.frame.(scissor := m.frame.scissor))
              && m.frame.scissor.Some? && ScissorMeans(m.frame.scissor.value, rect)
            case SetVertexColorBlendState(b) =>
              && m == l.(binding := m.binding) && m.binding == l.binding.(pixelShader := m.binding.pixelShader)
              && m.binding.pixelShader == Some(l.binding.pixelShader.value.(blend := b))
            case SetFogState(fog, color, near, far) =>
              && m == l.(binding := m.binding, frame := l.frame.(vertexShader := Some(BatchVertexShader(fog))),
                         fog := m.fog)
              && m.binding == l.binding.(pixelShader := Some(l.binding.pixelShader.value.(fog := fog)))
              && FogMeans(m.fog, color, near, far)
            case SetDepthState(d) => m == l.(frame := l.frame.(depth := Some(d)))
            case SetBlendState(b) => m == l.(frame := l.frame.(blend := Some(b)))
            case SetRenderAttachment(target) => m == l.(frame := l.frame.(target := target))
            case SetTexture(texture) => m == l.(binding := m.binding) && m.binding.view == ViewOf(texture)
            case NextBatch | DrawModel(_, _, _) | DrawPostEffect(_, _, _) =>
              m == l.(binding := m.binding) && m.binding.view == None
            case Flush | SetViewportAndScissorRect | ClearRenderTarget(_) | ClearDepthBuffer(_) => m == l
  {
    hide ViewportOf, ScissorOf, CameraBlockOf, FogBlockOf;
    ViewportOfMeans(s, call);
  }

  /** The values the setters hand to the device. */
  lemma ViewportOfMeans(s: State, call: Call)
    ensures call.SetPerspective? ==> CameraMeans(CameraBlockOf(call.eye, call.lookat), call.eye, call.lookat)
    ensures call.SetViewport? ==> ViewportMeans(ViewportOf(call.viewport), call.viewport)
    ensures call.SetScissorRect? ==> ScissorMeans(ScissorOf(call.rect), call.rect)
    ensures call.SetFogState? ==> FogMeans(FogBlockOf(call.color, call.near, call.far), call.color, call.near, call.far)
  {
  }

  /** A draw call shows its vertices in the order of its indices, two triangles for a quad, and
      every other call shows at most itself. */
  lemma CallsShow(s: State, call: Call)
    ensures var l := Prescribed(s.states, s.camera, s.target, s.texture);
            var e := Step(s, call).events;
            match call
            case DrawTriangle(v1, v2, v3) =>
              e == s.events + [Corner(Some(v1), l), Corner(Some(v2), l), Corner(Some(v3), l)]
            case DrawQuad(v1, v2, v3, v4) =>
              e == s.events + [Corner(Some(v1), l), Corner(Some(v2), l), Corner(Some(v3), l),
                               Corner(Some(v1), l), Corner(Some(v3), l), Corner(Some(v4), l)]
            case DrawRaw(vertices, indices) => Adds(s.events, e, vertices, indices, l)
            case DrawRequested(vertices, indices) => Adds(s.events, e, vertices, indices, l)
            case ClearRenderTarget(color) =>
              e == s.events + (if s.target.color == None then [] else [ClearedColor(color, s.target.color.value)])
            case ClearDepthBuffer(z) =>
              e == s.events + (if s.target.depth == None then [] else [ClearedDepth(z, s.target.depth.value)])
            case DrawModel(id, _, _) => e == s.events + [ForeignPass(id)]
            case DrawPostEffect(id, _, _) =>
              e == s.events + (if s.target.color == None then [] else [ForeignPass(id)])
            case _ => e == s.events
  {
    hide Prescribed;
    if IsDraw(call) {
      var (v, i) := (VerticesOf(call), IndicesOf(call));
      OwnCornersAre(v, i, Prescribed(s.states, s.camera, s.target, s.texture));
    }
  }

  /** Nothing for a call too large, else one corner for each index. */
  ghost predicate Adds(before: seq<Event>, after: seq<Event>, vertices: seq<Vertex>, indices: seq<Index>, look: Look) {
    var n := |before|;
    if |vertices| > CAPACITY || |indices| > CAPACITY then after == before
    else
      && |after| == n + |indices| && after[..n] == before
      && forall k | 0 <= k < |indices| ::
           after[n + k] == Corner(if indices[k] < |vertices| then Some(vertices[indices[k]]) else None, look)
  }

  lemma OwnCornersAre(vertices: seq<Vertex>, indices: seq<Index>, look: Look)
    ensures var c := OwnCorners(vertices, indices, look);
            && |c| == |indices|
            && forall k | 0 <= k < |indices| ::
                 c[k] == Corner(if indices[k] < |vertices| then Some(vertices[indices[k]]) else None, look)
  {
  }

  // ----- what a caller must respect -----

  /** Indices of its own vertices, in counts that a request can ask for. */
  ghost predicate Drawable(call: Call) {
    IsDraw(call) ==>
      && (forall k | 0 <= k < |IndicesOf(call)| :: IndicesOf(call)[k] < |VerticesOf(call)|)
      && (call.DrawRequested? ==> |call.vertices| < 0x1_0000 && |call.indices| < 0x1_0000)
  }

  /** A post effect needs a colour target. */
  ghost predicate Allowed(s: State, call: Call) {
    Drawable(call) && (call.DrawPostEffect? ==> s.target.color.Some?)
  }

  ghost predicate AllowedRun(s: State, calls: seq<Call>)
    decreases |calls|
  {
    calls == [] || (Allowed(s, calls[0]) && AllowedRun(Step(s, calls[0]), calls[1..]))
  }

  // ----- textures that share a view -----

  /** A renderer that always takes the texture it is given. */
  function PlainStep(s: State, call: Call): State {
    if call.SetTexture? then s.(texture := call.texture) else Step(s, call)
  }

  function PlainRun(s: State, calls: seq<Call>): State
    decreases |calls|
  {
    if calls == [] then s else PlainRun(PlainStep(s, calls[0]), calls[1..])
  }

  ghost predicate InAtlas(t: Option<Texture>, atlas: set<Texture>) {
    t.Some? ==> t.value in atlas
  }

  ghost predicate FromAtlas(calls: seq<Call>, atlas: set<Texture>) {
    forall k | 0 <= k < |calls| :: calls[k].SetTexture? ==> InAtlas(calls[k].texture, atlas)
  }

  /** Drawn with one or the other, a corner looks the same. */
  predicate LookAlike(a: Option<Texture>, b: Option<Texture>, state: SamplerState) {
    ViewOf(a) == ViewOf(b) && SamplerOf(a, state) == SamplerOf(b, state) && AlphaTypeOf(a) == AlphaTypeOf(b)
  }

  /** Textures of one view have one sampler and one alpha type. */
  ghost predicate ViewsAgree(atlas: set<Texture>, state: SamplerState) {
    forall a, b | a in atlas && b in atlas && a.view == b.view :: LookAlike(Some(a), Some(b), state)
  }

  /** The same state but for a texture that looks alike. */
  ghost predicate Alike(s: State, t: State) {
    t == s.(texture := t.texture) && LookAlike(s.texture, t.texture, s.states.samplerState)
  }

  lemma StepAlike(s: State, t: State, call: Call, atlas: set<Texture>)
    requires Alike(s, t) && InAtlas(s.texture, atlas) && InAtlas(t.texture, atlas)
    requires ViewsAgree(atlas, s.states.samplerState) && (call.SetTexture? ==> InAtlas(call.texture, atlas))
    ensures Alike(Step(s, call), PlainStep(t, call))
    ensures InAtlas(Step(s, call).texture, atlas) && InAtlas(PlainStep(t, call).texture, atlas)
    ensures Step(s, call).states.samplerState == s.states.samplerState
  {
    hide Prescribed, OwnCorners;
    AlikeLooks(s, t);
    if call.SetTexture? {
      KeptAlike(s, t, call.texture, atlas);
    } else {
      hide LookAlike, IsSame;
    }
  }

  lemma AlikeLooks(s: State, t: State)
    requires Alike(s, t)
    ensures Prescribed(s.states, s.camera, s.target, s.texture) == Prescribed(t.states, t.camera, t.target, t.texture)
    ensures LookAlike(None, None, s.states.samplerState)
  {
  }

  lemma KeptAlike(s: State, t: State, texture: Option<Texture>, atlas: set<Texture>)
    requires Alike(s, t) && InAtlas(s.texture, atlas) && InAtlas(t.texture, atlas)
    requires ViewsAgree(atlas, s.states.samplerState) && InAtlas(texture, atlas)
    ensures LookAlike(Kept(s.texture, texture), texture, s.states.samplerState)
  {
  }

  lemma {:induction false} RunAlike(s: State, t: State, calls: seq<Call>, atlas: set<Texture>)
    requires Alike(s, t) && InAtlas(s.texture, atlas) && InAtlas(t.texture, atlas)
    requires ViewsAgree(atlas, s.states.samplerState) && FromAtlas(calls, atlas)
    ensures Run(s, calls).events == PlainRun(t, calls).events
    decreases |calls|
  {
    hide Step, PlainStep;
    if calls != [] {
      assert calls[0].SetTexture? ==> InAtlas(calls[0].texture, atlas);
      StepAlike(s, t, calls[0], atlas);
      assert FromAtlas(calls[1..], atlas);
      RunAlike(Step(s, calls[0]), PlainStep(t, calls[0]), calls[1..], atlas);
    }
  }

  /** Keeping a texture for its view is invisible, whatever is drawn, exactly when textures of
      one view have one sampler and one alpha type. */
  lemma KeptInvisibleIff(s: State, atlas: set<Texture>)
    requires InAtlas(s.texture, atlas)
    ensures (forall calls | FromAtlas(calls, atlas) :: Run(s, calls).events == PlainRun(s, calls).events) <==>
            ViewsAgree(atlas, s.states.samplerState)
  {
    hide Run, PlainRun;
    var state := s.states.samplerState;
    if ViewsAgree(atlas, state) {
      forall calls | FromAtlas(calls, atlas)
        ensures Run(s, calls).events == PlainRun(s, calls).events
      {
        RunAlike(s, s, calls, atlas);
      }
    } else {
      var a, b :| a in atlas && b in atlas && a.view == b.view && !LookAlike(Some(a), Some(b), state);
      if !IsSame(s.texture, Some(a)) {
        KeptSeenAfter(s, a, b);
        assert FromAtlas([SetTexture(Some(a)), SetTexture(Some(b)), ANY_TRIANGLE], atlas);
      } else {
        var c := if LookAlike(s.texture, Some(a), state) then b else a;
        KeptSeen(s, c);
        assert FromAtlas([SetTexture(Some(c)), ANY_TRIANGLE], atlas);
      }
    }
  }

  const ORIGIN: Vertex := Vertex(0.0, 0.0, 0.0, 0, 0.0, 0.0)
  const ANY_TRIANGLE: Call := DrawTriangle(ORIGIN, ORIGIN, ORIGIN)

  lemma RunTwice(s: State, call: Call, calls: seq<Call>)
    ensures Run(s, [call] + calls) == Run(Step(s, call), calls)
    ensures PlainRun(s, [call] + calls) == PlainRun(PlainStep(s, call), calls)
  {
    assert ([call] + calls)[1..] == calls;
  }

  /** The same with the first of the two textures selected before. */
  lemma KeptSeenAfter(s: State, a: Texture, b: Texture)
    requires !IsSame(s.texture, Some(a))
    requires IsSame(Some(a), Some(b)) && !LookAlike(Some(a), Some(b), s.states.samplerState)
    ensures var calls := [SetTexture(Some(a)), SetTexture(Some(b)), ANY_TRIANGLE];
            Run(s, calls).events != PlainRun(s, calls).events
  {
    hide Run, PlainRun, LookAlike;
    var calls := [SetTexture(Some(a)), SetTexture(Some(b)), ANY_TRIANGLE];
    RunTwice(s, calls[0], [SetTexture(Some(b)), ANY_TRIANGLE]);
    assert [calls[0]] + [SetTexture(Some(b)), ANY_TRIANGLE] == calls;
    KeptSeen(s.(texture := Some(a)), b);
  }

  /** A triangle after a texture of the same view that looks different. */
  lemma KeptSeen(s: State, t: Texture)
    requires IsSame(s.texture, Some(t)) && !LookAlike(s.texture, Some(t), s.states.samplerState)
    ensures Run(s, [SetTexture(Some(t)), ANY_TRIANGLE]).events !=
            PlainRun(s, [SetTexture(Some(t)), ANY_TRIANGLE]).events
  {
    var n := |s.events|;
    var (kept, plain) := (Run(s, [SetTexture(Some(t)), ANY_TRIANGLE]),
                          PlainRun(s, [SetTexture(Some(t)), ANY_TRIANGLE]));
    RunTwice(s, SetTexture(Some(t)), [ANY_TRIANGLE]);
    RunTwice(s, ANY_TRIANGLE, []);
    RunTwice(s.(texture := Some(t)), ANY_TRIANGLE, []);
    assert [SetTexture(Some(t))] + [ANY_TRIANGLE] == [SetTexture(Some(t)), ANY_TRIANGLE] &&
           [ANY_TRIANGLE] + [] == [ANY_TRIANGLE];
    assert kept.events[n] == Corner(Some(ORIGIN), Prescribed(s.states, s.camera, s.target, s.texture));
    assert plain.events[n] == Corner(Some(ORIGIN), Prescribed(s.states, s.camera, s.target, Some(t)));
  }
}
