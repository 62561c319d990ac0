/** The cached state sets and the device agree, part by part. */
module Coherence {
  import opened Helpers
  import opened Graphics

  datatype Part = Fixed | Camera | Viewport | Scissor | VertexStage | PixelStage | Fog | Depth | Blend

  /** One part of the device holds what the caches prescribe. */
  ghost predicate PartSynced(p: Part, states: RendererStateSet, camera: CameraStateSet, c: Context) {
    match p
    case Fixed => c.frame.fixed == BATCH_STATE
    case Camera =>
      && c.constants.matrix == MatrixOf(camera)
      && (camera.is3D ==> c.constants.camera == CameraBlockOf(camera.eye, camera.lookat))
    case Viewport => c.frame.viewport == Some(ViewportOf(states.viewport))
    case Scissor => c.frame.scissor == Some(ScissorOf(states.scissorRect))
    case VertexStage => c.frame.vertexShader == Some(BatchVertexShader(states.fogState))
    case PixelStage =>
      c.binding.pixelShader ==
      Some(BatchPixelShader(states.vertexColorBlendState, states.fogState, states.textureAlphaType))
    case Fog => c.constants.fog == FogBlockOf(states.fogColor, states.fogNearOrDensity, states.fogFar)
    case Depth => c.frame.depth == Some(states.depthState)
    case Blend => c.frame.blend == Some(states.blendState)
  }

  ghost predicate AllSynced(states: RendererStateSet, camera: CameraStateSet, c: Context) {
    forall p: Part :: PartSynced(p, states, camera, c)
  }

  lemma AllParts(states: RendererStateSet, camera: CameraStateSet, c: Context)
    requires PartSynced(Fixed, states, camera, c) && PartSynced(Camera, states, camera, c)
    requires PartSynced(Viewport, states, camera, c) && PartSynced(Scissor, states, camera, c)
    requires PartSynced(VertexStage, states, camera, c) && PartSynced(PixelStage, states, camera, c)
    requires PartSynced(Fog, states, camera, c) && PartSynced(Depth, states, camera, c)
    requires PartSynced(Blend, states, camera, c)
    ensures AllSynced(states, camera, c)
  {
  }

  /** No part falls out of step on the way from one state to another. */
  ghost predicate Keeps(states: RendererStateSet, camera: CameraStateSet, c: Context,
                        states': RendererStateSet, camera': CameraStateSet, c': Context) {
    forall p: Part :: PartSynced(p, states, camera, c) ==> PartSynced(p, states', camera', c')
  }

  lemma KeepsTransitive(s0: RendererStateSet, k0: CameraStateSet, c0: Context, s1: RendererStateSet, k1: CameraStateSet,
                        c1: Context, s2: RendererStateSet, k2: CameraStateSet, c2: Context)
    requires Keeps(s0, k0, c0, s1, k1, c1) && Keeps(s1, k1, c1, s2, k2, c2)
    ensures Keeps(s0, k0, c0, s2, k2, c2)
    ensures AllSynced(s0, k0, c0) ==> AllSynced(s2, k2, c2)
  {
  }

  /** When every part agrees, binding a command's texture is all a draw still needs: it is
      shaded exactly as the uncached state prescribes, and in no other case is it. */
  lemma LookWhenSynced(states: RendererStateSet, camera: CameraStateSet, c: Context, texture: Option<Texture>)
    requires c.binding.view == ViewOf(texture)
    requires c.binding.sampler == Some(SamplerOf(texture, states.samplerState))
    requires states.textureAlphaType == AlphaTypeOf(texture)
    ensures AllSynced(states, camera, c) <==> LookOf(c) == Prescribed(states, camera, c.frame.target, texture)
  {
    if AllSynced(states, camera, c) {
      assert PartSynced(Fixed, states, camera, c) && PartSynced(Camera, states, camera, c);
      assert PartSynced(Viewport, states, camera, c) && PartSynced(Scissor, states, camera, c);
      assert PartSynced(VertexStage, states, camera, c) && PartSynced(PixelStage, states, camera, c);
      assert PartSynced(Fog, states, camera, c) && PartSynced(Depth, states, camera, c);
      assert PartSynced(Blend, states, camera, c);
    }
  }

  /** What a device in step holds, value by value. */
  lemma SyncedMeans(states: RendererStateSet, camera: CameraStateSet, c: Context)
    requires AllSynced(states, camera, c)
    ensures FixedMeans(c.frame.fixed)
    ensures c.frame.viewport.Some? && ViewportMeans(c.frame.viewport.value, states.viewport)
    ensures c.frame.scissor.Some? && ScissorMeans(c.frame.scissor.value, states.scissorRect)
    ensures MatrixMeans(c.constants.matrix, camera)
    ensures camera.is3D ==> CameraMeans(c.constants.camera, camera.eye, camera.lookat)
    ensures FogMeans(c.constants.fog, states.fogColor, states.fogNearOrDensity, states.fogFar)
    ensures c.frame.vertexShader == Some(BatchVertexShader(states.fogState))
    ensures c.frame.depth == Some(states.depthState) && c.frame.blend == Some(states.blendState)
    ensures c.binding.pixelShader ==
            Some(BatchPixelShader(states.vertexColorBlendState, states.fogState, states.textureAlphaType))
  {
    assert PartSynced(Fixed, states, camera, c) && PartSynced(Camera, states, camera, c);
    assert PartSynced(Viewport, states, camera, c) && PartSynced(Scissor, states, camera, c);
    assert PartSynced(VertexStage, states, camera, c) && PartSynced(PixelStage, states, camera, c);
    assert PartSynced(Fog, states, camera, c) && PartSynced(Depth, states, camera, c);
    assert PartSynced(Blend, states, camera, c);
  }

  // ----- one device update each: the part it is for comes into step, no other falls out -----

  lemma OrthoUpdate(s: RendererStateSet, k: CameraStateSet, c: Context, box: Box)
    ensures var (s', k', c') := (s, k.(ortho := box, is3D := false),
                               c.(constants := c.constants.(matrix := OrthoMatrix(box))));
            Keeps(s, k, c, s', k', c') && PartSynced(Camera, s', k', c')
  {
  }

  lemma PerspectiveUpdate(s: RendererStateSet, k: CameraStateSet, c: Context, eye: Vector3, lookat: Vector3,
                          headup: Vector3, fov: real, aspect: real, znear: real, zfar: real)
    ensures var (s', k', c') := (s, CameraStateSet(k.ortho, eye, lookat, headup, fov, aspect, znear, zfar, true),
                               c.(constants := c.constants.(
                                 matrix := LookAtPerspective(eye, lookat, headup, fov, aspect, znear, zfar),
                                 camera := CameraBlockOf(eye, lookat))));
            Keeps(s, k, c, s', k', c') && PartSynced(Camera, s', k', c')
  {
  }

  lemma ViewportUpdate(s: RendererStateSet, k: CameraStateSet, c: Context, box: Box)
    ensures var (s', k', c') := (s.(viewport := box), k,
                               c.(frame := c.frame.(viewport := Some(ViewportOf(box)))));
            Keeps(s, k, c, s', k', c') && PartSynced(Viewport, s', k', c')
  {
  }

  lemma ScissorUpdate(s: RendererStateSet, k: CameraStateSet, c: Context, rect: Rect)
    ensures var (s', k', c') := (s.(scissorRect := rect), k,
                               c.(frame := c.frame.(scissor := Some(ScissorOf(rect)))));
            Keeps(s, k, c, s', k', c') && PartSynced(Scissor, s', k', c')
  {
  }

  lemma VertexColorUpdate(s: RendererStateSet, k: CameraStateSet, c: Context, b: VertexColorBlendState)
    ensures var (s', k', c') := (s.(vertexColorBlendState := b), k,
                               c.(binding := c.binding.(pixelShader :=
                                                        Some(BatchPixelShader(b, s.fogState, s.textureAlphaType)))));
            Keeps(s, k, c, s', k', c') && PartSynced(PixelStage, s', k', c')
  {
  }

  lemma FogUpdate(s: RendererStateSet, k: CameraStateSet, c: Context, f: FogState, color: Color, near: real, far: real)
    ensures var (s', k', c') := (s.(fogState := f, fogColor := color, fogNearOrDensity := near, fogFar := far), k,
                               c.(frame := c.frame.(vertexShader := Some(BatchVertexShader(f))),
                                  constants := c.constants.(fog := FogBlockOf(color, near, far)),
                                  binding := c.binding.(pixelShader :=
                                                        Some(BatchPixelShader(s.vertexColorBlendState, f,
                                                                s.textureAlphaType)))));
            Keeps(s, k, c, s', k', c') && PartSynced(VertexStage, s', k', c') && PartSynced(Fog, s', k', c') &&
                PartSynced(PixelStage, s', k', c')
  {
  }

  lemma DepthUpdate(s: RendererStateSet, k: CameraStateSet, c: Context, d: DepthState)
    ensures var (s', k', c') := (s.(depthState := d), k,
                               c.(frame := c.frame.(depth := Some(d))));
            Keeps(s, k, c, s', k', c') && PartSynced(Depth, s', k', c')
  {
  }

  lemma BlendUpdate(s: RendererStateSet, k: CameraStateSet, c: Context, b: BlendState)
    ensures var (s', k', c') := (s.(blendState := b), k,
                               c.(frame := c.frame.(blend := Some(b))));
            Keeps(s, k, c, s', k', c') && PartSynced(Blend, s', k', c')
  {
  }

  lemma FixedUpdate(s: RendererStateSet, k: CameraStateSet, c: Context)
    ensures var c' := c.(frame := c.frame.(fixed := BATCH_STATE));
            Keeps(s, k, c, s, k, c') && PartSynced(Fixed, s, k, c')
  {
  }

  lemma TargetUpdate(s: RendererStateSet, k: CameraStateSet, c: Context, target: Target)
    ensures Keeps(s, k, c, s, k, c.(frame := c.frame.(target := target)))
  {
  }
}
