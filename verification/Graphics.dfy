/** The values the batching renderer works with, and the part of a Direct3D 11 device
    context it drives.

    The context is a record: the bound pipeline, the contents of the constant buffers,
    the vertex and index memory, and what has been issued.  A buffer mapped with DISCARD
    gets a new version of its memory, and commands already issued go on reading the old
    one; a buffer mapped with NO_OVERWRITE is written in place. */
module Graphics {
  import opened Helpers

  // ----- the vocabulary of IRenderer -----

  type Index = i: nat | i < 0x1_0000

  /** An unsigned 16-bit store. */
  function Wrap16(n: nat): Index { n % 0x1_0000 }

  datatype Vertex = Vertex(x: real, y: real, z: real, color: nat, u: real, v: real)

  datatype Vector3 = Vector3(x: real, y: real, z: real)
  datatype Color = Color(r: nat, g: nat, b: nat, a: nat)
  datatype Box = Box(a: Vector3, b: Vector3)
  datatype Rect = Rect(left: real, top: real, right: real, bottom: real)

  datatype VertexColorBlendState = VertexZero | VertexOne | VertexAdd | VertexMul
  datatype FogState = FogDisable | FogLinear | FogExp | FogExp2
  datatype DepthState = DepthDisable | DepthEnable
  datatype BlendState =
    | BlendDisable | BlendAlpha | BlendOne | BlendMin | BlendMax | BlendMul
    | BlendScreen | BlendAdd | BlendSub | BlendRevSub | BlendInv
  datatype SamplerState =
    | PointWrap | PointClamp | PointBorderBlack | PointBorderWhite
    | LinearWrap | LinearClamp | LinearBorderBlack | LinearBorderWhite
  datatype TextureAlphaType = Normal | PremulAlpha

  /** A sampler object: one of the renderer's own, or one a texture brings along. */
  datatype Sampler = Known(state: SamplerState) | Custom(id: nat)

  datatype Texture = Texture(view: nat, sampler: Option<Sampler>, premultiplied: bool)

  datatype CameraStateSet = CameraStateSet(
    ortho: Box, eye: Vector3, lookat: Vector3, headup: Vector3,
    fov: real, aspect: real, znear: real, zfar: real, is3D: bool)

  datatype RendererStateSet = RendererStateSet(
    viewport: Box, scissorRect: Rect,
    fogNearOrDensity: real, fogFar: real, fogColor: Color,
    vertexColorBlendState: VertexColorBlendState, samplerState: SamplerState,
    fogState: FogState, textureAlphaType: TextureAlphaType,
    depthState: DepthState, blendState: BlendState)

  // ----- device state -----

  datatype Resource =
    | BatchVertices | BatchIndices | VpMatrix | WorldMatrix | CameraPosition | FogData
    | ForeignResource(id: nat)
  datatype Topology = TriangleList | ForeignTopology(id: nat)
  datatype InputLayout = BatchLayout | ForeignLayout(id: nat)
  datatype Raster = BatchRaster | ForeignRaster(id: nat)
  datatype VertexShader = BatchVertexShader(fog: FogState) | ForeignVertexShader(id: nat)
  datatype PixelShader =
    | BatchPixelShader(blend: VertexColorBlendState, fog: FogState, alpha: TextureAlphaType)
    | ForeignPixelShader(id: nat)
  datatype DeviceViewport = DeviceViewport(
    topLeftX: real, topLeftY: real, width: real, height: real, minDepth: real, maxDepth: real)
  datatype DeviceRect = DeviceRect(left: int, top: int, right: int, bottom: int)
  datatype Target = Target(color: Option<nat>, depth: Option<nat>)

  /** What a batch binds once, when it begins. */
  datatype FixedState = FixedState(
    topology: Option<Topology>, layout: Option<InputLayout>,
    vertexBuffer: Option<Resource>, indexBuffer: Option<Resource>,
    vertexConstants0: Option<Resource>, vertexConstants1: Option<Resource>,
    raster: Option<Raster>,
    pixelConstants0: Option<Resource>, pixelConstants1: Option<Resource>)

  /** What the state setters bind. */
  datatype Frame = Frame(
    fixed: FixedState, vertexShader: Option<VertexShader>,
    viewport: Option<DeviceViewport>, scissor: Option<DeviceRect>,
    depth: Option<DepthState>, blend: Option<BlendState>, target: Target)

  /** What each draw of a flush binds. */
  datatype Binding = Binding(view: Option<nat>, sampler: Option<Sampler>, pixelShader: Option<PixelShader>)

  /** Matrices stay symbolic: the DirectXMath call and its arguments. */
  datatype Matrix =
    | OrthographicOffCenter(left: real, right: real, bottom: real, top: real, near: real, far: real)
    | LookAtPerspective(eye: Vector3, lookat: Vector3, headup: Vector3,
                        fov: real, aspect: real, znear: real, zfar: real)
    | ForeignMatrix(id: nat)
  datatype CameraBlock = CameraBlock(eye: Vector3, direction: Vector3)
  datatype FogBlock = FogBlock(r: real, g: real, b: real, a: real,
                               near: real, far: real, zero: real, range: real)

  /** The contents of the constant buffers. */
  datatype Constants = Constants(matrix: Matrix, camera: CameraBlock, fog: FogBlock)

  /** Everything that decides how a fetched vertex is turned into pixels.  The camera
      block takes part only under a perspective camera: an orthographic one leaves the
      buffer as it was. */
  datatype Look = Look(frame: Frame, binding: Binding, matrix: Matrix, camera: Option<CameraBlock>, fog: FogBlock)

  /** What the GPU does, in the order it does it: each vertex of each triangle list with
      the look it is drawn under, and the operations that are not batched. */
  datatype Event =
    | Corner(vertex: Option<Vertex>, look: Look)
    | ClearedColor(color: Color, target: nat)
    | ClearedDepth(z: real, target: nat)
    | ForeignPass(id: nat)

  type Memory<T> = map<nat, T>

  datatype GpuCommand =
    | Draw(indexCount: nat, startIndex: nat, baseVertex: nat,
           vertexVersion: nat, indexVersion: nat, look: Look)
    | Immediate(event: Event)

  /** The vertex and index memory, every version of it. */
  datatype Store = Store(vertex: seq<Memory<Vertex>>, index: seq<Memory<Index>>) {
    ghost predicate Valid() { |vertex| > 0 && |index| > 0 }

    function CurrentVertex(): Memory<Vertex>
      requires Valid()
    {
      vertex[|vertex| - 1]
    }

    function CurrentIndex(): Memory<Index>
      requires Valid()
    {
      index[|index| - 1]
    }
  }

  /** `shown` is what a GPU that runs every command at once has done; `queue` lets the
      commands be run later instead, against whatever the memory holds by then. */
  datatype Context = Context(
    frame: Frame, binding: Binding, constants: Constants,
    store: Store, queue: seq<GpuCommand>, shown: seq<Event>)

  // ----- derived device values -----

  function ViewportOf(box: Box): DeviceViewport {
    DeviceViewport(box.a.x, box.a.y, box.b.x - box.a.x, box.b.y - box.a.y, box.a.z, box.b.z)
  }

  function ScissorOf(rect: Rect): DeviceRect {
    DeviceRect(Truncate(rect.left), Truncate(rect.top), Truncate(rect.right), Truncate(rect.bottom))
  }

  function OrthoMatrix(box: Box): Matrix {
    OrthographicOffCenter(box.a.x, box.b.x, box.b.y, box.a.y, box.a.z, box.b.z)
  }

  function MatrixOf(c: CameraStateSet): Matrix {
    if c.is3D then LookAtPerspective(c.eye, c.lookat, c.headup, c.fov, c.aspect, c.znear, c.zfar)
    else OrthoMatrix(c.ortho)
  }

  function CameraBlockOf(eye: Vector3, lookat: Vector3): CameraBlock {
    CameraBlock(eye, Vector3(lookat.x - eye.x, lookat.y - eye.y, lookat.z - eye.z))
  }

  function FogBlockOf(color: Color, near: real, far: real): FogBlock {
    FogBlock(color.r as real / 255.0, color.g as real / 255.0, color.b as real / 255.0,
             color.a as real / 255.0, near, far, 0.0, far - near)
  }

  function AlphaTypeOf(texture: Option<Texture>): TextureAlphaType {
    if texture.Some? && texture.value.premultiplied then PremulAlpha else Normal
  }

  function SamplerOf(texture: Option<Texture>, state: SamplerState): Sampler {
    if texture.Some? && texture.value.sampler.Some? then texture.value.sampler.value else Known(state)
  }

  function ViewOf(texture: Option<Texture>): Option<nat> {
    if texture.Some? then Some(texture.value.view) else None
  }

  /** Two texture references denote the same view. */
  predicate IsSame(a: Option<Texture>, b: Option<Texture>) {
    ViewOf(a) == ViewOf(b)
  }

  const BATCH_STATE: FixedState :=
    FixedState(Some(TriangleList), Some(BatchLayout), Some(BatchVertices), Some(BatchIndices),
               Some(VpMatrix), Some(WorldMatrix), Some(BatchRaster), Some(CameraPosition), Some(FogData))

  /** The look that a given state asks for, with nothing cached: what an unbatched
      renderer would bind for a draw call made in that state. */
  function Prescribed(states: RendererStateSet, camera: CameraStateSet, target: Target,
                      texture: Option<Texture>): Look {
    Look(
      Frame(BATCH_STATE, Some(BatchVertexShader(states.fogState)),
            Some(ViewportOf(states.viewport)), Some(ScissorOf(states.scissorRect)),
            Some(states.depthState), Some(states.blendState), target),
      Binding(ViewOf(texture), Some(SamplerOf(texture, states.samplerState)),
              Some(BatchPixelShader(states.vertexColorBlendState, states.fogState, AlphaTypeOf(texture)))),
      MatrixOf(camera),
      if camera.is3D then Some(CameraBlockOf(camera.eye, camera.lookat)) else None,
      FogBlockOf(states.fogColor, states.fogNearOrDensity, states.fogFar))
  }

  /** What that look is, value by value: the regions and edges given, a camera that looks where it
      is told to, the fog as it was set, a sampler the texture may bring along. */
  lemma PrescribedMeans(states: RendererStateSet, camera: CameraStateSet, target: Target, texture: Option<Texture>)
    ensures var l := Prescribed(states, camera, target, texture);
            && FixedMeans(l.frame.fixed) && l.frame.target == target
            && l.frame.vertexShader == Some(BatchVertexShader(states.fogState))
            && l.frame.depth == Some(states.depthState) && l.frame.blend == Some(states.blendState)
            && l.frame.viewport.Some? && ViewportMeans(l.frame.viewport.value, states.viewport)
            && l.frame.scissor.Some? && ScissorMeans(l.frame.scissor.value, states.scissorRect)
            && MatrixMeans(l.matrix, camera) && l.camera.Some? == camera.is3D
            && (camera.is3D ==> CameraMeans(l.camera.value, camera.eye, camera.lookat))
            && FogMeans(l.fog, states.fogColor, states.fogNearOrDensity, states.fogFar)
            && TextureMeans(l.binding, texture, states)
  {
  }

  /** The batch's own resources, each in its slot. */
  predicate FixedMeans(f: FixedState) {
    && f.topology == Some(TriangleList) && f.layout == Some(BatchLayout) && f.raster == Some(BatchRaster)
    && f.vertexBuffer == Some(BatchVertices) && f.indexBuffer == Some(BatchIndices)
    && f.vertexConstants0 == Some(VpMatrix) && f.vertexConstants1 == Some(WorldMatrix)
    && f.pixelConstants0 == Some(CameraPosition) && f.pixelConstants1 == Some(FogData)
  }

  /** A viewport reaches from one corner of the box to the other. */
  predicate ViewportMeans(d: DeviceViewport, box: Box) {
    && d.topLeftX == box.a.x && d.topLeftX + d.width == box.b.x
    && d.topLeftY == box.a.y && d.topLeftY + d.height == box.b.y
    && d.minDepth == box.a.z && d.maxDepth == box.b.z
  }

  /** Every edge is cut towards zero. */
  predicate ScissorMeans(d: DeviceRect, rect: Rect) {
    CutTo(d.left, rect.left) && CutTo(d.top, rect.top) && CutTo(d.right, rect.right) && CutTo(d.bottom, rect.bottom)
  }

  /** Flat, the box's lower y edge is at the top; in space, the view and the lens as given. */
  predicate MatrixMeans(m: Matrix, c: CameraStateSet) {
    if c.is3D then
      && m.LookAtPerspective? && m.eye == c.eye && m.lookat == c.lookat && m.headup == c.headup
      && m.fov == c.fov && m.aspect == c.aspect && m.znear == c.znear && m.zfar == c.zfar
    else
      && m.OrthographicOffCenter? && m.left == c.ortho.a.x && m.right == c.ortho.b.x
      && m.top == c.ortho.a.y && m.bottom == c.ortho.b.y && m.near == c.ortho.a.z && m.far == c.ortho.b.z
  }

  /** From the eye along the direction is the point looked at. */
  predicate CameraMeans(b: CameraBlock, eye: Vector3, lookat: Vector3) {
    && b.eye == eye && b.eye.x + b.direction.x == lookat.x
    && b.eye.y + b.direction.y == lookat.y && b.eye.z + b.direction.z == lookat.z
  }

  /** The channels out of 255, and the range from near to far. */
  predicate FogMeans(f: FogBlock, color: Color, near: real, far: real) {
    && 255.0 * f.r == color.r as real && 255.0 * f.g == color.g as real
    && 255.0 * f.b == color.b as real && 255.0 * f.a == color.a as real
    && f.near == near && f.far == far && f.near + f.range == far && f.zero == 0.0
  }

  /** A texture's view, its own sampler before the common one, and the shader for its alpha. */
  predicate TextureMeans(b: Binding, texture: Option<Texture>, states: RendererStateSet) {
    && b.view.Some? == texture.Some? && (texture.Some? ==> b.view.value == texture.value.view)
    && b.sampler == (if texture.Some? && texture.value.sampler.Some? then texture.value.sampler
                     else Some(Known(states.samplerState)))
    && b.pixelShader.Some? && b.pixelShader.value.BatchPixelShader?
    && b.pixelShader.value.blend == states.vertexColorBlendState && b.pixelShader.value.fog == states.fogState
    && (b.pixelShader.value.alpha == PremulAlpha <==> texture.Some? && texture.value.premultiplied)
  }

  /** The look a draw call issued now would be shaded with. */
  function LookOf(c: Context): Look {
    Look(c.frame, c.binding, c.constants.matrix,
         if c.constants.matrix.LookAtPerspective? then Some(c.constants.camera) else None, c.constants.fog)
  }

  // ----- context operations -----

  function Fetch(vm: Memory<Vertex>, im: Memory<Index>, base: nat, slot: nat): Option<Vertex> {
    if slot in im && base + im[slot] in vm then Some(vm[base + im[slot]]) else None
  }

  function DrawCorners(vm: Memory<Vertex>, im: Memory<Index>, count: nat, start: nat, base: nat,
                       look: Look): (r: seq<Event>)
  {
    seq(count, k requires 0 <= k < count => Corner(Fetch(vm, im, base, start + k), look))
  }

  /** ID3D11DeviceContext::DrawIndexed. */
  function DrawIndexed(c: Context, count: nat, start: nat, base: nat): Context
    requires c.store.Valid()
  {
    var look := LookOf(c);
    c.(queue := c.queue + [Draw(count, start, base, |c.store.vertex| - 1, |c.store.index| - 1, look)],
       shown := c.shown + DrawCorners(c.store.CurrentVertex(), c.store.CurrentIndex(), count, start, base, look))
  }

  /** A command that is not batched and reads no batch memory. */
  function Issue(c: Context, e: Event): Context {
    c.(queue := c.queue + [Immediate(e)], shown := c.shown + [e])
  }

  function SlotValue<T>(offset: nat, data: seq<T>, k: nat): T
    requires offset <= k < offset + |data|
  {
    data[k - offset]
  }

  function Span<T>(offset: nat, data: seq<T>): Memory<T> {
    map k: nat | offset <= k < offset + |data| :: SlotValue(offset, data, k)
  }

  /** Map, memcpy of `data` at `offset`, Unmap. */
  function Written<T>(versions: seq<Memory<T>>, discard: bool, offset: nat, data: seq<T>): (r: seq<Memory<T>>)
    requires |versions| > 0
    ensures |r| == |versions| + (if discard then 1 else 0)
  {
    var n := |versions| - 1;
    if discard then versions + [Span(offset, data)]
    else versions[..n] + [versions[n] + Span(offset, data)]
  }

  // ----- running the queue later -----

  function Executed(c: GpuCommand, s: Store): seq<Event> {
    match c
    case Immediate(e) => [e]
    case Draw(count, start, base, vv, iv, look) =>
      if vv < |s.vertex| && iv < |s.index|
      then DrawCorners(s.vertex[vv], s.index[iv], count, start, base, look)
      else []
  }

  /** What a GPU that starts only now makes of the queue. */
  function ExecutedLater(queue: seq<GpuCommand>, s: Store): seq<Event> {
    if queue == [] then []
    else ExecutedLater(queue[..|queue| - 1], s) + Executed(queue[|queue| - 1], s)
  }
}
