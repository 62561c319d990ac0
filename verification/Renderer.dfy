/** The batching renderer.

    Draw calls collect in a draw list; state setters flush it when the cached state
    changes; a flush uploads the list behind the previous ones and issues one indexed draw
    for each command.  `Abs` reads the whole object as an unbatched renderer, and every
    method is proved to do to `Abs` what that renderer would do. */
module Renderers {
  import opened Helpers
  import opened Graphics
  import opened DrawLists
  import opened UploadRing
  import opened Coherence
  import opened FlushSteps
  import ImmediateMode
  import BatchedMode

  type State = ImmediateMode.State
  type Batch = BatchedMode.Batch

  class Renderer {
    const vertexData: array<Vertex>
    const indexData: array<Index>
    const commandData: array<DrawCommand>
    var vertexSize: nat
    var indexSize: nat
    var commandSize: nat
    var vertexOffset: nat
    var indexOffset: nat
    var texture: Option<Texture>
    var camera: CameraStateSet
    var states: RendererStateSet
    var dirty: bool
    var batchScope: bool
    var ctx: Context

    // ----- abstraction -----

    ghost predicate Sized()
      reads this
    {
      && vertexData.Length == CAPACITY && indexData.Length == CAPACITY && commandData.Length == COMMAND_CAPACITY
      && vertexSize <= CAPACITY && indexSize <= CAPACITY && commandSize <= COMMAND_CAPACITY
    }

    ghost function List(): DrawList
      reads this, vertexData, indexData, commandData
      requires Sized()
    {
      DrawList(vertexData[..vertexSize], indexData[..indexSize], commandData[..commandSize])
    }

    ghost function Buffers(): Ring
      reads this
    {
      Ring(ctx.store, vertexOffset, indexOffset)
    }

    ghost predicate Synced(p: Part)
      reads this
    {
      PartSynced(p, states, camera, ctx)
    }

    ghost predicate Coherent()
      reads this
    {
      AllSynced(states, camera, ctx)
    }

    /** The cached states, without the one that follows the texture of each draw. */
    ghost function Settings(): RendererStateSet
      reads this
    {
      Plain(states)
    }

    ghost predicate OpenCommand()
      reads this, commandData
      requires Sized()
    {
      commandSize > 0 && commandData[commandSize - 1].texture == texture
    }

    /** The counts add up, no command reaches outside its own vertices, nothing exceeds its
        buffer, and whatever is pending will be drawn by a device in step with the caches. */
    ghost predicate Layout()
      reads this, vertexData, indexData, commandData
    {
      && Sized()
      && WellFormed(List())
      && Buffers().Valid()
      && (indexSize > 0 ==> Coherent())
    }

    /** Inside a batch there is always a command to draw with, and the device is in step. */
    ghost predicate Valid()
      reads this, vertexData, indexData, commandData
    {
      Layout() && (batchScope ==> OpenCommand() && Coherent() && !dirty)
    }

    /** The renderer as a value. */
    ghost function Value(): Batch
      reads this, vertexData, indexData, commandData
      requires Sized()
    {
      BatchedMode.Batch(ImmediateMode.State(Settings(), camera, texture, ctx.frame.target, ctx.shown), List(),
                        Buffers(), ctx.queue)
    }

    /** What an unbatched renderer would have in hand at this point: the same state, and
        everything drawn so far, pending draws included. */
    ghost function Abs(): State
      reads this, vertexData, indexData, commandData
      requires Sized()
    {
      ImmediateMode.State(Settings(), camera, texture, ctx.frame.target,
                          ctx.shown + Pending(List(), Settings(), camera, ctx.frame.target))
    }

    /** Nothing is pending. */
    ghost predicate Empty()
      reads this
    {
      vertexSize == 0 && indexSize == 0
    }

    constructor ()
      ensures Valid() && fresh(vertexData) && fresh(indexData) && fresh(commandData)
      ensures Empty() && commandSize == 0 && !batchScope
      ensures vertexData.Length == indexData.Length == 32768 && commandData.Length == 2048
      ensures Value().ring == Ring(Store([map[]], [map[]]), 0, 0) && Value().queue == [] && Value().state.events == []
    {
      vertexData := new Vertex[CAPACITY];
      indexData := new Index[CAPACITY];
      commandData := new DrawCommand[COMMAND_CAPACITY];
      vertexSize, indexSize, commandSize, vertexOffset, indexOffset := 0, 0, 0, 0, 0;
      texture, dirty, batchScope := None, false, false;
      var origin := Vector3(0.0, 0.0, 0.0);
      var unit := Box(origin, Vector3(1.0, 1.0, 1.0));
      camera := CameraStateSet(unit, origin, Vector3(0.0, 0.0, 1.0), Vector3(0.0, 1.0, 0.0), 0.0, 0.0, 0.0, 0.0, false);
      states := RendererStateSet(unit, Rect(0.0, 0.0, 1.0, 1.0), 0.0, 0.0, Color(0, 0, 0, 0),
                                 VertexMul, LinearClamp, FogDisable, Normal, DepthDisable, BlendAlpha);
      ctx := Context(Frame(FixedState(None, None, None, None, None, None, None, None, None),
                           None, None, None, None, None, Target(None, None)),
                     Binding(None, None, None),
                     Constants(ForeignMatrix(0), CameraBlock(origin, origin),
                               FogBlock(0.0, 0.0, 0.0, 0.0, 0.0, 0.0, 0.0, 0.0)), Store([map[]], [map[]]), [], []);
    }

    // ----- the draw list and its upload -----

    method SetVertexIndexBuffer()
      modifies this`ctx
      ensures ctx == old(ctx).(frame := old(ctx.frame).(fixed :=
                old(ctx.frame.fixed).(vertexBuffer := Some(BatchVertices), indexBuffer := Some(BatchIndices))))
    {
      ctx := ctx.(frame := ctx.frame.(fixed :=
        ctx.frame.fixed.(vertexBuffer := Some(BatchVertices), indexBuffer := Some(BatchIndices))));
    }

    method UploadVertexIndexBuffer(discard: bool)
      requires Sized() && Buffers().Valid()
      modifies this`ctx
      ensures ctx == old(ctx).(store := Store(Mapped(old(ctx.store.vertex), discard, vertexOffset,
                                                     vertexData[..vertexSize]),
                                              Mapped(old(ctx.store.index), discard, indexOffset,
                                                     indexData[..indexSize])))
    {
      if vertexSize > 0 {
        ctx := ctx.(store := ctx.store.(vertex :=
                                        Written(ctx.store.vertex, discard, vertexOffset, vertexData[..vertexSize])));
      }
      if indexSize > 0 {
        ctx := ctx.(store := ctx.store.(index :=
                                        Written(ctx.store.index, discard, indexOffset, indexData[..indexSize])));
      }
    }

    method ClearDrawList()
      requires Sized()
      modifies this`vertexSize, this`indexSize, this`commandSize, commandData
      ensures Sized() && vertexSize == 0 && indexSize == 0 && commandSize == 0
    {
      var j := 0;
      while j < commandSize
        invariant Sized()
        modifies commandData
      {
        commandData[j] := commandData[j].(texture := None);
        j := j + 1;
      }
      vertexSize, indexSize, commandSize := 0, 0, 0;
    }

    method UploadVertexIndexBufferFromDrawList()
      requires Sized() && Buffers().Valid()
      modifies this`ctx, this`vertexOffset, this`indexOffset
      ensures Buffers() == Uploaded(old(Buffers()), vertexData[..vertexSize], indexData[..indexSize])
      ensures ctx == old(ctx).(store := ctx.store)
      ensures if old(vertexOffset) + vertexSize <= CAPACITY && old(indexOffset) + indexSize <= CAPACITY
              then vertexOffset == old(vertexOffset) && indexOffset == old(indexOffset) &&
                   |ctx.store.vertex| == |old(ctx.store.vertex)| && |ctx.store.index| == |old(ctx.store.index)|
              else vertexOffset == 0 && indexOffset == 0 &&
                   |ctx.store.vertex| == |old(ctx.store.vertex)| + (if vertexSize > 0 then 1 else 0) &&
                   |ctx.store.index| == |old(ctx.store.index)| + (if indexSize > 0 then 1 else 0)
    {
      if CAPACITY - vertexOffset < vertexSize || CAPACITY - indexOffset < indexSize {
        vertexOffset, indexOffset := 0, 0;
        UploadVertexIndexBuffer(true);
      } else {
        UploadVertexIndexBuffer(false);
      }
    }

    method BindTextureSamplerState(t: Option<Texture>)
      modifies this`ctx
      ensures ctx == SamplerBound(old(ctx), states, t)
      ensures ctx.binding.sampler == (if t.Some? && t.value.sampler.Some? then t.value.sampler
                                      else Some(Known(states.samplerState)))
    {
      var fromTexture := if t.Some? then t.value.sampler else None;
      var sampler := if fromTexture.Some? then fromTexture.value else Known(states.samplerState);
      ctx := ctx.(binding := ctx.binding.(sampler := Some(sampler)));
    }

    method BindTextureAlphaType(t: Option<Texture>)
      modifies this`ctx, this`states
      ensures states == old(states).(textureAlphaType := AlphaTypeOf(t))
      ensures states.textureAlphaType == PremulAlpha <==> t.Some? && t.value.premultiplied
      ensures ctx == AlphaBound(old(ctx), old(states), dirty, t)
    {
      var state := if t.Some? && t.value.premultiplied then PremulAlpha else Normal;
      if dirty || states.textureAlphaType != state {
        states := states.(textureAlphaType := state);
        ctx := ctx.(binding := ctx.binding.(pixelShader :=
          Some(BatchPixelShader(states.vertexColorBlendState, states.fogState, state))));
      }
    }

    /** Binds the texture of one command and draws it. */
    method IssueCommand(cmd: DrawCommand, ghost s0: RendererStateSet, ghost c0: Context, ghost drawn: seq<Event>,
                        ghost issued: seq<GpuCommand>, ghost own: seq<Event>)
      requires c0.store.Valid() && AllSynced(s0, camera, c0)
      requires Progress(camera, s0, c0, states, ctx, drawn, issued)
      requires own == DrawCorners(Last(c0.store.vertex), Last(c0.store.index), cmd.indexCount, indexOffset,
                                  vertexOffset, Prescribed(Plain(s0), camera, c0.frame.target, cmd.texture))
      modifies this`ctx, this`states
      ensures Progress(camera, s0, c0, states, ctx, drawn + own,
                       issued + [GpuCommand.Draw(cmd.indexCount, indexOffset, vertexOffset, |c0.store.vertex| - 1,
                                                 |c0.store.index| - 1,
                                                 Prescribed(Plain(s0), camera, c0.frame.target, cmd.texture))])
    {
      hide Corners, WellFormed, Prescribed, PartSynced, BatchedMode.FlushList, BatchedMode.Queued;
      ProgressDraw(camera, s0, c0, states, ctx, drawn, issued, dirty, cmd.texture, cmd.indexCount, indexOffset,
                   vertexOffset, own);
      ctx := ctx.(binding := ctx.binding.(view := ViewOf(cmd.texture)));
      BindTextureSamplerState(cmd.texture);
      BindTextureAlphaType(cmd.texture);
      ctx := DrawIndexed(ctx, cmd.indexCount, indexOffset, vertexOffset);
    }

    /** A flush of `l` that began in `s0`, `c0` with the list uploaded to `u` has come to command `j`. */
    ghost predicate Flushing(l: DrawList, j: nat, s0: RendererStateSet, c0: Context, u: Ring)
      reads this
    {
      && j <= |l.commands| && u.store.Valid() && c0.store == u.store
      && vertexOffset == u.vertexOffset + VerticesUpTo(l, j)
      && indexOffset == u.indexOffset + IndicesUpTo(l, j)
      && Progress(camera, s0, c0, states, ctx, DrawnUpTo(l, j, Plain(s0), camera, c0.frame.target),
                  BatchedMode.Queued(l, j, u, Plain(s0), camera, c0.frame.target))
    }

    /** One iteration of the flush loop. */
    method FlushCommand(cmd: DrawCommand, ghost l: DrawList, ghost j: nat, ghost s0: RendererStateSet,
                        ghost c0: Context, ghost u: Ring)
      requires WellFormed(l) && j < |l.commands| && cmd == l.commands[j] && u.store.Valid()
      requires Holds(Last(u.store.vertex), u.vertexOffset, l.vertices) &&
               Holds(Last(u.store.index), u.indexOffset, l.indices)
      requires |l.indices| > 0 ==> AllSynced(s0, camera, c0)
      requires Flushing(l, j, s0, c0, u)
      modifies this`ctx, this`states, this`vertexOffset, this`indexOffset
      ensures Flushing(l, j + 1, s0, c0, u)
    {
      hide Corners, WellFormed, Prescribed, PartSynced, BatchedMode.Queued, BatchedMode.DrawOf;
      ghost var (p, target) := (Plain(s0), c0.frame.target);
      ghost var own := FlushStep(l, j, u, vertexOffset, indexOffset, p, camera, target);
      QueueStep(l, j, u, vertexOffset, indexOffset, p, camera, target);
      if cmd.vertexCount > 0 && cmd.indexCount > 0 {
        IssueCommand(cmd, s0, c0, DrawnUpTo(l, j, p, camera, target), BatchedMode.Queued(l, j, u, p, camera, target),
                     own);
      }
      vertexOffset := vertexOffset + cmd.vertexCount;
      indexOffset := indexOffset + cmd.indexCount;
    }

    /** The draws of a flush, once the list is in the buffers. */
    method IssueCommands(ghost l: DrawList)
      requires Sized() && WellFormed(l) && l == List() && Buffers().Valid()
      requires Holds(Last(ctx.store.vertex), vertexOffset, l.vertices)
      requires Holds(Last(ctx.store.index), indexOffset, l.indices)
      requires indexSize > 0 ==> Coherent()
      modifies this`ctx, this`states, this`vertexOffset, this`indexOffset
      ensures vertexOffset == old(vertexOffset) + vertexSize && indexOffset == old(indexOffset) + indexSize
      ensures Progress(camera, old(states), old(ctx), states, ctx,
                       Pending(l, Plain(old(states)), camera, old(ctx).frame.target),
                       BatchedMode.Queued(l, |l.commands|, old(Buffers()), Plain(old(states)), camera,
                                          old(ctx).frame.target))
    {
      hide Prescribed, PartSynced;
      ghost var (c0, s0, u) := (ctx, states, Buffers());
      ProgressStart(camera, s0, c0);
      var j := 0;
      while j < commandSize
        invariant j <= commandSize
        invariant Flushing(l, j, s0, c0, u)
      {
        FlushCommand(commandData[j], l, j, s0, c0, u);
        j := j + 1;
      }
      assert l.commands[..j] == l.commands;
    }

    /** The upload of a flush. */
    method UploadList(ghost l: DrawList)
      requires Sized() && WellFormed(l) && l == List() && Buffers().Valid()
      modifies this`ctx, this`vertexOffset, this`indexOffset
      ensures Buffers() == Uploaded(old(Buffers()), l.vertices, l.indices) && Buffers().Valid()
      ensures vertexOffset + vertexSize <= CAPACITY && indexOffset + indexSize <= CAPACITY
      ensures Holds(Last(ctx.store.vertex), vertexOffset, l.vertices)
      ensures Holds(Last(ctx.store.index), indexOffset, l.indices)
      ensures ctx == old(ctx).(store := ctx.store)
    {
      hide Corners, WellFormed, Prescribed, PartSynced, BatchedMode.FlushList, BatchedMode.Queued;
      UploadHolds(Buffers(), l.vertices, l.indices);
      UploadVertexIndexBufferFromDrawList();
    }

    /** Upload and draws: everything pending is shown, and the uploaded data lies behind what
        was uploaded before. */
    method FlushDraws(ghost l: DrawList)
      requires Sized() && WellFormed(l) && l == List() && Buffers().Valid()
      requires indexSize > 0 ==> Coherent()
      modifies this`ctx, this`states, this`vertexOffset, this`indexOffset
      ensures Buffers() == Flushed(old(Buffers()), l.vertices, l.indices) && Buffers().Valid()
      ensures SameDevice(old(ctx), ctx) && Settings() == old(Settings())
      ensures Keeps(old(states), camera, old(ctx), states, camera, ctx)
      ensures ctx.shown == old(ctx).shown + Pending(l, Plain(old(states)), camera, old(ctx).frame.target)
      ensures Uploaded(old(Buffers()), l.vertices, l.indices).store.Valid()
      ensures ctx.queue == old(ctx).queue +
                           BatchedMode.Queued(l, |l.commands|, Uploaded(old(Buffers()), l.vertices, l.indices),
                                              Plain(old(states)), camera, old(ctx).frame.target)
    {
      hide Corners, WellFormed, Prescribed, PartSynced, BatchedMode.Queued;
      ghost var (c0, s0) := (ctx, states);
      UploadList(l);
      ghost var (store, u) := (ctx.store, Buffers());
      SameDeviceKeeps(s0, camera, c0, ctx);
      IssueCommands(l);
      FlushSummary(camera, s0, c0, store, states, ctx, Pending(l, Plain(s0), camera, c0.frame.target),
                   BatchedMode.Queued(l, |l.commands|, u, Plain(s0), camera, c0.frame.target));
      ctx := ctx.(binding := ctx.binding.(view := None));
    }

    /** Shows what is pending (or, to discard it, does not) and starts a new list with an
        empty command for the current texture. */
    method BatchFlush(discard: bool)
      requires Layout()
      modifies this, commandData
      ensures Layout() && Empty() && commandSize == 1 && commandData[0] == DrawCommand(texture, 0, 0)
      ensures Abs() == old(Abs()).(events := if discard then old(ctx.shown) else old(Abs()).events)
      ensures ctx.shown == Abs().events
      ensures dirty == old(dirty) && batchScope == old(batchScope)
      ensures SameDevice(old(ctx), ctx) && Keeps(old(states), old(camera), old(ctx), states, camera, ctx)
      ensures Buffers() == if discard then old(Buffers())
              else Flushed(old(Buffers()), old(vertexData[..vertexSize]), old(indexData[..indexSize]))
      ensures Value() == if discard then old(Value()).(list := BatchedMode.Fresh(texture))
              else BatchedMode.FlushList(old(Value()))
      decreases 1
    {
      hide Corners, Prescribed, PartSynced;
      if !discard {
        FlushDraws(List());
      } else {
        SameDeviceKeeps(states, camera, ctx, ctx);
      }
      ClearDrawList();
      SetTexture(texture);
      QuietMeans();
      assert commandData[..commandSize] == [DrawCommand(texture, 0, 0)];
    }

    /** A new, empty command. */
    method OpenNewCommand(t: Option<Texture>)
      requires Layout() && commandSize < COMMAND_CAPACITY
      modifies this`commandSize, commandData
      ensures Layout() && commandSize == old(commandSize) + 1 && commandData[commandSize - 1] == DrawCommand(t, 0, 0)
      ensures Abs() == old(Abs())
      ensures Value() == old(Value()).(list := Open(old(List()), t))
    {
      hide Corners, WellFormed, Prescribed, PartSynced, BatchedMode.FlushList, BatchedMode.Queued;
      ghost var l := List();
      OpenMeansNothing(l, t, Settings(), camera, ctx.frame.target);
      PushCommand(t);
      assert List() == Open(l, t);
    }

    method PushCommand(t: Option<Texture>)
      requires Sized() && commandSize < COMMAND_CAPACITY
      modifies this`commandSize, commandData
      ensures Sized() && commandSize == old(commandSize) + 1 && commandData[commandSize - 1] == DrawCommand(t, 0, 0)
      ensures commandData[..commandSize] == old(commandData[..commandSize]) + [DrawCommand(t, 0, 0)]
    {
      commandSize := commandSize + 1;
      commandData[commandSize - 1] := DrawCommand(t, 0, 0);
    }

    /** A new command, after a flush if the list has no room for one. */
    method NewCommand(t: Option<Texture>)
      requires Layout()
      modifies this, commandData
      ensures Layout() && commandSize > 0 && commandData[commandSize - 1] == DrawCommand(t, 0, 0)
      ensures Abs() == old(Abs())
      ensures dirty == old(dirty) && batchScope == old(batchScope)
      ensures SameDevice(old(ctx), ctx) && Keeps(old(states), old(camera), old(ctx), states, camera, ctx)
      ensures Value() == BatchedMode.NewCommand(old(Value()), t)
      ensures old(commandSize) < COMMAND_CAPACITY ==>
                commandSize == old(commandSize) + 1 && ctx == old(ctx) && Buffers() == old(Buffers()) &&
                vertexSize == old(vertexSize) && indexSize == old(indexSize)
      ensures old(Empty()) ==> Empty()
      decreases if commandSize == COMMAND_CAPACITY then 2 else 0, 0
    {
      hide Corners, WellFormed, Prescribed, PartSynced, BatchedMode.FlushList, BatchedMode.Queued;
      if COMMAND_CAPACITY - commandSize < 1 {
        BatchFlush(false);
      } else {
        SameDeviceKeeps(states, camera, ctx, ctx);
      }
      OpenNewCommand(t);
    }

    method SetTexture(t: Option<Texture>)
      requires Layout()
      modifies this, commandData
      ensures Layout() && (old(Valid()) ==> Valid())
      ensures old(OpenCommand()) || (old(commandSize) == 0 && t == old(texture)) ==> OpenCommand()
      ensures Abs() == old(Abs()).(texture := ImmediateMode.Kept(old(texture), t))
      ensures Value() == BatchedMode.TextureSet(old(Value()), t)
      ensures dirty == old(dirty) && batchScope == old(batchScope)
      ensures SameDevice(old(ctx), ctx) && Keeps(old(states), old(camera), old(ctx), states, camera, ctx)
      ensures old(commandSize) < COMMAND_CAPACITY ==>
                ctx == old(ctx) && Buffers() == old(Buffers()) && vertexSize == old(vertexSize) &&
                    indexSize == old(indexSize)
      ensures old(commandSize) == 0 ==> commandSize == 1 && commandData[0] == DrawCommand(t, 0, 0)
      ensures old(Empty()) ==> Empty()
      decreases if commandSize == COMMAND_CAPACITY then 2 else 0, 1
    {
      hide Corners, WellFormed, Prescribed, PartSynced, BatchedMode.FlushList, BatchedMode.Queued;
      hide BatchedMode.NewCommand;
      if commandSize > 0 && IsSame(commandData[commandSize - 1].texture, t) {
        // merged into the last command
        SameDeviceKeeps(states, camera, ctx, ctx);
      } else {
        NewCommand(t);
      }
      KeepTexture(t);
    }

    /** The current texture, unless it has the view asked for. */
    method KeepTexture(t: Option<Texture>)
      requires Layout()
      modifies this`texture
      ensures Layout() && texture == ImmediateMode.Kept(old(texture), t)
      ensures Value() == old(Value()).(state := old(Value()).state.(texture := texture))
      ensures Abs() == old(Abs()).(texture := texture)
    {
      hide Corners, WellFormed, Prescribed, PartSynced;
      if !IsSame(texture, t) {
        texture := t;
      }
    }

    // ----- state setters -----

    /** Nothing is pending and the one command is open for the current texture. */
    ghost predicate Quiet()
      reads this, commandData
    {
      Sized() && Empty() && commandSize == 1 && commandData[0] == DrawCommand(texture, 0, 0)
    }

    lemma QuietMeans()
      requires Quiet()
      ensures WellFormed(List()) && OpenCommand()
      ensures Abs().events == ctx.shown
    {
      assert List() == DrawList([], [], [DrawCommand(texture, 0, 0)]);
      OnlyOpen(texture, Settings(), camera, ctx.frame.target);
    }

    /** New values in the caches and on the device, with nothing pending. */
    method Install(s: RendererStateSet, k: CameraStateSet, c: Context)
      requires Layout() && Quiet()
      requires Keeps(states, camera, ctx, s, k, c)
      requires c == ctx.(frame := c.frame.(target := ctx.frame.target), binding := c.binding, constants := c.constants)
      modifies this`states, this`camera, this`ctx
      ensures states == s && camera == k && ctx == c
      ensures Layout() && Quiet() && (old(Valid()) ==> Valid())
      ensures Abs() == old(Abs()).(states := Plain(s), camera := k)
      ensures Value() == old(Value()).(state := old(Value()).state.(states := Plain(s), camera := k))
    {
      hide Corners, WellFormed, Prescribed, PartSynced, BatchedMode.FlushList, BatchedMode.Queued;
      QuietMeans();
      states, camera, ctx := s, k, c;
      QuietMeans();
    }

    method SetOrtho(box: Box)
      requires Layout()
      modifies this, commandData
      ensures Layout() && (old(Valid()) ==> Valid())
      ensures Abs() == old(Abs()).(camera := old(camera).(ortho := box, is3D := false))
      ensures dirty == old(dirty) && batchScope == old(batchScope)
      ensures Keeps(old(states), old(camera), old(ctx), states, camera, ctx)
      ensures dirty ==> Synced(Camera)
      ensures dirty || old(OpenCommand()) ==> OpenCommand()
      ensures Value() == BatchedMode.Set(old(Value()), Settings(), camera, old(dirty))
      ensures old(Empty()) ==> Empty()
      ensures old(Valid()) && batchScope ==>
                var m := ctx.constants.matrix;
                && m.OrthographicOffCenter? && m.left == box.a.x && m.right == box.b.x
                && m.top == box.a.y && m.bottom == box.b.y && m.near == box.a.z && m.far == box.b.z
    {
      hide Corners, WellFormed, Prescribed, PartSynced, BatchedMode.FlushList, BatchedMode.Queued;
      if dirty || !(!camera.is3D && camera.ortho == box) {
        BatchFlush(false);
        OrthoUpdate(states, camera, ctx, box);
        Install(states, camera.(ortho := box, is3D := false),
                ctx.(constants := ctx.constants.(matrix := OrthoMatrix(box))));
        QuietMeans();
      }
      if old(Valid()) && batchScope {
        SyncedMeans(states, camera, ctx);
      }
    }

    method SetPerspective(eye: Vector3, lookat: Vector3, headup: Vector3, fov: real, aspect: real, znear: real,
                          zfar: real)
      requires Layout()
      modifies this, commandData
      ensures Layout() && (old(Valid()) ==> Valid())
      ensures Abs() == old(Abs()).(camera := CameraStateSet(old(camera).ortho, eye, lookat, headup, fov, aspect, znear,
                                                            zfar, true))
      ensures dirty == old(dirty) && batchScope == old(batchScope)
      ensures Keeps(old(states), old(camera), old(ctx), states, camera, ctx)
      ensures dirty ==> Synced(Camera)
      ensures dirty || old(OpenCommand()) ==> OpenCommand()
      ensures Value() == BatchedMode.Set(old(Value()), Settings(), camera, old(dirty))
      ensures old(Empty()) ==> Empty()
      ensures old(Valid()) && batchScope ==>
                var (m, c) := (ctx.constants.matrix, ctx.constants.camera);
                && m.LookAtPerspective? && m.eye == eye && m.lookat == lookat && m.headup == headup
                && m.fov == fov && m.aspect == aspect && m.znear == znear && m.zfar == zfar
                && c.eye == eye && c.eye.x + c.direction.x == lookat.x
                && c.eye.y + c.direction.y == lookat.y && c.eye.z + c.direction.z == lookat.z
    {
      hide Corners, WellFormed, Prescribed, PartSynced, BatchedMode.FlushList, BatchedMode.Queued;
      if dirty || camera != CameraStateSet(camera.ortho, eye, lookat, headup, fov, aspect, znear, zfar, true) {
        BatchFlush(false);
        PerspectiveUpdate(states, camera, ctx, eye, lookat, headup, fov, aspect, znear, zfar);
        Install(states, CameraStateSet(camera.ortho, eye, lookat, headup, fov, aspect, znear, zfar, true),
                ctx.(constants := ctx.constants.(matrix :=
                                                 LookAtPerspective(eye, lookat, headup, fov, aspect, znear, zfar),
                                                 camera := CameraBlockOf(eye, lookat))));
        QuietMeans();
      }
      if old(Valid()) && batchScope {
        SyncedMeans(states, camera, ctx);
      }
    }

    method SetViewport(box: Box)
      requires Layout()
      modifies this, commandData
      ensures Layout() && (old(Valid()) ==> Valid())
      ensures Abs() == old(Abs()).(states := old(Settings()).(viewport := box))
      ensures dirty == old(dirty) && batchScope == old(batchScope)
      ensures Keeps(old(states), old(camera), old(ctx), states, camera, ctx)
      ensures dirty ==> Synced(Viewport)
      ensures dirty || old(OpenCommand()) ==> OpenCommand()
      ensures Value() == BatchedMode.Set(old(Value()), Settings(), camera, old(dirty))
      ensures old(Empty()) ==> Empty()
      ensures old(Valid()) && batchScope ==>
                ctx.frame.viewport.Some? &&
                var d := ctx.frame.viewport.value;
                && d.topLeftX == box.a.x && d.topLeftX + d.width == box.b.x
                && d.topLeftY == box.a.y && d.topLeftY + d.height == box.b.y
                && d.minDepth == box.a.z && d.maxDepth == box.b.z
    {
      hide Corners, WellFormed, Prescribed, PartSynced, BatchedMode.FlushList, BatchedMode.Queued;
      if dirty || states.viewport != box {
        BatchFlush(false);
        ViewportUpdate(states, camera, ctx, box);
        Install(states.(viewport := box), camera, ctx.(frame := ctx.frame.(viewport := Some(ViewportOf(box)))));
        QuietMeans();
      }
      if old(Valid()) && batchScope {
        SyncedMeans(states, camera, ctx);
      }
    }

    method SetScissorRect(rect: Rect)
      requires Layout()
      modifies this, commandData
      ensures Layout() && (old(Valid()) ==> Valid())
      ensures Abs() == old(Abs()).(states := old(Settings()).(scissorRect := rect))
      ensures dirty == old(dirty) && batchScope == old(batchScope)
      ensures Keeps(old(states), old(camera), old(ctx), states, camera, ctx)
      ensures dirty ==> Synced(Scissor)
      ensures dirty || old(OpenCommand()) ==> OpenCommand()
      ensures Value() == BatchedMode.Set(old(Value()), Settings(), camera, old(dirty))
      ensures old(Empty()) ==> Empty()
      ensures old(Valid()) && batchScope ==>
                ctx.frame.scissor.Some? &&
                var d := ctx.frame.scissor.value;
                && CutTo(d.left, rect.left) && CutTo(d.right, rect.right)
                && CutTo(d.top, rect.top) && CutTo(d.bottom, rect.bottom)
    {
      hide Corners, WellFormed, Prescribed, PartSynced, BatchedMode.FlushList, BatchedMode.Queued;
      if dirty || states.scissorRect != rect {
        BatchFlush(false);
        ScissorUpdate(states, camera, ctx, rect);
        Install(states.(scissorRect := rect), camera, ctx.(frame := ctx.frame.(scissor := Some(ScissorOf(rect)))));
        QuietMeans();
      }
      if old(Valid()) && batchScope {
        SyncedMeans(states, camera, ctx);
      }
    }

    method SetViewportAndScissorRect()
      requires Valid()
      modifies this, commandData
      ensures Valid() && Abs() == old(Abs()) && batchScope == old(batchScope)
      ensures Keeps(old(states), old(camera), old(ctx), states, camera, ctx)
      ensures Synced(Viewport) && Synced(Scissor)
      ensures Value() == BatchedMode.FlushList(old(Value()))
    {
      hide Corners, WellFormed, Prescribed, PartSynced, BatchedMode.FlushList, BatchedMode.Queued;
      BatchedMode.SetAgain(Value());
      MarkDirty(true);
      SetViewport(states.viewport);
      SetScissorRect(states.scissorRect);
      MarkDirty(false);
    }

    method SetVertexColorBlendState(state: VertexColorBlendState)
      requires Layout()
      modifies this, commandData
      ensures Layout() && (old(Valid()) ==> Valid())
      ensures Abs() == old(Abs()).(states := old(Settings()).(vertexColorBlendState := state))
      ensures dirty == old(dirty) && batchScope == old(batchScope)
      ensures Keeps(old(states), old(camera), old(ctx), states, camera, ctx)
      ensures dirty ==> Synced(PixelStage)
      ensures dirty || old(OpenCommand()) ==> OpenCommand()
      ensures Value() == BatchedMode.Set(old(Value()), Settings(), camera, old(dirty))
      ensures old(Empty()) ==> Empty()
      ensures old(Valid()) && batchScope ==>
                && ctx.binding.pixelShader.Some? && ctx.binding.pixelShader.value.BatchPixelShader?
                && ctx.binding.pixelShader.value.blend == state
    {
      hide Corners, WellFormed, Prescribed, PartSynced, BatchedMode.FlushList, BatchedMode.Queued;
      if dirty || states.vertexColorBlendState != state {
        BatchFlush(false);
        VertexColorUpdate(states, camera, ctx, state);
        Install(states.(vertexColorBlendState := state), camera,
                ctx.(binding := ctx.binding.(pixelShader :=
                  Some(BatchPixelShader(state, states.fogState, states.textureAlphaType)))));
        QuietMeans();
      }
      if old(Valid()) && batchScope {
        SyncedMeans(states, camera, ctx);
      }
    }

    method SetFogState(state: FogState, color: Color, densityOrNear: real, far: real)
      requires Layout()
      modifies this, commandData
      ensures Layout() && (old(Valid()) ==> Valid())
      ensures Abs() == old(Abs()).(states := old(Settings()).(fogState := state, fogColor := color, fogNearOrDensity :=
                                                              densityOrNear, fogFar := far))
      ensures dirty == old(dirty) && batchScope == old(batchScope)
      ensures Keeps(old(states), old(camera), old(ctx), states, camera, ctx)
      ensures dirty ==> Synced(VertexStage) && Synced(Fog) && Synced(PixelStage)
      ensures dirty || old(OpenCommand()) ==> OpenCommand()
      ensures Value() == BatchedMode.Set(old(Value()), Settings(), camera, old(dirty))
      ensures old(Empty()) ==> Empty()
      ensures old(Valid()) && batchScope ==>
                && FogMeans(ctx.constants.fog, color, densityOrNear, far)
                && ctx.frame.vertexShader == Some(BatchVertexShader(state))
                && ctx.binding.pixelShader.Some? && ctx.binding.pixelShader.value.BatchPixelShader?
                && ctx.binding.pixelShader.value.fog == state
    {
      hide Corners, WellFormed, Prescribed, PartSynced, BatchedMode.FlushList, BatchedMode.Queued;
      FogDiffers(states, state, color, densityOrNear, far);
      if dirty || states.fogState != state || states.fogColor != color || states.fogNearOrDensity != densityOrNear ||
          states.fogFar != far {
        BatchFlush(false);
        InstallFog(state, color, densityOrNear, far);
        QuietMeans();
        BatchedMode.SetChanges(old(Value()), Settings(), camera, old(dirty));
      }
      if old(Valid()) && batchScope {
        SyncedMeans(states, camera, ctx);
      }
    }

    static lemma FogDiffers(s: RendererStateSet, state: FogState, color: Color, near: real, far: real)
      ensures Plain(s) != Plain(s).(fogState := state, fogColor := color, fogNearOrDensity := near, fogFar := far) <==>
              s.fogState != state || s.fogColor != color || s.fogNearOrDensity != near || s.fogFar != far
    {
    }

    /** The new fog state in the caches, and everything on the device that depends on it. */
    method InstallFog(state: FogState, color: Color, densityOrNear: real, far: real)
      requires Layout() && Quiet()
      modifies this`states, this`camera, this`ctx
      ensures Layout() && Quiet() && (old(Valid()) ==> Valid())
      ensures Abs() == old(Abs()).(states := old(Settings()).(fogState := state, fogColor := color, fogNearOrDensity :=
                                                              densityOrNear, fogFar := far))
      ensures Keeps(old(states), old(camera), old(ctx), states, camera, ctx)
      ensures Synced(VertexStage) && Synced(Fog) && Synced(PixelStage)
      ensures Value() == old(Value()).(state := old(Value()).state.(states := Settings()))
    {
      hide Corners, WellFormed, Prescribed, PartSynced, BatchedMode.FlushList, BatchedMode.Queued;
      FogUpdate(states, camera, ctx, state, color, densityOrNear, far);
      var shader := Some(BatchPixelShader(states.vertexColorBlendState, state, states.textureAlphaType));
      Install(states.(fogState := state, fogColor := color, fogNearOrDensity := densityOrNear, fogFar := far), camera,
              ctx.(frame := ctx.frame.(vertexShader := Some(BatchVertexShader(state))),
                   constants := ctx.constants.(fog := FogBlockOf(color, densityOrNear, far)),
                   binding := ctx.binding.(pixelShader := shader)));
    }

    method SetDepthState(state: DepthState)
      requires Layout()
      modifies this, commandData
      ensures Layout() && (old(Valid()) ==> Valid())
      ensures Abs() == old(Abs()).(states := old(Settings()).(depthState := state))
      ensures dirty == old(dirty) && batchScope == old(batchScope)
      ensures Keeps(old(states), old(camera), old(ctx), states, camera, ctx)
      ensures dirty ==> Synced(Depth)
      ensures dirty || old(OpenCommand()) ==> OpenCommand()
      ensures Value() == BatchedMode.Set(old(Value()), Settings(), camera, old(dirty))
      ensures old(Empty()) ==> Empty()
      ensures old(Valid()) && batchScope ==>
                ctx.frame.depth == Some(state)
    {
      hide Corners, WellFormed, Prescribed, PartSynced, BatchedMode.FlushList, BatchedMode.Queued;
      if dirty || states.depthState != state {
        BatchFlush(false);
        DepthUpdate(states, camera, ctx, state);
        Install(states.(depthState := state), camera, ctx.(frame := ctx.frame.(depth := Some(state))));
        QuietMeans();
      }
      if old(Valid()) && batchScope {
        SyncedMeans(states, camera, ctx);
      }
    }

    method SetBlendState(state: BlendState)
      requires Layout()
      modifies this, commandData
      ensures Layout() && (old(Valid()) ==> Valid())
      ensures Abs() == old(Abs()).(states := old(Settings()).(blendState := state))
      ensures dirty == old(dirty) && batchScope == old(batchScope)
      ensures Keeps(old(states), old(camera), old(ctx), states, camera, ctx)
      ensures dirty ==> Synced(Blend)
      ensures dirty || old(OpenCommand()) ==> OpenCommand()
      ensures Value() == BatchedMode.Set(old(Value()), Settings(), camera, old(dirty))
      ensures old(Empty()) ==> Empty()
      ensures old(Valid()) && batchScope ==>
                ctx.frame.blend == Some(state)
    {
      hide Corners, WellFormed, Prescribed, PartSynced, BatchedMode.FlushList, BatchedMode.Queued;
      if dirty || states.blendState != state {
        BatchFlush(false);
        BlendUpdate(states, camera, ctx, state);
        Install(states.(blendState := state), camera, ctx.(frame := ctx.frame.(blend := Some(state))));
        QuietMeans();
      }
      if old(Valid()) && batchScope {
        SyncedMeans(states, camera, ctx);
      }
    }

    // ----- batches -----

    method MarkDirty(b: bool)
      requires Layout()
      modifies this`dirty
      ensures Layout() && dirty == b && Abs() == old(Abs())
      ensures OpenCommand() == old(OpenCommand()) && Value() == old(Value())
    {
      hide Corners, WellFormed, Prescribed, PartSynced, BatchedMode.FlushList, BatchedMode.Queued;
      dirty := b;
      assert List() == old(List());
    }

    /** InitState, camera. */
    method InitCamera()
      requires Layout() && dirty
      requires Synced(Fixed)
      modifies this, commandData
      ensures Layout() && OpenCommand() && dirty
      ensures Abs() == old(Abs()) && batchScope == old(batchScope)
      ensures Synced(Fixed) && Synced(Camera)
      ensures Value() == BatchedMode.FlushList(old(Value()))
      ensures old(Empty()) ==> Empty()
    {
      hide Corners, WellFormed, Prescribed, PartSynced, BatchedMode.FlushList, BatchedMode.Queued;
      BatchedMode.SetAgain(Value());
      if !camera.is3D {
        SetOrtho(camera.ortho);
      } else {
        SetPerspective(camera.eye, camera.lookat, camera.headup, camera.fov, camera.aspect, camera.znear, camera.zfar);
      }
    }

    /** InitState, viewport and scissor rectangle. */
    method InitRasterizer()
      requires Layout() && dirty
      requires Synced(Fixed) && Synced(Camera)
      modifies this, commandData
      ensures Layout() && OpenCommand() && dirty
      ensures Abs() == old(Abs()) && batchScope == old(batchScope)
      ensures Synced(Fixed) && Synced(Camera) && Synced(Viewport) && Synced(Scissor)
      ensures Value() == BatchedMode.FlushList(old(Value()))
      ensures old(Empty()) ==> Empty()
    {
      hide Corners, WellFormed, Prescribed, PartSynced, BatchedMode.FlushList, BatchedMode.Queued;
      BatchedMode.SetAgain(Value());
      SetViewport(states.viewport);
      SetScissorRect(states.scissorRect);
    }

    /** InitState, shaders, sampler and fog. */
    method InitShaders()
      requires Layout() && dirty
      requires Synced(Fixed) && Synced(Camera) && Synced(Viewport) && Synced(Scissor)
      modifies this, commandData
      ensures Layout() && OpenCommand() && dirty
      ensures Abs() == old(Abs()) && batchScope == old(batchScope)
      ensures Synced(Fixed) && Synced(Camera) && Synced(Viewport) && Synced(Scissor) && Synced(VertexStage) &&
              Synced(PixelStage) && Synced(Fog)
      ensures Value() == BatchedMode.FlushList(old(Value()))
      ensures old(Empty()) ==> Empty()
    {
      hide Corners, WellFormed, Prescribed, PartSynced, BatchedMode.FlushList, BatchedMode.Queued;
      BatchedMode.SetAgain(Value());
      SetVertexColorBlendState(states.vertexColorBlendState);
      ghost var c := ctx;
      ctx := ctx.(binding := ctx.binding.(sampler := Some(Known(states.samplerState))));
      SameDeviceKeeps(states, camera, c, ctx);
      SetFogState(states.fogState, states.fogColor, states.fogNearOrDensity, states.fogFar);
    }

    /** InitState, depth and blend. */
    method InitOutput()
      requires Layout() && dirty
      requires Synced(Fixed) && Synced(Camera) && Synced(Viewport) && Synced(Scissor) && Synced(VertexStage) &&
               Synced(PixelStage) && Synced(Fog)
      modifies this, commandData
      ensures Layout() && OpenCommand() && dirty
      ensures Abs() == old(Abs()) && batchScope == old(batchScope)
      ensures Coherent()
      ensures Value() == BatchedMode.FlushList(old(Value()))
      ensures old(Empty()) ==> Empty()
    {
      hide Corners, WellFormed, Prescribed, PartSynced, BatchedMode.FlushList, BatchedMode.Queued;
      BatchedMode.SetAgain(Value());
      SetDepthState(states.depthState);
      SetBlendState(states.blendState);
      AllParts(states, camera, ctx);
    }

    /** InitState, texture and alpha type. */
    method InitTexture()
      requires Layout() && dirty && OpenCommand() && Coherent()
      modifies this, commandData
      ensures Layout() && OpenCommand() && dirty && Coherent()
      ensures Abs() == old(Abs()) && batchScope == old(batchScope)
      ensures Value() == old(Value())
      ensures old(Empty()) ==> Empty()
    {
      hide Corners, WellFormed, Prescribed, PartSynced, BatchedMode.FlushList, BatchedMode.Queued;
      SetTexture(texture);
      BindAgain(texture);
    }

    /** BindTextureAlphaType as the mesh renderer calls it too. */
    method BindAgain(t: Option<Texture>)
      requires Layout() && Coherent()
      modifies this`ctx, this`states
      ensures Layout() && Coherent() && Abs() == old(Abs())
      ensures OpenCommand() == old(OpenCommand()) && Value() == old(Value())
    {
      hide Corners, WellFormed, Prescribed, PartSynced, BatchedMode.FlushList, BatchedMode.Queued;
      AlphaKeeps(states, camera, ctx, dirty, t);
      BindTextureAlphaType(t);
      assert List() == old(List());
    }

    method InitParts()
      requires Layout() && Synced(Fixed) && dirty
      modifies this, commandData
      ensures Layout() && OpenCommand() && Coherent() && dirty
      ensures Abs() == old(Abs()) && batchScope == old(batchScope)
      ensures Value() == BatchedMode.FlushList(old(Value()))
      ensures old(Empty()) ==> Empty()
    {
      hide Corners, WellFormed, Prescribed, PartSynced, BatchedMode.FlushList, BatchedMode.Queued;
      BatchedMode.FlushTwice(Value());
      InitCamera();
      InitRasterizer();
      InitShaders();
      InitOutput();
    }

    /** Binds everything again from the caches, whatever the device held before. */
    method InitState()
      requires Layout() && Synced(Fixed)
      modifies this, commandData
      ensures Layout() && OpenCommand() && Coherent() && !dirty
      ensures Abs() == old(Abs()) && batchScope == old(batchScope)
      ensures Value() == BatchedMode.FlushList(old(Value()))
      ensures old(Empty()) ==> Empty()
    {
      hide Corners, WellFormed, Prescribed, PartSynced, BatchedMode.FlushList, BatchedMode.Queued;
      MarkDirty(true);
      InitParts();
      InitTexture();
      MarkDirty(false);
    }

    /** The device bindings of a batch. */
    method BindFixedState()
      modifies this`ctx
      ensures ctx == old(ctx).(frame := old(ctx).frame.(fixed := BATCH_STATE)) && FixedMeans(ctx.frame.fixed)
    {
      var f := ctx.frame.fixed.(topology := Some(TriangleList), layout := Some(BatchLayout));
      ctx := ctx.(frame := ctx.frame.(fixed := f));
      SetVertexIndexBuffer();
      f := ctx.frame.fixed.(vertexConstants0 := Some(VpMatrix), vertexConstants1 := Some(WorldMatrix),
                            raster := Some(BatchRaster),
                            pixelConstants0 := Some(CameraPosition), pixelConstants1 := Some(FogData));
      ctx := ctx.(frame := ctx.frame.(fixed := f));
    }

    method BeginBatch()
      requires Layout()
      modifies this, commandData
      ensures Valid() && batchScope && Coherent()
      ensures Abs() == old(Abs())
      ensures Value() == BatchedMode.FlushList(old(Value()))
      ensures old(Empty()) ==> Empty()
    {
      hide Corners, WellFormed, Prescribed, PartSynced, BatchedMode.FlushList, BatchedMode.Queued;
      FixedUpdate(states, camera, ctx);
      BindFixedState();
      assert List() == old(List());
      InitState();
      OpenScope(true);
    }

    method OpenScope(b: bool)
      requires Layout() && (b ==> OpenCommand() && Coherent() && !dirty)
      modifies this`batchScope
      ensures Valid() && batchScope == b && Abs() == old(Abs()) && Coherent() == old(Coherent())
      ensures Value() == old(Value())
    {
      hide Corners, WellFormed, Prescribed, PartSynced, BatchedMode.FlushList, BatchedMode.Queued;
      batchScope := b;
      assert List() == old(List());
    }

    method EndBatch()
      requires Valid()
      modifies this, commandData
      ensures Valid() && !batchScope && Empty()
      ensures Abs() == old(Abs()).(texture := None)
      ensures ctx.shown == Abs().events
      ensures Keeps(old(states), old(camera), old(ctx), states, camera, ctx)
      ensures Value() == BatchedMode.Ended(old(Value()))
    {
      hide Corners, WellFormed, Prescribed, PartSynced, BatchedMode.FlushList, BatchedMode.Queued;
      OpenScope(false);
      BatchFlush(false);
      texture := None;
      assert List() == DrawList([], [], [commandData[0]]);
      OnlyOpen(commandData[0].texture, Settings(), camera, ctx.frame.target);
    }

    method Flush()
      requires Valid()
      modifies this, commandData
      ensures Valid() && Empty() && batchScope == old(batchScope)
      ensures Abs() == old(Abs())
      ensures ctx.shown == Abs().events
      ensures Value() == BatchedMode.FlushList(old(Value()))
    {
      hide Corners, WellFormed, Prescribed, PartSynced, BatchedMode.FlushList, BatchedMode.Queued;
      BatchFlush(false);
    }

    // ----- draw calls -----

    /** Room for a draw call, after a flush if there is none. */
    method MakeRoom(nvert: nat, nidx: nat)
      requires Valid() && batchScope && nvert <= CAPACITY && nidx <= CAPACITY
      modifies this, commandData
      ensures Valid() && batchScope && Abs() == old(Abs())
      ensures vertexSize + nvert <= CAPACITY && indexSize + nidx <= CAPACITY
      ensures Value() == BatchedMode.Room(old(Value()), nvert, nidx)
    {
      hide Corners, WellFormed, Prescribed, PartSynced, BatchedMode.FlushList, BatchedMode.Queued;
      if CAPACITY - vertexSize < nvert || CAPACITY - indexSize < nidx {
        BatchFlush(false);
      }
    }

    /** The counts of a draw call whose vertices and indices are already in place. */
    method Commit(nvert: nat, nidx: nat, ghost verts: seq<Vertex>, ghost idx: seq<Index>)
      requires Valid() && batchScope
      requires vertexSize + nvert <= CAPACITY && indexSize + nidx <= CAPACITY
      requires vertexData[vertexSize..vertexSize + nvert] == verts
      requires indexData[indexSize..indexSize + nidx] == Rebased(commandData[commandSize - 1].vertexCount, idx)
      requires forall k | 0 <= k < |idx| :: idx[k] < |verts|
      modifies this`vertexSize, this`indexSize, commandData
      ensures Valid() && Abs() == ImmediateMode.Draw(old(Abs()), verts, idx)
      ensures Value() == old(Value()).(list := Append(old(List()), verts, idx))
    {
      hide Corners, WellFormed, Prescribed, PartSynced, BatchedMode.FlushList, BatchedMode.Queued;
      ghost var l := List();
      AppendAfter(ctx.shown, l, verts, idx, Settings(), camera, ctx.frame.target);
      AppendWellFormed(l, verts, idx);
      RoomInCommand(l, nvert, nidx);
      Count(nvert, nidx);
      assert List() == Append(l, verts, idx);
    }

    /** Adds to the sizes and to the counts of the open command. */
    method Count(nvert: nat, nidx: nat)
      requires Sized() && commandSize > 0 && vertexSize + nvert <= CAPACITY && indexSize + nidx <= CAPACITY
      requires commandData[commandSize - 1].vertexCount + nvert <= CAPACITY
      requires commandData[commandSize - 1].indexCount + nidx <= CAPACITY
      modifies this`vertexSize, this`indexSize, commandData
      ensures Sized() && vertexSize == old(vertexSize) + nvert && indexSize == old(indexSize) + nidx
      ensures var cmd := old(commandData[commandSize - 1]);
              commandData[..commandSize] == old(commandData[..commandSize])[commandSize - 1 :=
                cmd.(vertexCount := cmd.vertexCount + nvert, indexCount := cmd.indexCount + nidx)]
    {
      var cmd := commandData[commandSize - 1];
      vertexSize := vertexSize + nvert;
      indexSize := indexSize + nidx;
      commandData[commandSize - 1] :=
        cmd.(vertexCount := Wrap16(cmd.vertexCount + nvert), indexCount := Wrap16(cmd.indexCount + nidx));
    }

    /** Vertices and indices of one triangle behind the list. */
    method PutTriangle(v1: Vertex, v2: Vertex, v3: Vertex)
      requires Sized() && commandSize > 0 && vertexSize + 3 <= CAPACITY && indexSize + 3 <= CAPACITY
      modifies vertexData, indexData
      ensures List() == old(List()) && vertexData[vertexSize..vertexSize + 3] == [v1, v2, v3]
      ensures indexData[indexSize..indexSize + 3] == Rebased(commandData[commandSize - 1].vertexCount, [0, 1, 2])
    {
      hide Corners, WellFormed, Prescribed, PartSynced, BatchedMode.FlushList, BatchedMode.Queued;
      var base: nat := commandData[commandSize - 1].vertexCount;
      var (v, i) := (vertexSize, indexSize);
      vertexData[v], vertexData[v + 1], vertexData[v + 2] := v1, v2, v3;
      indexData[i], indexData[i + 1], indexData[i + 2] := base, Wrap16(base + 1), Wrap16(base + 2);
    }

    /** Writing behind the list changes nothing yet. */
    twostate lemma Unmoved()
      requires Sized() && unchanged(this) && unchanged(commandData) && List() == old(List())
      requires old(Valid())
      ensures Valid() && Abs() == old(Abs()) && Value() == old(Value())
    {
    }

    method DrawTriangle(v1: Vertex, v2: Vertex, v3: Vertex)
      requires Valid() && batchScope
      modifies this, vertexData, indexData, commandData
      ensures Valid() && batchScope && Abs() == ImmediateMode.Draw(old(Abs()), [v1, v2, v3], [0, 1, 2])
      ensures Value() == BatchedMode.Drawn(old(Value()), [v1, v2, v3], [0, 1, 2])
    {
      hide Corners, WellFormed, Prescribed, PartSynced, BatchedMode.FlushList, BatchedMode.Queued;
      MakeRoom(3, 3);
      label L:
      PutTriangle(v1, v2, v3);
      Unmoved@L();
      Commit(3, 3, [v1, v2, v3], [0, 1, 2]);
    }

    /** Vertices and indices of one quad behind the list. */
    method PutQuad(v1: Vertex, v2: Vertex, v3: Vertex, v4: Vertex)
      requires Sized() && commandSize > 0 && vertexSize + 4 <= CAPACITY && indexSize + 6 <= CAPACITY
      modifies vertexData, indexData
      ensures List() == old(List()) && vertexData[vertexSize..vertexSize + 4] == [v1, v2, v3, v4]
      ensures indexData[indexSize..indexSize + 6] ==
              Rebased(commandData[commandSize - 1].vertexCount, [0, 1, 2, 0, 2, 3])
    {
      hide Corners, WellFormed, Prescribed, PartSynced, BatchedMode.FlushList, BatchedMode.Queued;
      var v := vertexSize;
      vertexData[v], vertexData[v + 1], vertexData[v + 2], vertexData[v + 3] := v1, v2, v3, v4;
      PutQuadIndices(commandData[commandSize - 1].vertexCount);
    }

    method PutQuadIndices(base: nat)
      requires Sized() && indexSize + 6 <= CAPACITY
      modifies indexData
      ensures indexData[..indexSize] == old(indexData[..indexSize])
      ensures indexData[indexSize..indexSize + 6] == Rebased(base, [0, 1, 2, 0, 2, 3])
    {
      var i := indexSize;
      indexData[i], indexData[i + 1], indexData[i + 2] := Wrap16(base), Wrap16(base + 1), Wrap16(base + 2);
      indexData[i + 3], indexData[i + 4], indexData[i + 5] := Wrap16(base), Wrap16(base + 2), Wrap16(base + 3);
    }

    method DrawQuad(v1: Vertex, v2: Vertex, v3: Vertex, v4: Vertex)
      requires Valid() && batchScope
      modifies this, vertexData, indexData, commandData
      ensures Valid() && batchScope && Abs() == ImmediateMode.Draw(old(Abs()), [v1, v2, v3, v4], [0, 1, 2, 0, 2, 3])
      ensures Value() == BatchedMode.Drawn(old(Value()), [v1, v2, v3, v4], [0, 1, 2, 0, 2, 3])
    {
      hide Corners, WellFormed, Prescribed, PartSynced, BatchedMode.FlushList, BatchedMode.Queued;
      MakeRoom(4, 6);
      label L:
      PutQuad(v1, v2, v3, v4);
      Unmoved@L();
      Commit(4, 6, [v1, v2, v3, v4], [0, 1, 2, 0, 2, 3]);
    }

    method DrawRaw(verts: seq<Vertex>, idx: seq<Index>) returns (ok: bool)
      requires Valid() && batchScope
      requires forall k | 0 <= k < |idx| :: idx[k] < |verts|
      modifies this, vertexData, indexData, commandData
      ensures Valid() && batchScope && ok == (|verts| <= CAPACITY && |idx| <= CAPACITY)
      ensures Abs() == if ok then ImmediateMode.Draw(old(Abs()), verts, idx) else old(Abs())
      ensures Value() == if ok then BatchedMode.Drawn(old(Value()), verts, idx) else old(Value())
    {
      hide Corners, WellFormed, Prescribed, PartSynced, BatchedMode.FlushList, BatchedMode.Queued;
      if |verts| > CAPACITY || |idx| > CAPACITY {
        return false;
      }
      MakeRoom(|verts|, |idx|);
      label L:
      FillVertices(verts);
      FillIndices(idx);
      Unmoved@L();
      Commit(|verts|, |idx|, verts, idx);
      return true;
    }

    /** memcpy of the vertices behind the list. */
    method FillVertices(verts: seq<Vertex>)
      requires Sized() && vertexSize + |verts| <= CAPACITY
      modifies vertexData
      ensures List() == old(List()) && vertexData[vertexSize..vertexSize + |verts|] == verts
    {
      forall k | 0 <= k < |verts| {
        vertexData[vertexSize + k] := verts[k];
      }
    }

    /** The indices behind the list, rebased to the open command. */
    method FillIndices(idx: seq<Index>)
      requires Sized() && commandSize > 0 && indexSize + |idx| <= CAPACITY
      modifies indexData
      ensures List() == old(List())
      ensures indexData[indexSize..indexSize + |idx|] == Rebased(commandData[commandSize - 1].vertexCount, idx)
    {
      var base: nat := commandData[commandSize - 1].vertexCount;
      var k := 0;
      while k < |idx|
        invariant k <= |idx|
        invariant indexData[..indexSize] == old(indexData[..indexSize])
        invariant forall m | 0 <= m < k :: indexData[indexSize + m] == Wrap16(base + idx[m])
        modifies indexData
      {
        indexData[indexSize + k] := Wrap16(base + idx[k]);
        k := k + 1;
      }
    }

    /** The list without the `nvert` vertices and `nidx` indices at its end, which the open
        command already counts. */
    ghost function Without(nvert: nat, nidx: nat): DrawList
      reads this, vertexData, indexData, commandData
      requires Sized() && commandSize > 0 && nvert <= vertexSize && nidx <= indexSize
      requires nvert <= commandData[commandSize - 1].vertexCount && nidx <= commandData[commandSize - 1].indexCount
    {
      var n := commandSize - 1;
      var cmd := commandData[n];
      DrawList(vertexData[..vertexSize - nvert], indexData[..indexSize - nidx],
               commandData[..n] + [cmd.(vertexCount := cmd.vertexCount - nvert, indexCount := cmd.indexCount - nidx)])
    }

    /** Space for a draw call has been handed out and counted, but not yet written; `b` is
        the renderer without that call. */
    ghost predicate Requested(nvert: nat, nidx: nat, b: Batch)
      reads this, vertexData, indexData, commandData
    {
      && Sized() && Buffers().Valid() && batchScope && OpenCommand() && Coherent() && !dirty
      && nvert <= vertexSize && nidx <= indexSize
      && nvert <= commandData[commandSize - 1].vertexCount && nidx <= commandData[commandSize - 1].indexCount
      && WellFormed(Without(nvert, nidx))
      && b == Value().(list := Without(nvert, nidx))
    }

    method DrawRequest(nvert: nat, nidx: nat) returns (ok: bool, vpos: nat, ipos: nat, idxOffset: Index)
      requires Valid() && batchScope && nvert < 0x1_0000 && nidx < 0x1_0000
      modifies this, commandData
      ensures ok == (nvert <= CAPACITY && nidx <= CAPACITY)
      ensures !ok ==> Valid() && batchScope && Abs() == old(Abs()) && Value() == old(Value())
      ensures ok ==> Requested(nvert, nidx, BatchedMode.Room(old(Value()), nvert, nidx))
      ensures ok ==> BatchedMode.Abs(BatchedMode.Room(old(Value()), nvert, nidx)) == old(Abs())
      ensures ok ==> vpos + nvert == vertexSize && ipos + nidx == indexSize
      ensures ok ==> idxOffset + nvert == commandData[commandSize - 1].vertexCount
    {
      hide Corners, WellFormed, Prescribed, PartSynced, BatchedMode.FlushList, BatchedMode.Queued;
      if nvert > CAPACITY || nidx > CAPACITY {
        return false, 0, 0, 0;
      }
      MakeRoom(nvert, nidx);
      ok, vpos, ipos, idxOffset := true, vertexSize, indexSize, commandData[commandSize - 1].vertexCount;
      Reserve(nvert, nidx);
    }

    /** Counts space that is not written yet. */
    method Reserve(nvert: nat, nidx: nat)
      requires Valid() && batchScope && vertexSize + nvert <= CAPACITY && indexSize + nidx <= CAPACITY
      modifies this`vertexSize, this`indexSize, commandData
      ensures Requested(nvert, nidx, old(Value()))
      ensures vertexSize == old(vertexSize) + nvert && indexSize == old(indexSize) + nidx
      ensures commandData[commandSize - 1].vertexCount == old(commandData[commandSize - 1].vertexCount) + nvert
    {
      hide Corners, WellFormed, Prescribed, PartSynced, BatchedMode.FlushList, BatchedMode.Queued;
      ghost var l := List();
      RoomInCommand(l, nvert, nidx);
      Count(nvert, nidx);
      ghost var c := commandData[..commandSize];
      assert c[commandSize - 1] == commandData[commandSize - 1];
      assert Without(nvert, nidx).vertices == l.vertices;
      assert Without(nvert, nidx).indices == l.indices;
      assert Without(nvert, nidx).commands == l.commands;
    }

    /** What the caller of DrawRequest does with the space: its vertices, and its indices moved
        by the offset it was given.  Together they are the draw call. */
    method FillRequest(vpos: nat, ipos: nat, idxOffset: Index, verts: seq<Vertex>, idx: seq<Index>, ghost b: Batch)
      requires Requested(|verts|, |idx|, b)
      requires vpos + |verts| == vertexSize && ipos + |idx| == indexSize
      requires idxOffset + |verts| == commandData[commandSize - 1].vertexCount
      requires forall k | 0 <= k < |idx| :: idx[k] < |verts|
      modifies vertexData, indexData
      ensures Valid() && batchScope && Abs() == ImmediateMode.Draw(BatchedMode.Abs(b), verts, idx)
      ensures b.list.commands != [] && Value() == b.(list := Append(b.list, verts, idx))
    {
      hide Corners, WellFormed, Prescribed, PartSynced, BatchedMode.FlushList, BatchedMode.Queued;
      ghost var l := Without(|verts|, |idx|);
      AppendAfter(ctx.shown, l, verts, idx, Settings(), camera, ctx.frame.target);
      AppendWellFormed(l, verts, idx);
      GrownBack(l, verts, idx);
      WriteRequest(vpos, ipos, idxOffset, verts, idx);
      assert List() == Append(l, verts, idx);
    }

    /** The commands as counted by the request are those of the finished draw call. */
    lemma GrownBack(l: DrawList, verts: seq<Vertex>, idx: seq<Index>)
      requires Sized() && commandSize > 0 && |verts| <= vertexSize && |idx| <= indexSize
      requires |verts| <= commandData[commandSize - 1].vertexCount && |idx| <= commandData[commandSize - 1].indexCount
      requires l == Without(|verts|, |idx|)
      ensures commandData[..commandSize] == Append(l, verts, idx).commands
      ensures l.commands[|l.commands| - 1].texture == commandData[commandSize - 1].texture
    {
    }

    method WriteRequest(vpos: nat, ipos: nat, idxOffset: Index, verts: seq<Vertex>, idx: seq<Index>)
      requires Sized() && vpos + |verts| == vertexSize && ipos + |idx| == indexSize
      modifies vertexData, indexData
      ensures vertexData[..vertexSize] == old(vertexData[..vpos]) + verts
      ensures indexData[..indexSize] == old(indexData[..ipos]) + Rebased(idxOffset, idx)
    {
      var base: nat := idxOffset;
      forall k | 0 <= k < |verts| {
        vertexData[vpos + k] := verts[k];
      }
      forall k | 0 <= k < |idx| {
        indexData[ipos + k] := Wrap16(base + idx[k]);
      }
    }

    // ----- operations that are not batched -----

    method ClearRenderTarget(color: Color)
      requires Valid()
      modifies this, commandData
      ensures Valid() && batchScope == old(batchScope)
      ensures Abs() == ImmediateMode.Clear(old(Abs()), color)
      ensures ctx.shown == Abs().events
      ensures Value() == var (f, t) := (BatchedMode.FlushList(old(Value())), old(ctx.frame.target));
                         if t.color == None then f else BatchedMode.Issued(f, ClearedColor(color, t.color.value))
    {
      hide Corners, WellFormed, Prescribed, PartSynced, BatchedMode.FlushList, BatchedMode.Queued;
      BatchFlush(false);
      if ctx.frame.target.color.Some? {
        IssueNow(ClearedColor(color, ctx.frame.target.color.value));
      }
    }

    method ClearDepthBuffer(z: real)
      requires Valid()
      modifies this, commandData
      ensures Valid() && batchScope == old(batchScope)
      ensures Abs() == ImmediateMode.ClearDepth(old(Abs()), z)
      ensures ctx.shown == Abs().events
      ensures Value() == var (f, t) := (BatchedMode.FlushList(old(Value())), old(ctx.frame.target));
                         if t.depth == None then f else BatchedMode.Issued(f, ClearedDepth(z, t.depth.value))
    {
      hide Corners, WellFormed, Prescribed, PartSynced, BatchedMode.FlushList, BatchedMode.Queued;
      BatchFlush(false);
      if ctx.frame.target.depth.Some? {
        IssueNow(ClearedDepth(z, ctx.frame.target.depth.value));
      }
    }

    /** A command that is not a batched draw, issued with nothing pending. */
    method IssueNow(e: Event)
      requires Layout() && Quiet() && !e.Corner?
      modifies this`ctx
      ensures Layout() && Quiet() && (old(Valid()) ==> Valid())
      ensures Abs() == old(Abs()).(events := old(Abs()).events + [e]) && ctx.shown == Abs().events
      ensures SameDevice(old(ctx), ctx) && ctx.binding == old(ctx).binding
      ensures Value() == BatchedMode.Issued(old(Value()), e)
    {
      hide Corners, WellFormed, Prescribed, PartSynced, BatchedMode.FlushList, BatchedMode.Queued;
      QuietMeans();
      ghost var c := ctx;
      ctx := Issue(ctx, e);
      SameDeviceKeeps(states, camera, c, ctx);
      QuietMeans();
    }

    method SetRenderAttachment(target: Target)
      requires Valid()
      modifies this, commandData
      ensures Valid() && batchScope == old(batchScope)
      ensures Abs() == old(Abs()).(target := target)
      ensures Value() == var f := BatchedMode.FlushList(old(Value())); f.(state := f.state.(target := target))
    {
      hide Corners, WellFormed, Prescribed, PartSynced, BatchedMode.FlushList, BatchedMode.Queued;
      BatchFlush(false);
      TargetUpdate(states, camera, ctx, target);
      ctx := ctx.(frame := ctx.frame.(target := target));
      QuietMeans();
    }

    /** Another renderer's turn, and a new batch. */
    method ForeignPassBetweenBatches(id: nat, left: Frame, binding: Binding, matrix: Matrix, fog: FogBlock)
      requires Layout() && Empty() && !batchScope
      modifies this, commandData
      ensures Valid() && batchScope && Coherent()
      ensures Abs() == old(Abs()).(events := old(Abs()).events + [ForeignPass(id)])
      ensures BatchedMode.Ready(BatchedMode.Issued(old(Value()), ForeignPass(id)))
      ensures Value() == BatchedMode.FlushList(BatchedMode.Issued(old(Value()), ForeignPass(id)))
    {
      hide Corners, WellFormed, Prescribed, PartSynced, BatchedMode.FlushList, BatchedMode.Queued;
      ForeignCommands(id, left, binding, matrix, fog);
      BeginBatch();
    }

    lemma EmptyMeansNothing()
      requires Sized() && WellFormed(List()) && Empty()
      ensures forall settings, c, t :: Pending(List(), settings, c, t) == []
    {
      hide Prescribed;
      forall settings, c, t
        ensures Pending(List(), settings, c, t) == []
      {
        NoIndicesNoCorners([], List().commands, settings, c, t);
      }
    }

    /** Commands of another renderer, in between two batches: the device is left in any state
        but for its target, and the constants but for the camera position. */
    method ForeignCommands(id: nat, left: Frame, binding: Binding, matrix: Matrix, fog: FogBlock)
      requires Layout() && Empty() && !batchScope
      modifies this`ctx
      ensures Layout() && Empty() && !batchScope
      ensures Abs() == old(Abs()).(events := old(Abs()).events + [ForeignPass(id)])
      ensures Value() == BatchedMode.Issued(old(Value()), ForeignPass(id))
    {
      hide Corners, WellFormed, Prescribed, PartSynced, BatchedMode.FlushList, BatchedMode.Queued;
      EmptyMeansNothing();
      ctx := Issue(ctx, ForeignPass(id));
      ctx := ctx.(frame := left.(target := ctx.frame.target), binding := binding,
                  constants := ctx.constants.(matrix := matrix, fog := fog));
      assert List() == DrawList([], [], commandData[..commandSize]);
    }

    /** drawPostEffect: the batch is ended, the effect is drawn on a device state of its own,
        the state is cleared, the target put back and a new batch begun.  Without a colour
        target, or if the effect's data cannot be uploaded, nothing is drawn and no batch is open
        afterwards; in the second case the target is gone too. */
    method DrawPostEffect(id: nat, matrix: nat, fog: FogBlock, left: Frame, uploaded: bool) returns (ok: bool)
      requires Valid() && batchScope
      modifies this, commandData
      ensures Valid() && ok == batchScope && ok == (old(ctx).frame.target.color.Some? && uploaded)
      ensures Abs() == (if old(ctx).frame.target.color.Some? && !uploaded
                        then old(Abs()).(texture := None, target := Target(None, None))
                        else ImmediateMode.PassOnTarget(old(Abs()), id))
      ensures ok ==> Coherent() && Value() == BatchedMode.Passed(old(Value()), id)
      ensures old(ctx).frame.target.color == None ==> Value() == BatchedMode.Ended(old(Value()))
    {
      hide Corners, WellFormed, Prescribed, PartSynced, BatchedMode.FlushList, BatchedMode.Queued;
      EndBatch();
      if ctx.frame.target.color == None {
        return false;
      }
      var cleared := Frame(FixedState(None, None, None, None, None, None, None, None, None),
                           None, None, None, None, None, Target(None, None));
      if !uploaded {
        LeaveCleared(left, Binding(None, None, None));
        return false;
      }
      ForeignPassBetweenBatches(id, cleared, Binding(None, None, None), ForeignMatrix(matrix), fog);
      return true;
    }

    /** Nothing but what had been bound again since the state was cleared. */
    method LeaveCleared(left: Frame, binding: Binding)
      requires Layout() && Empty() && !batchScope
      modifies this`ctx
      ensures Layout() && Empty() && !batchScope
      ensures Abs() == old(Abs()).(target := Target(None, None))
    {
      hide Corners, WellFormed, Prescribed, PartSynced, BatchedMode.FlushList, BatchedMode.Queued;
      EmptyMeansNothing();
      ctx := ctx.(frame := left.(target := Target(None, None)), binding := binding);
      assert List() == DrawList([], [], commandData[..commandSize]);
    }

    /** drawModel: the model sets up stages of its own and leaves them behind. */
    method DrawModel(id: nat, left: Frame, binding: Binding)
      requires Valid() && batchScope
      modifies this, commandData
      ensures Valid() && batchScope && Coherent()
      ensures Abs() == ImmediateMode.Pass(old(Abs()), id)
      ensures Value() == BatchedMode.Passed(old(Value()), id)
    {
      hide Corners, WellFormed, Prescribed, PartSynced, BatchedMode.FlushList, BatchedMode.Queued;
      EndBatch();
      ForeignPassBetweenBatches(id, left, binding, ctx.constants.matrix, ctx.constants.fog);
    }
  }
}
