/** What the draws of one flush do to the device, command by command. */
module FlushSteps {
  import opened Helpers
  import opened Graphics
  import opened DrawLists
  import opened UploadRing
  import opened Coherence
  import opened BatchedMode

  function SamplerBound(c: Context, s: RendererStateSet, t: Option<Texture>): Context {
    c.(binding := c.binding.(sampler := Some(SamplerOf(t, s.samplerState))))
  }

  /** The pixel shader follows the alpha type of the texture, but is bound only when that
      changes (or everything is to be bound again). */
  function AlphaBound(c: Context, s: RendererStateSet, dirty: bool, t: Option<Texture>): Context {
    if dirty || s.textureAlphaType != AlphaTypeOf(t)
    then c.(binding := c.binding.(pixelShader :=
                                  Some(BatchPixelShader(s.vertexColorBlendState, s.fogState, AlphaTypeOf(t)))))
    else c
  }

  /** The device ready to draw with texture `t`. */
  function Bound(c: Context, s: RendererStateSet, dirty: bool, t: Option<Texture>): Context {
    AlphaBound(SamplerBound(c.(binding := c.binding.(view := ViewOf(t))), s, t), s, dirty, t)
  }

  function Plain(s: RendererStateSet): RendererStateSet { s.(textureAlphaType := Normal) }

  /** Only what a draw binds has changed on the device. */
  predicate SameDevice(c: Context, c': Context) {
    c'.frame == c.frame && c'.constants == c.constants
  }

  predicate SameFrame(c: Context, c': Context) {
    SameDevice(c, c') && c'.store == c.store
  }

  /** Two devices that differ in nothing but what a draw binds, the memory and what was
      issued, and have the same pixel shader, are in step with the caches alike. */
  lemma SameDeviceKeeps(s: RendererStateSet, camera: CameraStateSet, c: Context, c': Context)
    requires SameDevice(c, c') && c'.binding.pixelShader == c.binding.pixelShader
    ensures Keeps(s, camera, c, s, camera, c')
  {
  }

  lemma AlphaKeeps(s: RendererStateSet, camera: CameraStateSet, c: Context, dirty: bool, t: Option<Texture>)
    ensures Keeps(s, camera, c, s.(textureAlphaType := AlphaTypeOf(t)), camera, AlphaBound(c, s, dirty, t))
  {
  }

  lemma BoundKeeps(c: Context, s: RendererStateSet, camera: CameraStateSet, dirty: bool, t: Option<Texture>)
    ensures var s' := s.(textureAlphaType := AlphaTypeOf(t));
            && Keeps(s, camera, c, s', camera, Bound(c, s, dirty, t))
            && (AllSynced(s, camera, c) ==> AllSynced(s', camera, Bound(c, s, dirty, t)))
    ensures SameFrame(c, Bound(c, s, dirty, t))
    ensures Bound(c, s, dirty, t).queue == c.queue && Bound(c, s, dirty, t).shown == c.shown
  {
  }

  /** A coherent device, bound for a texture, draws under exactly the prescribed look. */
  lemma BoundLook(c: Context, s: RendererStateSet, camera: CameraStateSet, dirty: bool, t: Option<Texture>)
    requires AllSynced(s, camera, c)
    ensures LookOf(Bound(c, s, dirty, t)) == Prescribed(Plain(s), camera, c.frame.target, t)
  {
    BoundKeeps(c, s, camera, dirty, t);
    LookWhenSynced(s.(textureAlphaType := AlphaTypeOf(t)), camera, Bound(c, s, dirty, t), t);
  }

  lemma DrawKeeps(s: RendererStateSet, camera: CameraStateSet, c: Context, count: nat, start: nat, base: nat)
    requires c.store.Valid()
    ensures Keeps(s, camera, c, s, camera, DrawIndexed(c, count, start, base))
    ensures SameFrame(c, DrawIndexed(c, count, start, base))
  {
  }

  /** A texture bound and a draw issued on a coherent device. */
  lemma DrawnOne(c: Context, s: RendererStateSet, camera: CameraStateSet, dirty: bool, t: Option<Texture>,
                 count: nat, start: nat, base: nat)
    requires c.store.Valid() && AllSynced(s, camera, c)
    ensures var (s', d) := (s.(textureAlphaType := AlphaTypeOf(t)),
                            DrawIndexed(Bound(c, s, dirty, t), count, start, base));
            var look := Prescribed(Plain(s), camera, c.frame.target, t);
            && SameFrame(c, d)
            && Keeps(s, camera, c, s', camera, d)
            && d.shown == c.shown + DrawCorners(Last(c.store.vertex), Last(c.store.index), count, start, base, look)
            && d.queue == c.queue + [GpuCommand.Draw(count, start, base, |c.store.vertex| - 1, |c.store.index| - 1,
                                                     look)]
  {
    var (s', b) := (s.(textureAlphaType := AlphaTypeOf(t)), Bound(c, s, dirty, t));
    BoundKeeps(c, s, camera, dirty, t);
    BoundLook(c, s, camera, dirty, t);
    DrawKeeps(s', camera, b, count, start, base);
    KeepsTransitive(s, camera, c, s', camera, b, s', camera, DrawIndexed(b, count, start, base));
  }

  /** How far a flush has come from state `s`, `c` to `s'`, `c'`, having drawn `drawn` and
      issued `issued`. */
  ghost predicate Progress(camera: CameraStateSet, s: RendererStateSet, c: Context, s': RendererStateSet, c': Context,
                           drawn: seq<Event>, issued: seq<GpuCommand>) {
    && SameFrame(c, c')
    && Plain(s') == Plain(s)
    && Keeps(s, camera, c, s', camera, c')
    && c'.shown == c.shown + drawn
    && c'.queue == c.queue + issued
  }

  lemma ProgressStart(camera: CameraStateSet, s: RendererStateSet, c: Context)
    ensures Progress(camera, s, c, s, c, [], [])
  {
  }

  /** One more draw. */
  lemma ProgressDraw(camera: CameraStateSet, s: RendererStateSet, c: Context, s': RendererStateSet, c': Context,
                     drawn: seq<Event>, issued: seq<GpuCommand>, dirty: bool, t: Option<Texture>, count: nat,
                     start: nat, base: nat, own: seq<Event>)
    requires c.store.Valid() && AllSynced(s, camera, c)
    requires Progress(camera, s, c, s', c', drawn, issued)
    requires own == DrawCorners(Last(c.store.vertex), Last(c.store.index), count, start, base,
                                Prescribed(Plain(s), camera, c.frame.target, t))
    ensures Progress(camera, s, c, s'.(textureAlphaType := AlphaTypeOf(t)),
                     DrawIndexed(Bound(c', s', dirty, t), count, start, base), drawn + own,
                     issued + [GpuCommand.Draw(count, start, base, |c.store.vertex| - 1, |c.store.index| - 1,
                                               Prescribed(Plain(s), camera, c.frame.target, t))])
  {
    hide Prescribed, DrawCorners, LookOf;
    DrawnOne(c', s', camera, dirty, t, count, start, base);
    KeepsTransitive(s, camera, c, s', camera, c', s'.(textureAlphaType := AlphaTypeOf(t)), camera,
                    DrawIndexed(Bound(c', s', dirty, t), count, start, base));
  }

  /** A whole flush: the memory replaced, the commands drawn, the texture unbound. */
  lemma FlushSummary(camera: CameraStateSet, s0: RendererStateSet, c0: Context, store: Store, s2: RendererStateSet,
                     c2: Context, drawn: seq<Event>, issued: seq<GpuCommand>)
    requires Progress(camera, s0, c0.(store := store), s2, c2, drawn, issued)
    ensures var c3 := c2.(binding := c2.binding.(view := None));
            && SameDevice(c0, c3)
            && Keeps(s0, camera, c0, s2, camera, c3)
            && c3.shown == c0.shown + drawn
            && c3.queue == c0.queue + issued
  {
    var (c1, c3) := (c0.(store := store), c2.(binding := c2.binding.(view := None)));
    SameDeviceKeeps(s0, camera, c0, c1);
    SameDeviceKeeps(s2, camera, c2, c3);
    KeepsTransitive(s0, camera, c0, s0, camera, c1, s2, camera, c2);
    KeepsTransitive(s0, camera, c0, s2, camera, c2, s2, camera, c3);
  }

  /** What command `j` draws, fetched from memory that holds the list; nothing if it is to
      be skipped. */
  lemma CommandFetched(l: DrawList, j: nat, s: Store, voff: nat, ioff: nat, base: nat, start: nat, look: Look)
    requires WellFormed(l) && j < |l.commands| && s.Valid()
    requires Holds(Last(s.vertex), voff, l.vertices) && Holds(Last(s.index), ioff, l.indices)
    requires base == voff + VertexTotal(l.commands[..j]) && start == ioff + IndexTotal(l.commands[..j])
    ensures var cmd := l.commands[j];
            var own := CommandCorners(l.vertices, l.indices, VertexTotal(l.commands[..j]), IndexTotal(l.commands[..j]),
                                      cmd, look);
            && own == DrawCorners(Last(s.vertex), Last(s.index), cmd.indexCount, start, base, look)
            && AllFetched(own)
            && (cmd.vertexCount == 0 || cmd.indexCount == 0 ==> own == [])
            && (cmd.indexCount > 0 ==> |l.indices| > 0)
  {
    var (cmd, v, i) := (l.commands[j], VertexTotal(l.commands[..j]), IndexTotal(l.commands[..j]));
    TotalsSnoc(l.commands, j);
    TotalsAtPrefix(l.commands, j + 1);
    CommandInRange(l, l.commands, j);
    DrawFetchesCommand(Last(s.vertex), Last(s.index), voff, ioff, l.vertices, l.indices, v, i, cmd, look);
    assert cmd.indexCount > 0 ==> l.indices[i] < cmd.vertexCount;
  }

  /** What it adds to the queue. */
  lemma QueueStep(l: DrawList, j: nat, u: Ring, base: nat, start: nat, states: RendererStateSet,
                  camera: CameraStateSet, target: Target)
    requires j < |l.commands| && u.store.Valid()
    requires base == u.vertexOffset + VerticesUpTo(l, j) && start == u.indexOffset + IndicesUpTo(l, j)
    ensures Queued(l, j + 1, u, states, camera, target) ==
            Queued(l, j, u, states, camera, target) +
            if l.commands[j].vertexCount > 0 && l.commands[j].indexCount > 0
            then [GpuCommand.Draw(l.commands[j].indexCount, start, base, |u.store.vertex| - 1, |u.store.index| - 1,
                                  Prescribed(states, camera, target, l.commands[j].texture))]
            else []
  {
  }

  /** One step of the flush loop, seen from the list. */
  lemma FlushStep(l: DrawList, j: nat, u: Ring, base: nat, start: nat, states: RendererStateSet, camera: CameraStateSet,
                  target: Target) returns (own: seq<Event>)
    requires WellFormed(l) && j < |l.commands| && u.store.Valid()
    requires Holds(Last(u.store.vertex), u.vertexOffset, l.vertices) &&
             Holds(Last(u.store.index), u.indexOffset, l.indices)
    requires base == u.vertexOffset + VerticesUpTo(l, j) && start == u.indexOffset + IndicesUpTo(l, j)
    ensures own == DrawCorners(Last(u.store.vertex), Last(u.store.index), l.commands[j].indexCount, start, base,
                               Prescribed(states, camera, target, l.commands[j].texture))
    ensures AllFetched(own)
    ensures l.commands[j].vertexCount == 0 || l.commands[j].indexCount == 0 ==> own == []
    ensures l.commands[j].indexCount > 0 ==> |l.indices| > 0
    ensures VerticesUpTo(l, j + 1) == VerticesUpTo(l, j) + l.commands[j].vertexCount
    ensures IndicesUpTo(l, j + 1) == IndicesUpTo(l, j) + l.commands[j].indexCount
    ensures DrawnUpTo(l, j + 1, states, camera, target) == DrawnUpTo(l, j, states, camera, target) + own
  {
    var look := Prescribed(states, camera, target, l.commands[j].texture);
    own := CommandCorners(l.vertices, l.indices, VertexTotal(l.commands[..j]), IndexTotal(l.commands[..j]),
                          l.commands[j], look);
    CommandFetched(l, j, u.store, u.vertexOffset, u.indexOffset, base, start, look);
    CornersSnoc(l, j, states, camera, target);
    TotalsSnoc(l.commands, j);
  }
}
