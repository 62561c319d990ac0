/** A GPU that runs its commands later than they were issued, each at a time of its own, against
    whatever the buffers hold by then. */
module Deferral {
  import opened Helpers
  import opened Graphics
  import opened DrawLists
  import opened UploadRing
  import opened ImmediateMode
  import opened BatchedMode
  import opened FlushSteps

  /** A draw call that brings indices with its vertices, or nothing, or fills the whole list, or
      is refused. */
  predicate Careful(call: Call) {
    IsDraw(call) ==> VerticesOf(call) == [] || IndicesOf(call) != [] || |VerticesOf(call)| >= CAPACITY
  }

  ghost predicate AllCareful(calls: seq<Call>) {
    forall k | 0 <= k < |calls| :: Careful(calls[k])
  }

  ghost predicate Brings(l: DrawList) {
    l.vertices != [] ==> l.indices != [] || |l.vertices| == CAPACITY
  }

  /** Everything issued can still be run, and the next upload will not change that. */
  ghost predicate Safe(b: Batch) {
    Ready(b) && Replays(b.queue, b.ring.store, b.state.events) && Guarded(b.ring) && Brings(b.list)
  }

  /** `r` has issued and stored all that `b` has. */
  ghost predicate Later(b: Batch, r: Batch) {
    b.queue <= r.queue && Grown(b.ring.store, r.ring.store)
  }

  lemma LaterTransitive(b: Batch, c: Batch, d: Batch)
    requires Later(b, c) && Later(c, d)
    ensures Later(b, d)
  {
    GrownTransitive(b.ring.store, c.ring.store, d.ring.store);
  }

  /** The draws of an uploaded list, run against the memory it was uploaded to. */
  lemma {:induction false} QueuedReplays(l: DrawList, j: nat, u: Ring, states: RendererStateSet,
                                         camera: CameraStateSet, target: Target)
    requires WellFormed(l) && j <= |l.commands| && u.store.Valid()
    requires Holds(Last(u.store.vertex), u.vertexOffset, l.vertices) &&
             Holds(Last(u.store.index), u.indexOffset, l.indices)
    ensures Replays(Queued(l, j, u, states, camera, target), u.store, DrawnUpTo(l, j, states, camera, target))
  {
    if j > 0 {
      QueuedReplays(l, j - 1, u, states, camera, target);
      OneMoreReplays(l, j - 1, u, states, camera, target);
    } else {
      assert l.commands[..0] == [];
    }
  }

  lemma OneMoreReplays(l: DrawList, j: nat, u: Ring, states: RendererStateSet, camera: CameraStateSet, target: Target)
    requires WellFormed(l) && j < |l.commands| && u.store.Valid()
    requires Holds(Last(u.store.vertex), u.vertexOffset, l.vertices) &&
             Holds(Last(u.store.index), u.indexOffset, l.indices)
    requires Replays(Queued(l, j, u, states, camera, target), u.store, DrawnUpTo(l, j, states, camera, target))
    ensures Replays(Queued(l, j + 1, u, states, camera, target), u.store, DrawnUpTo(l, j + 1, states, camera, target))
  {
    hide WellFormed, Corners, DrawCorners, Prescribed, Replays, AllFetched, ExecutedLater, Queued, DrawnUpTo, Holds,
      VerticesUpTo, IndicesUpTo;
    var (base, start) := (u.vertexOffset + VerticesUpTo(l, j), u.indexOffset + IndicesUpTo(l, j));
    var own := FlushStep(l, j, u, base, start, states, camera, target);
    QueueStep(l, j, u, base, start, states, camera, target);
    var cmd := l.commands[j];
    var (q, drawn) := (Queued(l, j, u, states, camera, target), DrawnUpTo(l, j, states, camera, target));
    if cmd.vertexCount > 0 && cmd.indexCount > 0 {
      var look := Prescribed(states, camera, target, cmd.texture);
      var d := GpuCommand.Draw(cmd.indexCount, start, base, |u.store.vertex| - 1, |u.store.index| - 1, look);
      OneDraw(cmd.indexCount, start, base, u.store, look, own);
      ReplaysConcat(q, [d], u.store, drawn, own);
    } else {
      assert q + [] == q && drawn + [] == drawn;
    }
  }

  /** A draw of the current memory. */
  lemma OneDraw(count: nat, start: nat, base: nat, s: Store, look: Look, own: seq<Event>)
    requires s.Valid() && own == DrawCorners(Last(s.vertex), Last(s.index), count, start, base, look) && AllFetched(own)
    ensures Replays([GpuCommand.Draw(count, start, base, |s.vertex| - 1, |s.index| - 1, look)], s, own)
  {
    hide DrawCorners;
    OneReplays(GpuCommand.Draw(count, start, base, |s.vertex| - 1, |s.index| - 1, look), s);
  }

  lemma OneReplays(c: GpuCommand, s: Store)
    requires c.Draw? ==> c.vertexVersion < |s.vertex| && c.indexVersion < |s.index|
    requires AllFetched(Executed(c, s))
    ensures Replays([c], s, Executed(c, s))
  {
    hide Executed;
    assert [c][..0] == [] && ExecutedLater([], s) == [];
    assert [] + Executed(c, s) == Executed(c, s);
  }

  lemma FlushSafe(b: Batch)
    requires Safe(b)
    ensures Safe(FlushList(b)) && Later(b, FlushList(b))
  {
    hide WellFormed, Corners, Prescribed, Queued, ExecutedLater;
    var (s, l) := (b.state, b.list);
    var u := Uploaded(b.ring, l.vertices, l.indices);
    EmptyHalves(l);
    UploadHolds(b.ring, l.vertices, l.indices);
    UploadReplays(b.ring, l.vertices, l.indices, b.queue, s.events);
    UploadGrows(b.ring, l.vertices, l.indices);
    FlushKeepsGuarded(b.ring, l.vertices, l.indices);
    QueuedReplays(l, |l.commands|, u, s.states, s.camera, s.target);
    assert l.commands[..|l.commands|] == l.commands;
    ReplaysConcat(b.queue, Queued(l, |l.commands|, u, s.states, s.camera, s.target), u.store, s.events,
                  Pending(l, s.states, s.camera, s.target));
  }

  lemma EmptyHalves(l: DrawList)
    requires WellFormed(l) && Brings(l)
    ensures |l.vertices| <= CAPACITY && |l.indices| <= CAPACITY
    ensures if l.vertices == [] then l.indices == [] else l.indices != [] || |l.vertices| == CAPACITY
  {
    NoVerticesNoIndices(l.indices, l.commands);
  }

  lemma IssuedSafe(b: Batch, e: Event)
    requires Safe(b) && !e.Corner?
    ensures Safe(Issued(b, e)) && Later(b, Issued(b, e))
  {
    hide WellFormed;
    OneReplays(Immediate(e), b.ring.store);
    ReplaysConcat(b.queue, [Immediate(e)], b.ring.store, b.state.events, [e]);
  }

  lemma TextureSetSafe(b: Batch, t: Option<Texture>)
    requires Safe(b)
    ensures Safe(TextureSet(b, t)) && Later(b, TextureSet(b, t))
  {
    hide WellFormed, FlushList, Replays;
    if |b.list.commands| == COMMAND_CAPACITY {
      FlushSafe(b);
    }
  }

  lemma DrawnSafe(b: Batch, verts: seq<Vertex>, idx: seq<Index>)
    requires InBatch(b) && |verts| <= CAPACITY && |idx| <= CAPACITY && forall k | 0 <= k < |idx| :: idx[k] < |verts|
    requires Safe(b) && (verts == [] || idx != [] || |verts| == CAPACITY)
    ensures Safe(Drawn(b, verts, idx)) && Later(b, Drawn(b, verts, idx))
  {
    hide WellFormed, FlushList, Replays;
    FlushSafe(b);
    EmptyHalves(b.list);
    var c := Room(b, |verts|, |idx|);
    assert Safe(c) && Later(b, c);
    assert verts == [] ==> idx == [] by {
      assert idx != [] ==> idx[0] < |verts|;
    }
  }

  lemma PassedSafe(b: Batch, id: nat)
    requires Safe(b)
    ensures Safe(Passed(b, id)) && Later(b, Passed(b, id))
  {
    hide WellFormed, FlushList, Replays;
    FlushSafe(b);
    var e := Ended(b);
    IssuedSafe(e, ForeignPass(id));
    var i := Issued(e, ForeignPass(id));
    FlushSafe(i);
    LaterTransitive(b, e, i);
    LaterTransitive(b, i, FlushList(i));
  }

  /** Whatever a careful call does, everything issued so far can still be run later. */
  lemma StepSafe(b: Batch, call: Call)
    requires InBatch(b) && Safe(b) && Drawable(call) && Careful(call)
    ensures Safe(BatchStep(b, call)) && Later(b, BatchStep(b, call))
  {
    hide WellFormed, FlushList, Safe, Later, Passed, Drawn, TextureSet, Issued;
    LaterSelf(b);
    if IsDraw(call) {
      if !Refused(call) {
        DrawnSafe(b, VerticesOf(call), IndicesOf(call));
      }
    } else if call.ClearRenderTarget? || call.ClearDepthBuffer? || call.DrawModel? || call.DrawPostEffect? {
      PassesSafe(b, call);
    } else if call.SetTexture? {
      TextureSetSafe(b, call.texture);
    } else if call.NextBatch? {
      NextBatchSafe(b);
    } else {
      FlushSafe(b);
      SetSafe(b, ImmediateMode.Step(b.state, call));
      if call.SetRenderAttachment? {
        StateSafe(b, FlushList(b), FlushList(b).state.(target := call.target));
      }
    }
  }

  lemma NextBatchSafe(b: Batch)
    requires Safe(b)
    ensures Safe(FlushList(Ended(b))) && Later(b, FlushList(Ended(b)))
  {
    hide WellFormed, FlushList, Later;
    FlushSafe(b);
    StateSafe(b, FlushList(b), Ended(b).state);
    FlushSafe(Ended(b));
    LaterTransitive(b, Ended(b), FlushList(Ended(b)));
  }

  lemma PassesSafe(b: Batch, call: Call)
    requires Safe(b) && InBatch(b)
    requires call.ClearRenderTarget? || call.ClearDepthBuffer? || call.DrawModel? || call.DrawPostEffect?
    ensures Safe(BatchStep(b, call)) && Later(b, BatchStep(b, call))
  {
    hide WellFormed, FlushList, Safe, Later, Passed, Issued;
    FlushSafe(b);
    match call
    case ClearRenderTarget(color) =>
      if b.state.target.color.Some? {
        StepIssued(b, ClearedColor(color, b.state.target.color.value));
      }
    case ClearDepthBuffer(z) =>
      if b.state.target.depth.Some? {
        StepIssued(b, ClearedDepth(z, b.state.target.depth.value));
      }
    case DrawModel(id, _, _) => PassedSafe(b, id);
    case DrawPostEffect(id, _, _) =>
      PassedSafe(b, id);
      StateSafe(b, FlushList(b), Ended(b).state);
  }

  /** What the next draw is drawn with does not matter to those issued. */
  lemma StateSafe(b: Batch, r: Batch, s: State)
    requires Safe(r) && Later(b, r) && s.events == r.state.events
    ensures Safe(r.(state := s)) && Later(b, r.(state := s))
  {
  }

  lemma SetSafe(b: Batch, s: State)
    requires Safe(b)
    ensures Safe(Set(b, s.states, s.camera, false)) && Later(b, Set(b, s.states, s.camera, false))
  {
    hide WellFormed, FlushList, Later;
    LaterSelf(b);
    FlushSafe(b);
    StateSafe(b, FlushList(b), FlushList(b).state.(states := s.states, camera := s.camera));
  }

  lemma StepIssued(b: Batch, e: Event)
    requires Safe(b) && !e.Corner?
    ensures Safe(Issued(FlushList(b), e)) && Later(b, Issued(FlushList(b), e))
  {
    hide WellFormed, FlushList, Replays;
    FlushSafe(b);
    IssuedSafe(FlushList(b), e);
    LaterTransitive(b, FlushList(b), Issued(FlushList(b), e));
  }

  /** So it is for whole runs of careful calls. */
  lemma {:induction false} RunSafe(b: Batch, calls: seq<Call>)
    requires InBatch(b) && Safe(b) && AllDrawable(calls) && AllCareful(calls)
    ensures Safe(BatchRun(b, calls)) && Later(b, BatchRun(b, calls))
    decreases |calls|
  {
    hide Safe, Later, BatchStep;
    if calls == [] {
      LaterSelf(b);
    } else {
      var c := BatchStep(b, calls[0]);
      StepSafe(b, calls[0]);
      RunSafe(c, calls[1..]);
      LaterTransitive(b, c, BatchRun(c, calls[1..]));
    }
  }

  lemma LaterSelf(b: Batch)
    ensures Later(b, b)
  {
  }

  // ----- a time for every command -----

  /** The renderer after the first `n` calls of a run. */
  ghost function At(b: Batch, calls: seq<Call>, n: nat): (r: Batch)
    requires InBatch(b) && AllDrawable(calls) && n <= |calls|
    ensures InBatch(r)
  {
    BatchRun(b, calls[..n])
  }

  /** Every command is run after some call of the run, when it had been issued. */
  ghost predicate Possible(b: Batch, calls: seq<Call>, times: seq<nat>)
    requires InBatch(b) && AllDrawable(calls)
  {
    && |times| == |BatchRun(b, calls).queue|
    && forall k | 0 <= k < |times| :: times[k] <= |calls| && k < |At(b, calls, times[k]).queue|
  }

  /** What the first `n` commands show when each is run at its time. */
  ghost function ExecutedAt(b: Batch, calls: seq<Call>, times: seq<nat>, n: nat): seq<Event>
    requires InBatch(b) && AllDrawable(calls) && Possible(b, calls, times) && n <= |times|
  {
    if n == 0 then []
    else
      ExecutedAt(b, calls, times, n - 1) +
      Executed(BatchRun(b, calls).queue[n - 1], At(b, calls, times[n - 1]).ring.store)
  }

  lemma {:induction false} RunSplits(b: Batch, calls: seq<Call>, n: nat)
    requires InBatch(b) && AllDrawable(calls) && n <= |calls|
    ensures BatchRun(b, calls) == BatchRun(At(b, calls, n), calls[n..])
    decreases |calls|
  {
    hide BatchStep;
    if n == 0 {
      assert calls[..0] == [] && calls[0..] == calls;
    } else {
      assert calls[..n][0] == calls[0] && calls[..n][1..] == calls[1..][..n - 1] && calls[1..][n - 1..] == calls[n..];
      RunSplits(BatchStep(b, calls[0]), calls[1..], n - 1);
    }
  }

  /** A command run when it has been issued shows what it shows at the end of the run. */
  lemma SameAtEnd(b: Batch, calls: seq<Call>, n: nat, k: nat)
    requires InBatch(b) && Safe(b) && AllDrawable(calls) && AllCareful(calls) && n <= |calls|
    requires k < |At(b, calls, n).queue|
    ensures k < |BatchRun(b, calls).queue|
    ensures Executed(BatchRun(b, calls).queue[k], At(b, calls, n).ring.store) ==
            Executed(BatchRun(b, calls).queue[k], BatchRun(b, calls).ring.store)
  {
    hide WellFormed, BatchStep, BatchRun;
    var (m, r) := (At(b, calls, n), BatchRun(b, calls));
    assert AllDrawable(calls[..n]) && AllDrawable(calls[n..]) && AllCareful(calls[..n]) && AllCareful(calls[n..]);
    RunSplits(b, calls, n);
    RunSafe(b, calls[..n]);
    RunSafe(m, calls[n..]);
    assert m.queue[k] == r.queue[k];
    PartFetched(m.queue, k, m.ring.store);
    ExecutedGrows(m.queue[k], m.ring.store, r.ring.store);
  }

  lemma {:induction false} PartFetched(queue: seq<GpuCommand>, k: nat, s: Store)
    requires k < |queue| && AllFetched(ExecutedLater(queue, s))
    ensures AllFetched(Executed(queue[k], s))
  {
    hide Executed;
    var n := |queue| - 1;
    var (a, c) := (ExecutedLater(queue[..n], s), Executed(queue[n], s));
    assert forall i | 0 <= i < |a| :: (a + c)[i] == a[i];
    assert forall i | 0 <= i < |c| :: (a + c)[|a| + i] == c[i];
    if k < n {
      PartFetched(queue[..n], k, s);
    }
  }

  lemma {:induction false} ExecutedAtIsLater(b: Batch, calls: seq<Call>, times: seq<nat>, n: nat)
    requires InBatch(b) && Safe(b) && AllDrawable(calls) && AllCareful(calls) && Possible(b, calls, times) &&
             n <= |times|
    ensures ExecutedAt(b, calls, times, n) ==
            ExecutedLater(BatchRun(b, calls).queue[..n], BatchRun(b, calls).ring.store)
  {
    hide BatchRun, Executed;
    var r := BatchRun(b, calls);
    if n > 0 {
      ExecutedAtIsLater(b, calls, times, n - 1);
      SameAtEnd(b, calls, times[n - 1], n - 1);
      assert r.queue[..n][..n - 1] == r.queue[..n - 1];
    }
  }

  ghost predicate AtAllTimes(b: Batch, calls: seq<Call>, shown: seq<Event>)
    requires InBatch(b) && AllDrawable(calls)
  {
    forall times | Possible(b, calls, times) :: ExecutedAt(b, calls, times, |times|) == shown
  }

  /** Every command at a time of its own, any time from its issue on: together they show exactly
      what a GPU does that runs each at once. */
  lemma AtAnyTimes(b: Batch, calls: seq<Call>)
    requires InBatch(b) && Safe(b) && AllDrawable(calls) && AllCareful(calls)
    ensures AtAllTimes(b, calls, BatchRun(b, calls).state.events)
  {
    hide BatchRun, Executed;
    RunSafe(b, calls);
    var r := BatchRun(b, calls);
    forall times | Possible(b, calls, times)
      ensures ExecutedAt(b, calls, times, |times|) == r.state.events
    {
      ExecutedAtIsLater(b, calls, times, |times|);
      assert r.queue[..|times|] == r.queue;
    }
  }

  // ----- the draw calls that cannot be put off -----

  /** Indices with all vertices. */
  predicate Complete(call: Call) {
    IsDraw(call) ==> VerticesOf(call) == [] || IndicesOf(call) != []
  }

  /** A run of one draw call, any number of times, and of calls that are complete. */
  ghost predicate Mixed(calls: seq<Call>, c: Call) {
    AllDrawable(calls) && forall k | 0 <= k < |calls| :: calls[k] == c || Complete(calls[k])
  }

  const ELSEWHERE: Vertex := Vertex(1.0, 0.0, 0.0, 0, 0.0, 0.0)

  /** A list full of vertices, the second of them elsewhere. */
  function Full(): seq<Vertex> { seq(CAPACITY, k requires 0 <= k < CAPACITY => if k == 1 then ELSEWHERE else ORIGIN) }

  function Opening(): Call { DrawRaw(Full(), [1, 1, 1]) }
  function Closing(): Call { DrawRaw([ORIGIN], [0, 0, 0]) }

  /** A full list; then the call by itself, which restarts the ring but discards no indices; then
      one more triangle, whose indices are written over those of the first. */
  function SpoiledCalls(c: Call): seq<Call> {
    [Opening(), Call.Flush] + ([c, Call.Flush] + ([Closing(), Call.Flush] + []))
  }

  lemma OpeningAndClosing()
    ensures IsDraw(Opening()) && Drawable(Opening()) && !Refused(Opening()) && Complete(Opening())
    ensures IsDraw(Closing()) && Drawable(Closing()) && !Refused(Closing()) && Complete(Closing())
    ensures VerticesOf(Opening()) == Full() && IndicesOf(Opening()) == [1, 1, 1]
    ensures VerticesOf(Closing()) == [ORIGIN] && IndicesOf(Closing()) == [0, 0, 0]
    ensures |Full()| == CAPACITY && Full()[0] == ORIGIN && Full()[1] == ELSEWHERE
  {
  }

  lemma SpoiledIsMixed(c: Call)
    requires IsDraw(c) && Drawable(c)
    ensures Mixed(SpoiledCalls(c), c)
  {
    hide Opening, Closing;
    OpeningAndClosing();
    var calls := SpoiledCalls(c);
    assert calls == [Opening(), Call.Flush, c, Call.Flush, Closing(), Call.Flush];
    forall k | 0 <= k < |calls|
      ensures Drawable(calls[k]) && (calls[k] == c || Complete(calls[k]))
    {
      assert k == 0 || k == 1 || k == 2 || k == 3 || k == 4 || k == 5;
    }
  }

  /** What is bound for a draw call. */
  function LookFor(s: State): Look { Prescribed(s.states, s.camera, s.target, s.texture) }

  /** A draw call on a fresh list that then is flushed. */
  lemma DrawnAndFlushed(b: Batch, call: Call)
    requires InBatch(b) && IsDraw(call) && Drawable(call) && !Refused(call) && b.list == Fresh(b.state.texture)
    ensures var (v, i, u) := (VerticesOf(call), IndicesOf(call), Uploaded(b.ring, VerticesOf(call), IndicesOf(call)));
            var r := FlushList(BatchStep(b, call));
            && u.Valid()
            && r.ring == Flushed(b.ring, v, i)
            && r.state == b.state.(events := b.state.events + OwnCorners(v, i, LookFor(b.state)))
            && r.list == Fresh(b.state.texture)
            && r.queue == b.queue + if v == [] || i == [] then [] else
                 [GpuCommand.Draw(|i|, u.indexOffset, u.vertexOffset, |u.store.vertex| - 1, |u.store.index| - 1,
                                  LookFor(b.state))]
  {
    hide Corners, CommandCorners, OwnCorners, Prescribed, Uploaded, Queued, WellFormed, BatchStep, Append;
    var (v, i, s) := (VerticesOf(call), IndicesOf(call), b.state);
    DrawnOnFresh(b, call);
    UploadHolds(b.ring, v, i);
    OneCommand(BatchStep(b, call).list, Uploaded(b.ring, v, i), s.states, s.camera, s.target);
  }

  lemma DrawnOnFresh(b: Batch, call: Call)
    requires InBatch(b) && IsDraw(call) && Drawable(call) && !Refused(call) && b.list == Fresh(b.state.texture)
    ensures var (v, i, s) := (VerticesOf(call), IndicesOf(call), b.state);
            var r := BatchStep(b, call);
            && r == b.(list := DrawList(v, i, [DrawCommand(s.texture, |v|, |i|)]))
            && Pending(r.list, s.states, s.camera, s.target) == OwnCorners(v, i, LookFor(s))
  {
    hide Corners, CommandCorners, OwnCorners, Prescribed, WellFormed;
    var (v, i, s) := (VerticesOf(call), IndicesOf(call), b.state);
    OnlyOpen(s.texture, s.states, s.camera, s.target);
    AppendMeansOwn(b.list, v, i, s.states, s.camera, s.target);
    assert [] + v == v && Rebased(0, i) == i;
    assert [DrawCommand(s.texture, 0, 0)][0 := DrawCommand(s.texture, |v|, |i|)] == [DrawCommand(s.texture, |v|, |i|)];
  }

  lemma OneCommand(l: DrawList, u: Ring, states: RendererStateSet, camera: CameraStateSet, target: Target)
    requires |l.commands| == 1 && u.store.Valid()
    ensures Queued(l, 1, u, states, camera, target) ==
            if l.commands[0].vertexCount > 0 && l.commands[0].indexCount > 0
            then [GpuCommand.Draw(l.commands[0].indexCount, u.indexOffset, u.vertexOffset, |u.store.vertex| - 1,
                                  |u.store.index| - 1, Prescribed(states, camera, target, l.commands[0].texture))]
            else []
  {
    assert l.commands[..0] == [];
    assert Queued(l, 0, u, states, camera, target) == [];
  }

  lemma RunPair(b: Batch, call: Call, rest: seq<Call>)
    requires InBatch(b) && Drawable(call) && AllDrawable(rest)
    ensures AllDrawable([call, Call.Flush] + rest)
    ensures BatchRun(b, [call, Call.Flush] + rest) == BatchRun(FlushList(BatchStep(b, call)), rest)
  {
    hide BatchStep, FlushList, BatchRun, Drawable;
    FlushIsDrawable();
    var calls := [call, Call.Flush] + rest;
    assert forall k | 2 <= k < |calls| :: calls[k] == rest[k - 2];
    assert calls[1..] == [Call.Flush] + rest && calls[1..][1..] == rest;
    RunFirst(b, calls);
    RunFirst(BatchStep(b, call), calls[1..]);
    StepFlush(BatchStep(b, call));
  }

  lemma FlushIsDrawable()
    ensures Drawable(Call.Flush)
  {
  }

  lemma StepFlush(b: Batch)
    requires InBatch(b)
    ensures Drawable(Call.Flush) && BatchStep(b, Call.Flush) == FlushList(b)
  {
  }

  lemma RunFirst(b: Batch, calls: seq<Call>)
    requires InBatch(b) && calls != [] && AllDrawable(calls)
    ensures AllDrawable(calls[1..]) && BatchRun(b, calls) == BatchRun(BatchStep(b, calls[0]), calls[1..])
  {
    hide BatchStep, Drawable;
  }

  const NEW_RING: Ring := Ring(Store([map[]], [map[]]), 0, 0)

  lemma FirstUpload(vertices: seq<Vertex>, indices: seq<Index>)
    requires |vertices| == CAPACITY && 0 < |indices| <= CAPACITY
    ensures var (r, u) := (Flushed(NEW_RING, vertices, indices), Uploaded(NEW_RING, vertices, indices));
            && r.Valid() && r.vertexOffset == CAPACITY && r.indexOffset == |indices|
            && u.vertexOffset == 0 && u.indexOffset == 0 && |u.store.vertex| == 1 && |u.store.index| == 1 &&
               r.store == u.store
            && 0 in r.store.vertex[0] && r.store.vertex[0][0] == vertices[0]
  {
  }

  /** Vertices without indices restart the ring and leave the index memory as it is. */
  lemma SecondUpload(r: Ring, vertices: seq<Vertex>)
    requires r.Valid() && r.vertexOffset == CAPACITY && 0 < |vertices| <= CAPACITY
    ensures var t := Flushed(r, vertices, []);
            && t.Valid() && t.vertexOffset == |vertices| && t.indexOffset == 0
            && t.store.index == r.store.index && |t.store.vertex| == |r.store.vertex| + 1
            && t.store.vertex[0] == r.store.vertex[0]
  {
  }

  lemma ThirdUpload(r: Ring, v: Vertex)
    requires r.Valid() && r.vertexOffset < CAPACITY && r.indexOffset == 0 && |r.store.vertex| > 1 &&
             |r.store.index| == 1
    ensures var t := Flushed(r, [v], [0, 0, 0]);
            && |t.store.vertex| > 0 && |t.store.index| == 1 && t.store.vertex[0] == r.store.vertex[0]
            && 0 in t.store.index[0] && t.store.index[0][0] == 0
  {
  }

  /** The three uploads of a spoiled run: the third writes over indices the first has used. */
  lemma SpoiledRing(full: seq<Vertex>, vertices: seq<Vertex>, v: Vertex)
    requires |full| == CAPACITY && 0 < |vertices| < CAPACITY
    ensures var (r1, u1) := (Flushed(NEW_RING, full, [1, 1, 1]), Uploaded(NEW_RING, full, [1, 1, 1]));
            && r1.Valid() && u1.vertexOffset == 0 && u1.indexOffset == 0 && |u1.store.vertex| == 1 &&
               |u1.store.index| == 1
            && var r2 := Flushed(r1, vertices, []);
            && r2.Valid()
            && var s := Flushed(r2, [v], [0, 0, 0]).store;
            && |s.vertex| > 0 && |s.index| > 0
            && Fetch(s.vertex[0], s.index[0], 0, 0) == Some(full[0])
  {
    FirstUpload(full, [1, 1, 1]);
    var r1 := Flushed(NEW_RING, full, [1, 1, 1]);
    SecondUpload(r1, vertices);
    ThirdUpload(Flushed(r1, vertices, []), v);
    hide Flushed, Uploaded;
  }

  ghost function DrawnThenFlushed(b: Batch, call: Call): (r: Batch)
    requires InBatch(b) && Drawable(call)
    ensures InBatch(r)
  {
    FlushList(BatchStep(b, call))
  }

  lemma SpoiledUnrolls(s: State, c: Call)
    requires IsDraw(c) && Drawable(c)
    ensures AllDrawable(SpoiledCalls(c)) && Drawable(Opening()) && Drawable(Closing())
    ensures BatchRun(Begun(s), SpoiledCalls(c)) ==
            DrawnThenFlushed(DrawnThenFlushed(DrawnThenFlushed(Begun(s), Opening()), c), Closing())
  {
    hide BatchStep, FlushList, Opening, Closing, Drawable, BatchRun;
    OpeningAndClosing();
    var b := Begun(s);
    var r1 := DrawnThenFlushed(b, Opening());
    var r2 := DrawnThenFlushed(r1, c);
    RunPair(r2, Closing(), []);
    RunPair(r1, c, [Closing(), Call.Flush] + []);
    RunPair(b, Opening(), [c, Call.Flush] + ([Closing(), Call.Flush] + []));
    RunNothing(DrawnThenFlushed(r2, Closing()));
  }

  lemma RunNothing(b: Batch)
    requires InBatch(b)
    ensures BatchRun(b, []) == b
  {
  }

  /** After a spoiled run the first draw reads another vertex than the one it was issued for. */
  lemma SpoiledRun(s: State, c: Call)
    requires IsDraw(c) && Drawable(c) && !Careful(c)
    ensures AllDrawable(SpoiledCalls(c))
    ensures var (r, look) := (BatchRun(Begun(s), SpoiledCalls(c)), LookFor(s));
            && |r.queue| == 2
            && r.queue[0] == GpuCommand.Draw(3, 0, 0, 0, 0, look)
            && |r.ring.store.vertex| > 0 && |r.ring.store.index| > 0
            && Fetch(r.ring.store.vertex[0], r.ring.store.index[0], 0, 0) == Some(ORIGIN)
            && |r.state.events| == 6
            && r.state.events[0] == Corner(Some(ELSEWHERE), look)
  {
    SpoiledUnrolls(s, c);
    hide BatchStep, FlushList, Prescribed, BatchRun, Uploaded, Flushed, Fetch, Opening, Closing, Full, SpoiledCalls,
        Drawable;
    OpeningAndClosing();
    var r := SpoiledStages(Begun(s), c);
    SpoiledRing(Full(), VerticesOf(c), ORIGIN);
  }

  lemma SpoiledStages(b: Batch, c: Call) returns (r: Batch)
    requires InBatch(b) && b.list == Fresh(b.state.texture) && b.ring == NEW_RING && b.queue == [] &&
             b.state.events == []
    requires IsDraw(c) && Drawable(c) && !Careful(c) && Drawable(Opening()) && Drawable(Closing())
    ensures r == DrawnThenFlushed(DrawnThenFlushed(DrawnThenFlushed(b, Opening()), c), Closing())
    ensures Flushed(NEW_RING, Full(), [1, 1, 1]).Valid() &&
            Flushed(Flushed(NEW_RING, Full(), [1, 1, 1]), VerticesOf(c), []).Valid()
    ensures r.ring == Flushed(Flushed(Flushed(NEW_RING, Full(), [1, 1, 1]), VerticesOf(c), []), [ORIGIN], [0, 0, 0])
    ensures |r.queue| == 2 && r.queue[0] == GpuCommand.Draw(3, 0, 0, 0, 0, LookFor(b.state))
    ensures r.state.events == OwnCorners(Full(), [1, 1, 1], LookFor(b.state)) +
            OwnCorners([ORIGIN], [0, 0, 0], LookFor(b.state))
  {
    hide BatchStep, FlushList, Prescribed, Uploaded, Flushed, Opening, Closing, Full, Drawable, OwnCorners;
    OpeningAndClosing();
    DrawnAndFlushed(b, Opening());
    FirstUpload(Full(), [1, 1, 1]);
    var r1 := DrawnThenFlushed(b, Opening());
    DrawnAndFlushed(r1, c);
    NoCorners(VerticesOf(c), LookFor(b.state));
    var r2 := DrawnThenFlushed(r1, c);
    DrawnAndFlushed(r2, Closing());
    r := DrawnThenFlushed(r2, Closing());
  }

  lemma NoCorners(vertices: seq<Vertex>, look: Look)
    ensures OwnCorners(vertices, [], look) == []
  {
  }

  /** Begun, a batch has nothing to go wrong. */
  lemma BegunSafe(s: State)
    ensures Safe(Begun(s))
  {
  }

  /** Run later, the commands of every run of this draw call and of complete calls show what
      they were issued for, exactly when the call is careful. */
  lemma DeferralIff(s: State, c: Call)
    requires IsDraw(c) && Drawable(c)
    ensures (forall calls | Mixed(calls, c) ::
              var r := BatchRun(Begun(s), calls); Replays(r.queue, r.ring.store, r.state.events)) <==> Careful(c)
  {
    hide BatchRun, Replays;
    if Careful(c) {
      forall calls | Mixed(calls, c)
        ensures var r := BatchRun(Begun(s), calls); Replays(r.queue, r.ring.store, r.state.events)
      {
        BegunSafe(s);
        RunSafe(Begun(s), calls);
      }
    } else {
      SpoiledIsMixed(c);
      SpoiledRun(s, c);
      var r := BatchRun(Begun(s), SpoiledCalls(c));
      CornerAt(r.queue[0], r.ring.store, 0);
      NotReplayed(r.queue, r.ring.store, r.state.events);
    }
  }

  lemma NotReplayed(queue: seq<GpuCommand>, s: Store, shown: seq<Event>)
    requires |queue| == 2 && Executed(queue[0], s) != [] && shown != [] && Executed(queue[0], s)[0] != shown[0]
    ensures !Replays(queue, s, shown)
  {
    hide Executed;
    assert queue[..1][..0] == [] && queue[..1][0] == queue[0];
    assert ExecutedLater(queue[..1], s) == ExecutedLater([], s) + Executed(queue[0], s);
  }
}
