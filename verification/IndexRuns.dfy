/** Draw calls whose indices are not all of their own vertices: runs of draw calls and flushes
    under one state, with whatever the GPU then finds in the vertex memory. */
module IndexRuns {
  import opened Helpers
  import opened Graphics
  import opened DrawLists
  import opened UploadRing
  import opened ImmediateMode
  import opened BatchedMode
  import opened Deferral

  datatype RawCall = RawDraw(vertices: seq<Vertex>, indices: seq<Index>) | RawFlush

  /** The list holds one command; `shown` is what the GPU has made of those before. */
  datatype Raw = Raw(vertices: seq<Vertex>, indices: seq<Index>, ring: Ring, shown: seq<Event>)

  ghost predicate Sound(r: Raw) {
    && r.ring.Valid() && KeysBelow(Last(r.ring.store.vertex), CAPACITY)
    && |r.vertices| <= CAPACITY && |r.indices| <= CAPACITY
  }

  /** What the draw of an uploaded list fetches, whatever its indices are. */
  function Fetched(u: Ring, vertices: seq<Vertex>, indices: seq<Index>, look: Look): seq<Event>
    requires u.store.Valid()
  {
    if vertices == [] || indices == [] then []
    else DrawCorners(Last(u.store.vertex), Last(u.store.index), |indices|, u.indexOffset, u.vertexOffset, look)
  }

  ghost function FlushRaw(r: Raw, look: Look): (t: Raw)
    requires Sound(r)
    ensures Sound(t)
  {
    UploadHolds(r.ring, r.vertices, r.indices);
    UploadBelow(r.ring, r.vertices, r.indices);
    var u := Uploaded(r.ring, r.vertices, r.indices);
    Raw([], [], Flushed(r.ring, r.vertices, r.indices), r.shown + Fetched(u, r.vertices, r.indices, look))
  }

  /** Room for a draw call. */
  ghost function RoomRaw(r: Raw, nvert: nat, nidx: nat, look: Look): (t: Raw)
    requires Sound(r)
    ensures Sound(t)
    ensures nvert <= CAPACITY && nidx <= CAPACITY ==> |t.vertices| + nvert <= CAPACITY && |t.indices| + nidx <= CAPACITY
  {
    if CAPACITY - |r.vertices| < nvert || CAPACITY - |r.indices| < nidx then FlushRaw(r, look) else r
  }

  ghost function StepRaw(r: Raw, call: RawCall, look: Look): (t: Raw)
    requires Sound(r)
    ensures Sound(t)
  {
    match call
    case RawFlush => FlushRaw(r, look)
    case RawDraw(v, i) =>
      if |v| > CAPACITY || |i| > CAPACITY then r
      else
        var c := RoomRaw(r, |v|, |i|, look);
        c.(vertices := c.vertices + v, indices := c.indices + Rebased(|c.vertices|, i))
  }

  ghost function RunRaw(r: Raw, calls: seq<RawCall>, look: Look): (t: Raw)
    requires Sound(r)
    ensures Sound(t)
    decreases |calls|
  {
    if calls == [] then r else RunRaw(StepRaw(r, calls[0], look), calls[1..], look)
  }

  const NEW_RAW: Raw := Raw([], [], NEW_RING, [])

  lemma NewIsSound()
    ensures Sound(NEW_RAW)
  {
  }

  /** What an unbatched renderer shows of one call. */
  function OwnOf(call: RawCall, look: Look): seq<Event> {
    if call.RawFlush? || |call.vertices| > CAPACITY || |call.indices| > CAPACITY then []
    else OwnCorners(call.vertices, call.indices, look)
  }

  function OwnOfAll(calls: seq<RawCall>, look: Look): seq<Event> {
    if calls == [] then [] else OwnOf(calls[0], look) + OwnOfAll(calls[1..], look)
  }

  predicate OwnIndices(call: RawCall) {
    call.RawDraw? ==> forall k | 0 <= k < |call.indices| :: call.indices[k] < |call.vertices|
  }

  ghost predicate StaysApart(call: RawCall) {
    call.RawDraw? ==> |call.vertices| > CAPACITY || |call.indices| > CAPACITY || Apart(|call.vertices|, call.indices)
  }

  /** A run of one draw call, any number of times, and of calls with indices of their own. */
  ghost predicate MixedRaw(calls: seq<RawCall>, c: RawCall) {
    forall k | 0 <= k < |calls| :: calls[k] == c || OwnIndices(calls[k])
  }

  /** After the run and a flush, the GPU has shown every call by itself. */
  ghost predicate ShowsOwn(calls: seq<RawCall>, look: Look) {
    Sound(NEW_RAW) && RunRaw(NEW_RAW, calls + [RawFlush], look).shown == OwnOfAll(calls, look)
  }

  // ----- proofs -----

  lemma UploadBelow(r: Ring, vertices: seq<Vertex>, indices: seq<Index>)
    requires r.Valid() && KeysBelow(Last(r.store.vertex), CAPACITY) && |vertices| <= CAPACITY && |indices| <= CAPACITY
    ensures KeysBelow(Last(Uploaded(r, vertices, indices).store.vertex), CAPACITY)
  {
  }

  /** What has been shown, and what the list stands for. */
  ghost predicate Standing(r: Raw, own: seq<Event>, look: Look) {
    && Sound(r) && Apart(|r.vertices|, r.indices)
    && r.shown + OwnCorners(r.vertices, r.indices, look) == own
  }

  /** Indices that stay apart fetch the list's own vertices or, beyond the buffer, nothing. */
  lemma ApartFetched(r: Ring, vertices: seq<Vertex>, indices: seq<Index>, look: Look)
    requires r.Valid() && KeysBelow(Last(r.store.vertex), CAPACITY) && |vertices| <= CAPACITY && |indices| <= CAPACITY
    requires Apart(|vertices|, indices)
    ensures Uploaded(r, vertices, indices).store.Valid()
    ensures Fetched(Uploaded(r, vertices, indices), vertices, indices, look) == OwnCorners(vertices, indices, look)
  {
    UploadHolds(r, vertices, indices);
    UploadBelow(r, vertices, indices);
    ApartFetchedAt(Uploaded(r, vertices, indices), vertices, indices, look);
  }

  lemma ApartFetchedAt(u: Ring, vertices: seq<Vertex>, indices: seq<Index>, look: Look)
    requires u.store.Valid() && KeysBelow(Last(u.store.vertex), CAPACITY) && Apart(|vertices|, indices)
    requires Holds(Last(u.store.vertex), u.vertexOffset, vertices) && Holds(Last(u.store.index), u.indexOffset, indices)
    ensures Fetched(u, vertices, indices, look) == OwnCorners(vertices, indices, look)
  {
    hide Fetch, Holds, KeysBelow;
    ApartNeedsVertices(|vertices|, indices);
    if indices != [] {
      forall k | 0 <= k < |indices|
        ensures Fetch(Last(u.store.vertex), Last(u.store.index), u.vertexOffset, u.indexOffset + k) ==
                if indices[k] < |vertices| then Some(vertices[indices[k]]) else None
      {
        FetchedOne(Last(u.store.vertex), Last(u.store.index), u.vertexOffset, u.indexOffset, vertices, indices, k);
      }
    }
  }

  lemma ApartNeedsVertices(n: nat, indices: seq<Index>)
    requires Apart(n, indices)
    ensures n == 0 ==> indices == []
  {
    assert indices != [] ==> indices[0] < n || CAPACITY <= indices[0] < CAPACITY + n;
  }

  lemma FetchedOne(vm: Memory<Vertex>, im: Memory<Index>, voff: nat, ioff: nat, vertices: seq<Vertex>,
                   indices: seq<Index>, k: nat)
    requires Holds(vm, voff, vertices) && Holds(im, ioff, indices) && KeysBelow(vm, CAPACITY)
    requires k < |indices| && Apart(|vertices|, indices)
    ensures Fetch(vm, im, voff, ioff + k) == if indices[k] < |vertices| then Some(vertices[indices[k]]) else None
  {
    var (slot, at) := (ioff + k, voff + indices[k]);
    assert slot in im && im[slot] == indices[k];
    assert indices[k] < |vertices| ==> at in vm && vm[at] == vertices[indices[k]];
  }

  lemma FlushStands(r: Raw, own: seq<Event>, look: Look)
    requires Standing(r, own, look)
    ensures Standing(FlushRaw(r, look), own, look) && FlushRaw(r, look).shown == own
  {
    ApartFetched(r.ring, r.vertices, r.indices, look);
  }

  lemma DrawStands(r: Raw, call: RawCall, own: seq<Event>, look: Look)
    requires Standing(r, own, look) && call.RawDraw? && StaysApart(call)
    ensures Standing(StepRaw(r, call, look), own + OwnOf(call, look), look)
  {
    hide FlushRaw, OwnCorners;
    FlushStands(r, own, look);
    if OwnOf(call, look) == [] && StepRaw(r, call, look) == r {
      assert own + [] == own;
    } else {
      var c := RoomRaw(r, |call.vertices|, |call.indices|, look);
      ApartTogether(c.vertices, c.indices, call.vertices, call.indices, look);
      assert c.shown + (OwnCorners(c.vertices, c.indices, look) + OwnOf(call, look)) == own + OwnOf(call, look);
    }
  }

  /** Two draw calls in one list. */
  lemma ApartTogether(v: seq<Vertex>, i: seq<Index>, v': seq<Vertex>, i': seq<Index>, look: Look)
    requires |v| + |v'| <= CAPACITY && Apart(|v|, i) && Apart(|v'|, i')
    ensures Apart(|v + v'|, i + Rebased(|v|, i'))
    ensures OwnCorners(v + v', i + Rebased(|v|, i'), look) == OwnCorners(v, i, look) + OwnCorners(v', i', look)
  {
    ApartCorners([], v, v', i, look);
    ApartCorners(v, v', [], i', look);
    assert [] + v + v' == v + v' && v + v' + [] == v + v' && Rebased(0, i) == i;
    CornersSplit(v + v', i, Rebased(|v|, i'), look);
    forall k | 0 <= k < |i'|
      ensures Rebased(|v|, i')[k] == |v| + i'[k]
    {
    }
  }

  lemma CornersSplit(v: seq<Vertex>, a: seq<Index>, b: seq<Index>, look: Look)
    ensures OwnCorners(v, a + b, look) == OwnCorners(v, a, look) + OwnCorners(v, b, look)
  {
  }

  lemma {:induction false} RunStands(r: Raw, calls: seq<RawCall>, own: seq<Event>, look: Look)
    requires Standing(r, own, look) && forall k | 0 <= k < |calls| :: StaysApart(calls[k])
    ensures Standing(RunRaw(r, calls, look), own + OwnOfAll(calls, look), look)
    decreases |calls|
  {
    hide StepRaw, OwnCorners, StaysApart;
    if calls == [] {
      assert own + [] == own;
    } else {
      var c := calls[0];
      if c.RawFlush? {
        StepFlushRaw(r, look);
        FlushStands(r, own, look);
        assert own + OwnOf(c, look) == own;
      } else {
        DrawStands(r, c, own, look);
      }
      RunStands(StepRaw(r, c, look), calls[1..], own + OwnOf(c, look), look);
      assert own + OwnOf(c, look) + OwnOfAll(calls[1..], look) == own + OwnOfAll(calls, look);
    }
  }

  lemma StepFlushRaw(r: Raw, look: Look)
    requires Sound(r)
    ensures StepRaw(r, RawFlush, look) == FlushRaw(r, look)
  {
  }

  lemma {:induction false} RunRawSnoc(r: Raw, calls: seq<RawCall>, call: RawCall, look: Look)
    requires Sound(r)
    ensures RunRaw(r, calls + [call], look) == StepRaw(RunRaw(r, calls, look), call, look)
    decreases |calls|
  {
    hide StepRaw;
    if calls == [] {
      assert calls + [call] == [call] && [call][1..] == [];
      assert RunRaw(r, [call], look) == RunRaw(StepRaw(r, call, look), [], look);
    } else {
      assert (calls + [call])[1..] == calls[1..] + [call];
      RunRawSnoc(StepRaw(r, calls[0], look), calls[1..], call, look);
    }
  }

  lemma ApartShowsOwn(calls: seq<RawCall>, look: Look)
    requires forall k | 0 <= k < |calls| :: StaysApart(calls[k])
    ensures ShowsOwn(calls, look)
  {
    hide StepRaw, RunRaw, FlushRaw;
    NewIsSound();
    assert Standing(NEW_RAW, [], look);
    RunStands(NEW_RAW, calls, [], look);
    RunRawSnoc(NEW_RAW, calls, RawFlush, look);
    FlushStands(RunRaw(NEW_RAW, calls, look), [] + OwnOfAll(calls, look), look);
    StepFlushRaw(RunRaw(NEW_RAW, calls, look), look);
    assert [] + OwnOfAll(calls, look) == OwnOfAll(calls, look);
  }

  // ----- the calls that do not stay apart -----

  /** Vertices for every slot that the call leaves free. */
  function Filler(n: nat): RawCall { RawDraw(seq(n, _ => ORIGIN), []) }

  /** The call before or behind other vertices: behind, if its index comes back by wrapping. */
  function Trespass(c: RawCall, k: nat): seq<RawCall>
    requires c.RawDraw? && |c.vertices| <= CAPACITY && k < |c.indices|
  {
    if c.indices[k] < CAPACITY then [c, Filler(CAPACITY - |c.vertices|)] else [Filler(0x1_0000 - c.indices[k]), c]
  }

  /** Two calls that fit one list, and a flush. */
  lemma TwoInOne(a: RawCall, b: RawCall, look: Look)
    requires Sound(NEW_RAW) && a.RawDraw? && b.RawDraw?
    requires |a.vertices| + |b.vertices| <= CAPACITY && |a.indices| + |b.indices| <= CAPACITY
    ensures var (v, i) := (a.vertices + b.vertices, Rebased(0, a.indices) + Rebased(|a.vertices|, b.indices));
            && Uploaded(NEW_RING, v, i).store.Valid()
            && RunRaw(NEW_RAW, [a, b] + [RawFlush], look).shown == Fetched(Uploaded(NEW_RING, v, i), v, i, look)
    ensures OwnOfAll([a, b], look) == OwnCorners(a.vertices, a.indices, look) + OwnCorners(b.vertices, b.indices, look)
  {
    hide FlushRaw, OwnCorners, Fetched, Uploaded, Rebased, RunRaw, StepRaw;
    RunRawNothing(NEW_RAW, look);
    DrawsInto(NEW_RAW, a, look);
    DrawsInto(StepRaw(NEW_RAW, a, look), b, look);
    var r0 := NEW_RAW;
    var r1 := StepRaw(r0, a, look);
    var r2 := StepRaw(r1, b, look);
    RunRawSnoc(r0, [], a, look);
    RunRawSnoc(r0, [a], b, look);
    RunRawSnoc(r0, [a, b], RawFlush, look);
    StepFlushRaw(r2, look);
    assert [] + [a] == [a] && [a] + [b] == [a, b];
    assert [] + a.vertices == a.vertices && [] + Rebased(0, a.indices) == Rebased(0, a.indices);
    FlushesTo(r2, look);
    assert [a, b][1..] == [b] && [b][1..] == [];
    assert OwnOfAll([b], look) == OwnOf(b, look) + OwnOfAll([], look);
  }

  lemma RunRawNothing(r: Raw, look: Look)
    requires Sound(r)
    ensures RunRaw(r, [], look) == r
  {
  }

  /** A draw call for which there is room. */
  lemma DrawsInto(r: Raw, call: RawCall, look: Look)
    requires Sound(r) && call.RawDraw?
    requires |r.vertices| + |call.vertices| <= CAPACITY && |r.indices| + |call.indices| <= CAPACITY
    ensures StepRaw(r, call, look) ==
            r.(vertices := r.vertices + call.vertices, indices := r.indices + Rebased(|r.vertices|, call.indices))
    ensures |Rebased(|r.vertices|, call.indices)| == |call.indices|
  {
  }

  lemma FlushesTo(r: Raw, look: Look)
    requires Sound(r) && r.shown == [] && r.ring == NEW_RING
    ensures Uploaded(NEW_RING, r.vertices, r.indices).store.Valid()
    ensures FlushRaw(r, look).shown == Fetched(Uploaded(NEW_RING, r.vertices, r.indices), r.vertices, r.indices, look)
  {
    UploadHolds(r.ring, r.vertices, r.indices);
  }

  /** A first upload is found where it was put. */
  lemma FirstFetched(v: seq<Vertex>, i: seq<Index>, k: nat, look: Look)
    requires |v| <= CAPACITY && |i| <= CAPACITY && k < |i| && i[k] < |v|
    ensures Uploaded(NEW_RING, v, i).store.Valid()
    ensures var f := Fetched(Uploaded(NEW_RING, v, i), v, i, look);
            |f| == |i| && f[k] == Corner(Some(v[i[k]]), look)
  {
    UploadHolds(NEW_RING, v, i);
    var u := Uploaded(NEW_RING, v, i);
    hide Uploaded;
    var (slot, at) := (u.indexOffset + k, u.vertexOffset + i[k]);
    assert slot in Last(u.store.index) && Last(u.store.index)[slot] == i[k];
    assert at in Last(u.store.vertex) && Last(u.store.vertex)[at] == v[i[k]];
  }

  lemma TrespassSeen(c: RawCall, k: nat, look: Look)
    requires c.RawDraw? && |c.vertices| <= CAPACITY && |c.indices| <= CAPACITY && k < |c.indices|
    requires !(c.indices[k] < |c.vertices| || CAPACITY <= c.indices[k] < CAPACITY + |c.vertices|)
    ensures MixedRaw(Trespass(c, k), c) && !ShowsOwn(Trespass(c, k), look)
  {
    hide RunRaw, Fetched, Uploaded;
    NewIsSound();
    var calls := Trespass(c, k);
    var (a, b) := (calls[0], calls[1]);
    var (v, i) := (a.vertices + b.vertices, Rebased(0, a.indices) + Rebased(|a.vertices|, b.indices));
    assert calls == [a, b];
    TwoInOne(a, b, look);
    assert i[k] < |v| && |i| == |c.indices|;
    FirstFetched(v, i, k, look);
    assert OwnOfAll(calls, look)[k] == Corner(None, look);
  }

  /** Every run of this draw call and of calls with indices of their own shows every call by
      itself, exactly when the indices of the call stay apart or it is refused. */
  lemma IndexRunsIff(c: RawCall, look: Look)
    requires c.RawDraw?
    ensures (forall calls | MixedRaw(calls, c) :: ShowsOwn(calls, look)) <==> StaysApart(c)
  {
    hide ShowsOwn;
    if StaysApart(c) {
      forall calls | MixedRaw(calls, c)
        ensures ShowsOwn(calls, look)
      {
        assert forall k | 0 <= k < |calls| :: StaysApart(calls[k]);
        ApartShowsOwn(calls, look);
      }
    } else {
      var k :| 0 <= k < |c.indices| &&
               !(c.indices[k] < |c.vertices| || CAPACITY <= c.indices[k] < CAPACITY + |c.vertices|);
      TrespassSeen(c, k, look);
    }
  }

  // ----- the same runs on the batched specification -----

  function CallOf(call: RawCall): Call {
    if call.RawFlush? then Call.Flush else DrawRaw(call.vertices, call.indices)
  }

  function CallsOf(calls: seq<RawCall>): seq<Call> { seq(|calls|, k requires 0 <= k < |calls| => CallOf(calls[k])) }

  /** One command under one state. */
  ghost predicate Matches(b: Batch, r: Raw) {
    && InBatch(b) && Sound(r) && b.ring == r.ring && b.state.events == r.shown
    && b.list == DrawList(r.vertices, r.indices, [DrawCommand(b.state.texture, |r.vertices|, |r.indices|)])
  }

  lemma FlushMatches(b: Batch, r: Raw, look: Look)
    requires Matches(b, r) && look == LookFor(b.state)
    ensures Matches(FlushList(b), FlushRaw(r, look)) && LookFor(FlushList(b).state) == look
  {
    hide Prescribed, OwnCorners, Corners, Fetched;
    OneCommandList(b.list, b.state.states, b.state.camera, b.state.target);
    ApartFetched(r.ring, r.vertices, r.indices, look);
  }

  lemma StepMatches(b: Batch, r: Raw, call: RawCall, look: Look)
    requires Matches(b, r) && look == LookFor(b.state) && Drawable(CallOf(call))
    ensures Matches(BatchStep(b, CallOf(call)), StepRaw(r, call, look)) &&
            LookFor(BatchStep(b, CallOf(call)).state) == look
  {
    hide FlushList, FlushRaw, Prescribed, WellFormed, Matches, BatchStep, StepRaw, LookFor, Append, Rebased;
    assert InBatch(b) && Sound(r) by {
      MatchesMeans(b, r);
    }
    FlushMatches(b, r, look);
    CallSteps(b, r, call, look);
    if call.RawDraw? && |call.vertices| <= CAPACITY && |call.indices| <= CAPACITY {
      RoomMatches(b, r, |call.vertices|, |call.indices|, look);
      MatchesMeans(Room(b, |call.vertices|, |call.indices|), RoomRaw(r, |call.vertices|, |call.indices|, look));
      DrawMatches(Room(b, |call.vertices|, |call.indices|), RoomRaw(r, |call.vertices|, |call.indices|, look), call);
    }
  }

  /** One call on either side. */
  lemma CallSteps(b: Batch, r: Raw, call: RawCall, look: Look)
    requires InBatch(b) && Sound(r) && Drawable(CallOf(call))
    ensures var (s, t) := (BatchStep(b, CallOf(call)), StepRaw(r, call, look));
            if call.RawFlush? then s == FlushList(b) && t == FlushRaw(r, look)
            else if |call.vertices| > CAPACITY || |call.indices| > CAPACITY then s == b && t == r
            else var (c, d) := (Room(b, |call.vertices|, |call.indices|),
                                RoomRaw(r, |call.vertices|, |call.indices|, look));
                 && s == c.(list := Append(c.list, call.vertices, call.indices))
                 && t == d.(vertices := d.vertices + call.vertices,
                            indices := d.indices + Rebased(|d.vertices|, call.indices))
  {
    hide FlushList, FlushRaw, WellFormed, Append, Rebased, Room, RoomRaw;
  }

  lemma MatchesMeans(b: Batch, r: Raw)
    requires Matches(b, r)
    ensures InBatch(b) && Sound(r) && |b.list.vertices| == |r.vertices| && |b.list.indices| == |r.indices|
  {
  }

  lemma RoomMatches(b: Batch, r: Raw, nvert: nat, nidx: nat, look: Look)
    requires Matches(b, r) && look == LookFor(b.state)
    ensures Matches(Room(b, nvert, nidx), RoomRaw(r, nvert, nidx, look))
    ensures LookFor(Room(b, nvert, nidx).state) == look
  {
    hide FlushList, FlushRaw, Prescribed, WellFormed;
    FlushMatches(b, r, look);
  }

  lemma DrawMatches(b: Batch, r: Raw, call: RawCall)
    requires Matches(b, r) && call.RawDraw? && Drawable(CallOf(call))
    requires |r.vertices| + |call.vertices| <= CAPACITY && |r.indices| + |call.indices| <= CAPACITY
    ensures LookFor(b.(list := Append(b.list, call.vertices, call.indices)).state) == LookFor(b.state)
    ensures Matches(b.(list := Append(b.list, call.vertices, call.indices)),
                    r.(vertices := r.vertices + call.vertices, indices :=
                       r.indices + Rebased(|r.vertices|, call.indices)))
  {
    hide WellFormed, Rebased;
    assert IndicesOf(CallOf(call)) == call.indices && VerticesOf(CallOf(call)) == call.vertices;
    AppendWellFormed(b.list, call.vertices, call.indices);
    RebasedLength(|r.vertices|, call.indices);
    var l := Append(b.list, call.vertices, call.indices);
    assert l.commands == [l.commands[0]];
  }

  lemma {:induction false} RawIsBatched(b: Batch, r: Raw, calls: seq<RawCall>, look: Look)
    requires Matches(b, r) && look == LookFor(b.state) && AllDrawable(CallsOf(calls))
    ensures Matches(BatchRun(b, CallsOf(calls)), RunRaw(r, calls, look))
    decreases |calls|
  {
    hide BatchStep, StepRaw, LookFor, CallOf, Drawable;
    if calls != [] {
      assert CallsOf(calls)[0] == CallOf(calls[0]) && CallsOf(calls)[1..] == CallsOf(calls[1..]);
      StepMatches(b, r, calls[0], look);
      RawIsBatched(BatchStep(b, CallOf(calls[0])), StepRaw(r, calls[0], look), calls[1..], look);
    }
  }

  /** With indices of their own, these are the runs of the batched specification. */
  lemma RawRunIsBatched(s: State, calls: seq<RawCall>)
    requires AllDrawable(CallsOf(calls))
    ensures Sound(NEW_RAW)
    ensures RunRaw(NEW_RAW, calls, LookFor(s)).shown == BatchRun(Begun(s), CallsOf(calls)).state.events
  {
    assert Matches(Begun(s), NEW_RAW) && LookFor(Begun(s).state) == LookFor(s);
    RawIsBatched(Begun(s), NEW_RAW, calls, LookFor(s));
  }
}
