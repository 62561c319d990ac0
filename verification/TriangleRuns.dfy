/** Whole runs, triangle by triangle: which draw calls can share a batch with others. */
module TriangleRuns {
  import opened Helpers
  import opened Graphics
  import opened DrawLists
  import opened UploadRing
  import opened ImmediateMode
  import opened BatchedMode
  import opened Deferral
  import opened Triangles

  /** No more room for a vertex, or for a triangle. */
  ghost predicate Closed(l: DrawList) { |l.vertices| == CAPACITY || |l.indices| > CAPACITY - 3 }

  /** Every command is whole triangles, or nothing will be merged into the one that is not. */
  ghost predicate Aligned(l: DrawList) { WholeCommands(l.commands) || Closed(l) }

  predicate WholeCall(call: Call) { IsDraw(call) ==> |IndicesOf(call)| % 3 == 0 }

  /** A draw call that spoils no other: it is whole triangles, or is refused, or leaves no room
      for another one behind it. */
  predicate Clean(call: Call) {
    IsDraw(call) ==>
      Refused(call) || |IndicesOf(call)| % 3 == 0 || |VerticesOf(call)| == CAPACITY || |IndicesOf(call)| > CAPACITY - 3
  }

  // ----- one draw call merged into a list -----

  /** Whole triangles for which there is room behind a list. */
  ghost predicate Joins(l: DrawList, verts: seq<Vertex>, idx: seq<Index>) {
    && |l.vertices| + |verts| <= CAPACITY && |l.indices| + |idx| <= CAPACITY
    && |idx| % 3 == 0 && forall k | 0 <= k < |idx| :: idx[k] < |verts|
  }

  /** Merged into the last command, a draw call shows what both show by themselves. */
  ghost predicate KeepsShapes(l: DrawList, verts: seq<Vertex>, idx: seq<Index>, s: State)
    requires l.commands != []
  {
    var n := |l.commands| - 1;
    PendingShapes(Append(l, verts, idx), n + 1, s) ==
    PendingShapes(l, n + 1, s) + Assemble(OwnCorners(verts, idx,
                                                     Prescribed(s.states, s.camera, s.target, l.commands[n].texture)))
  }

  lemma MergeKeepsShapes(l: DrawList, verts: seq<Vertex>, idx: seq<Index>, s: State)
    requires WellFormed(l) && l.commands != []
    requires |l.vertices| + |verts| <= CAPACITY && |l.indices| + |idx| <= CAPACITY
    requires forall k | 0 <= k < |idx| :: idx[k] < |verts|
    requires idx == [] || l.commands[|l.commands| - 1].indexCount % 3 == 0
    ensures KeepsShapes(l, verts, idx, s)
  {
    hide Assemble, OwnCorners, Prescribed, CornersOf, Append;
    var n := |l.commands| - 1;
    var look := Prescribed(s.states, s.camera, s.target, l.commands[n].texture);
    AppendShapes(l, verts, idx, s);
    var (a, b) := (CornersOf(l, n, s), OwnCorners(verts, idx, look));
    if idx == [] {
      NoCorners(verts, look);
      NothingAssembled();
      assert a + b == a && Assemble(a) + [] == Assemble(a);
    } else {
      AssembleConcat(a, b);
    }
  }

  /** Merging a list's last command with whole triangles keeps the triangles, whatever follows,
      exactly when the command is whole triangles itself or no triangle has room behind it. */
  lemma MergeKeepsTrianglesIff(l: DrawList, s: State)
    requires WellFormed(l) && l.commands != []
    ensures (forall verts, idx | Joins(l, verts, idx) :: KeepsShapes(l, verts, idx, s)) <==>
            (l.commands[|l.commands| - 1].indexCount % 3 == 0 || Closed(l))
  {
    hide Append, PendingShapes, KeepsShapes;
    if l.commands[|l.commands| - 1].indexCount % 3 == 0 || Closed(l) {
      forall verts: seq<Vertex>, idx: seq<Index> | Joins(l, verts, idx)
        ensures KeepsShapes(l, verts, idx, s)
      {
        if idx != [] {
          assert idx[0] < |verts|;
        }
        MergeKeepsShapes(l, verts, idx, s);
      }
    } else {
      var v := MergeSpoils(l, s);
      assert Joins(l, [v], [0, 0, 0]);
    }
  }

  /** A triangle whose corners are not where the last command ends in the middle of one. */
  lemma MergeSpoils(l: DrawList, s: State) returns (v: Vertex)
    requires WellFormed(l) && l.commands != [] && !Closed(l) && l.commands[|l.commands| - 1].indexCount % 3 != 0
    ensures !KeepsShapes(l, [v], [0, 0, 0], s)
  {
    hide Append, Prescribed, CornersOf, PendingShapes, Assemble;
    var n := |l.commands| - 1;
    var (own, look) := (CornersOf(l, n, s), Prescribed(s.states, s.camera, s.target, l.commands[n].texture));
    LastCommand(l);
    CountOfCommand(l, n, s);
    var k := |own| / 3;
    var first := own[3 * k];
    v := if first == Corner(Some(ORIGIN), look) then ELSEWHERE else ORIGIN;
    AppendShapes(l, [v], [0, 0, 0], s);
    var mine := OwnCorners([v], [0, 0, 0], look);
    assert mine == [Corner(Some(v), look), Corner(Some(v), look), Corner(Some(v), look)];
    SpoiledTriangle(own, mine, Corner(Some(v), look), k);
    SameFront(PendingShapes(l, n, s), Assemble(own + mine), Assemble(own) + Assemble(mine));
    assert PendingShapes(l, n, s) + (Assemble(own) + Assemble(mine)) ==
           PendingShapes(l, n, s) + Assemble(own) + Assemble(mine);
  }

  lemma SpoiledTriangle(own: seq<Event>, mine: seq<Event>, e: Event, k: nat)
    requires |own| / 3 == k && |own| % 3 != 0 && mine == [e, e, e] && own[3 * k] != e
    ensures Assemble(own + mine) != Assemble(own) + Assemble(mine)
  {
    AssembleAt(own + mine, k);
    AssembleAt(mine, 0);
    assert (own + mine)[3 * k] == own[3 * k];
    assert (Assemble(own) + Assemble(mine))[k] == Assemble(mine)[0];
  }

  lemma SameFront<T>(front: seq<T>, a: seq<T>, b: seq<T>)
    requires a != b
    ensures front + a != front + b
  {
    assert (front + a)[|front|..] == a && (front + b)[|front|..] == b;
  }

  // ----- calls -----

  /** A batch that shows every call's own triangles, now and with what is merged next. */
  ghost predicate Shaped(b: Batch) {
    InBatch(b) && Safe(b) && Aligned(b.list) && b.list.commands[|b.list.commands| - 1].texture == b.state.texture
  }

  /** Where a list is closed in the middle of a triangle, no other draw call fits. */
  lemma NothingFits(l: DrawList, call: Call)
    requires WellFormed(l) && Closed(l) && !WholeCommands(l.commands)
    requires IsDraw(call) && Drawable(call) && Clean(call) && !Refused(call) && IndicesOf(call) != []
    ensures |l.vertices| + |VerticesOf(call)| > CAPACITY || |l.indices| + |IndicesOf(call)| > CAPACITY
  {
    assert IndicesOf(call)[0] < |VerticesOf(call)|;
    SomethingPending(l);
  }

  lemma SomethingPending(l: DrawList)
    requires WellFormed(l) && !WholeCommands(l.commands)
    ensures l.vertices != [] && l.indices != []
  {
    var k :| 0 <= k < |l.commands| && l.commands[k].indexCount % 3 != 0;
    TotalsSnoc(l.commands, k);
    TotalsAtPrefix(l.commands, k + 1);
    NoVerticesNoIndices(l.indices, l.commands);
  }

  lemma DrawnShapes(b: Batch, call: Call)
    requires Shaped(b) && IsDraw(call) && Drawable(call) && !Refused(call) && Careful(call) && Clean(call)
    ensures Shaped(BatchStep(b, call)) && ShapesOf(BatchStep(b, call)) == ShapesOf(b) + CallShapes(b.state, call)
  {
    hide WellFormed, FlushList, Append, Safe, Aligned, ShapesOf, CallShapes, Room;
    StepSafe(b, call);
    var (verts, idx) := (VerticesOf(call), IndicesOf(call));
    var c := Room(b, |verts|, |idx|);
    RoomShaped(b, |verts|, |idx|);
    JoinsAligned(c.list, call);
    AppendKeepsTexture(c.list, verts, idx);
    AppendedShapes(c, call);
    SameCallShapes(b.state, c.state, call);
  }

  /** What a call shows does not depend on what was shown before. */
  lemma SameCallShapes(s: State, t: State, call: Call)
    requires t == s.(events := t.events)
    ensures CallShapes(s, call) == CallShapes(t, call)
  {
  }

  /** A draw call for which there is room. */
  lemma AppendedShapes(c: Batch, call: Call)
    requires InBatch(c) && c.list.commands[|c.list.commands| - 1].texture == c.state.texture
    requires IsDraw(call) && Drawable(call) && !Refused(call)
    requires |c.list.vertices| + |VerticesOf(call)| <= CAPACITY && |c.list.indices| + |IndicesOf(call)| <= CAPACITY
    requires IndicesOf(call) == [] || c.list.commands[|c.list.commands| - 1].indexCount % 3 == 0
    ensures ShapesOf(c.(list := Append(c.list, VerticesOf(call), IndicesOf(call)))) ==
            ShapesOf(c) + CallShapes(c.state, call)
  {
    hide WellFormed, Append, Prescribed, OwnCorners, Assemble, PendingShapes, Assembled;
    MergeKeepsShapes(c.list, VerticesOf(call), IndicesOf(call), c.state);
    AppendKeepsTexture(c.list, VerticesOf(call), IndicesOf(call));
  }

  lemma AppendKeepsTexture(l: DrawList, verts: seq<Vertex>, idx: seq<Index>)
    requires l.commands != []
    ensures var m := Append(l, verts, idx);
            |m.commands| == |l.commands| && m.commands[|m.commands| - 1].texture == l.commands[|l.commands| - 1].texture
  {
  }

  lemma RoomShaped(b: Batch, nvert: nat, nidx: nat)
    requires Shaped(b)
    ensures Shaped(Room(b, nvert, nidx)) && ShapesOf(Room(b, nvert, nidx)) == ShapesOf(b)
    ensures Room(b, nvert, nidx).state == b.state.(events := Room(b, nvert, nidx).state.events)
  {
    hide WellFormed, FlushList, ShapesOf;
    FlushShaped(b);
  }

  lemma FlushShaped(b: Batch)
    requires Shaped(b)
    ensures Shaped(FlushList(b)) && ShapesOf(FlushList(b)) == ShapesOf(b)
  {
    hide WellFormed, FlushList, ShapesOf;
    FlushSafe(b);
    FlushShapes(b);
  }

  /** After a clean draw call the list is aligned again, and the command it went into was whole. */
  lemma JoinsAligned(l: DrawList, call: Call)
    requires WellFormed(l) && l.commands != [] && Aligned(l)
    requires IsDraw(call) && Drawable(call) && Clean(call) && !Refused(call) && Careful(call)
    requires |l.vertices| + |VerticesOf(call)| <= CAPACITY && |l.indices| + |IndicesOf(call)| <= CAPACITY
    ensures IndicesOf(call) == [] || l.commands[|l.commands| - 1].indexCount % 3 == 0
    ensures Aligned(Append(l, VerticesOf(call), IndicesOf(call)))
  {
    hide WellFormed, WholeCommands, Append;
    var (verts, idx) := (VerticesOf(call), IndicesOf(call));
    AppendedCounts(l, verts, idx);
    if !WholeCommands(l.commands) {
      SomethingPending(l);
      if idx != [] {
        NothingFits(l, call);
      }
    } else {
      LastIsWhole(l);
      if |idx| % 3 == 0 {
        WholeAppend(l, verts, idx);
      }
    }
  }

  lemma LastIsWhole(l: DrawList)
    requires l.commands != [] && WholeCommands(l.commands)
    ensures l.commands[|l.commands| - 1].indexCount % 3 == 0
  {
  }

  lemma AppendedCounts(l: DrawList, verts: seq<Vertex>, idx: seq<Index>)
    requires l.commands != []
    ensures var m := Append(l, verts, idx);
            |m.vertices| == |l.vertices| + |verts| && |m.indices| == |l.indices| + |idx|
  {
  }

  lemma WholeAppend(l: DrawList, verts: seq<Vertex>, idx: seq<Index>)
    requires WellFormed(l) && l.commands != [] && WholeCommands(l.commands) && |idx| % 3 == 0
    requires |l.vertices| + |verts| <= CAPACITY && |l.indices| + |idx| <= CAPACITY
    ensures WholeCommands(Append(l, verts, idx).commands)
  {
    hide WellFormed, Rebased;
    var (m, n) := (Append(l, verts, idx), |l.commands| - 1);
    RoomInCommand(l, |verts|, |idx|);
    assert m.commands[n].indexCount == l.commands[n].indexCount + |idx|;
    assert forall k | 0 <= k < n :: m.commands[k] == l.commands[k];
  }

  lemma TextureShaped(b: Batch, t: Option<Texture>)
    requires Shaped(b)
    ensures Shaped(TextureSet(b, t)) && ShapesOf(TextureSet(b, t)) == ShapesOf(b)
  {
    hide FlushList, Safe, PendingShapes, Assembled;
    TextureSetSafe(b, t);
    var n := |b.list.commands| - 1;
    var kept := IsSame(b.list.commands[n].texture, t);
    var c := if kept then b else NewCommand(b, t);
    if !kept {
      NewCommandShapes(b, t);
    }
    assert TextureSet(b, t) == c.(state := c.state.(texture := Kept(c.state.texture, t)));
    SameShapes(TextureSet(b, t), c);
  }

  lemma NewCommandShapes(b: Batch, t: Option<Texture>)
    requires Shaped(b)
    ensures Aligned(NewCommand(b, t).list) && ShapesOf(NewCommand(b, t)) == ShapesOf(b)
    ensures NewCommand(b, t).list.commands[|NewCommand(b, t).list.commands| - 1].texture == t
    ensures NewCommand(b, t).state.texture == b.state.texture
  {
    hide FlushList, Safe, ShapesOf, Open, Aligned;
    FlushShaped(b);
    assert |b.list.commands| <= COMMAND_CAPACITY;
    OpenedShapes(if |b.list.commands| == COMMAND_CAPACITY then FlushList(b) else b, t);
  }

  lemma OpenedShapes(b: Batch, t: Option<Texture>)
    requires WellFormed(b.list) && |b.list.commands| < COMMAND_CAPACITY && Aligned(b.list)
    ensures var l := Open(b.list, t);
            && Aligned(l) && ShapesOf(b.(list := l)) == ShapesOf(b)
            && l.commands != [] && l.commands[|l.commands| - 1].texture == t
  {
    hide Assembled;
    OpenShapes(b.list, t, b.state);
  }

  /** The current texture counts for the next command only. */
  lemma SameShapes(a: Batch, b: Batch)
    requires a == b.(state := b.state.(texture := a.state.texture, events := a.state.events))
    ensures ShapesOf(a) == ShapesOf(b)
  {
    PendingIgnores(a.list, |a.list.commands|, a.state, b.state);
  }

  lemma {:induction false} PendingIgnores(l: DrawList, j: nat, s: State, t: State)
    requires j <= |l.commands| && t == s.(texture := t.texture, events := t.events)
    ensures PendingShapes(l, j, s) == PendingShapes(l, j, t)
  {
    hide Assemble, Prescribed, CommandCorners;
    if j > 0 {
      PendingIgnores(l, j - 1, s, t);
    }
  }

  /** With nothing pending any state may be set. */
  lemma StateShaped(b: Batch, s: State)
    requires Shaped(b) && b.list == Fresh(b.state.texture) && s.texture == b.state.texture && s.events == b.state.events
    ensures Shaped(b.(state := s)) && ShapesOf(b.(state := s)) == ShapesOf(b)
  {
    hide PendingShapes, Assembled;
    FreshShapes(s.texture, s);
    FreshShapes(s.texture, b.state);
  }

  lemma IssuedShaped(b: Batch, e: Event)
    requires Shaped(b) && !e.Corner?
    ensures Shaped(Issued(FlushList(b), e)) && ShapesOf(Issued(FlushList(b), e)) == ShapesOf(b) + [Other(e)]
  {
    hide FlushList, ShapesOf;
    FlushShaped(b);
    IssuedSafe(FlushList(b), e);
    IssuedShapes(FlushList(b), e, b.state.texture);
  }

  lemma PassedShaped(b: Batch, id: nat)
    requires Shaped(b)
    ensures Shaped(Passed(b, id)) && ShapesOf(Passed(b, id)) == ShapesOf(b) + [Other(ForeignPass(id))]
  {
    hide FlushList, ShapesOf;
    PassedSafe(b, id);
    FlushSafe(b);
    FlushShaped(b);
    SameShapes(Ended(b), FlushList(b));
    IssuedSafe(Ended(b), ForeignPass(id));
    IssuedShapes(Ended(b), ForeignPass(id), b.state.texture);
    FlushShapes(Issued(Ended(b), ForeignPass(id)));
  }

  lemma SetShaped(b: Batch, s: State)
    requires Shaped(b)
    ensures Shaped(Set(b, s.states, s.camera, false)) && ShapesOf(Set(b, s.states, s.camera, false)) == ShapesOf(b)
  {
    hide FlushList, ShapesOf, Safe, Aligned;
    FlushShaped(b);
    StateShaped(FlushList(b), FlushList(b).state.(states := s.states, camera := s.camera));
  }

  /** Every allowed call that is careful and clean shows its own shapes, and nothing else changes. */
  lemma StepShapes(b: Batch, call: Call)
    requires Shaped(b) && Allowed(b.state, call) && Careful(call) && Clean(call)
    ensures Shaped(BatchStep(b, call)) && ShapesOf(BatchStep(b, call)) == ShapesOf(b) + CallShapes(b.state, call)
  {
    hide FlushList, ShapesOf, Safe, Aligned, Passed, Set, TextureSet, Assemble, Issued, Drawn, OwnCorners;
    if IsDraw(call) {
      if Refused(call) {
        NothingAssembled();
      } else {
        DrawnShapes(b, call);
      }
    } else {
      OtherShapes(b, call);
    }
  }

  lemma OtherShapes(b: Batch, call: Call)
    requires Shaped(b) && Allowed(b.state, call) && !IsDraw(call)
    ensures Shaped(BatchStep(b, call)) && ShapesOf(BatchStep(b, call)) == ShapesOf(b) + CallShapes(b.state, call)
  {
    hide ShapesOf, Shaped, CallShapes, BatchStep;
    OneShape(b.state, call);
    if call.ClearRenderTarget? || call.ClearDepthBuffer? {
      ClearShapes(b, call);
    } else if call.DrawModel? || call.DrawPostEffect? {
      PassShapes(b, call);
    } else {
      QuietShapes(b, call);
      assert ShapesOf(b) + [] == ShapesOf(b);
    }
  }

  lemma OneShape(s: State, call: Call)
    requires !IsDraw(call)
    ensures |Emitted(s, call)| <= 1
    ensures CallShapes(s, call) == if Emitted(s, call) == [] then [] else [Other(Emitted(s, call)[0])]
  {
  }

  lemma ClearShapes(b: Batch, call: Call)
    requires Shaped(b) && (call.ClearRenderTarget? || call.ClearDepthBuffer?)
    ensures var e := Emitted(b.state, call);
            Shaped(BatchStep(b, call)) && ShapesOf(BatchStep(b, call)) == ShapesOf(b) + if e == [] then []
                else [Other(e[0])]
  {
    hide FlushList, ShapesOf, Safe, Aligned, Issued;
    FlushShaped(b);
    var e := Emitted(b.state, call);
    if e != [] {
      IssuedShaped(b, e[0]);
    } else {
      assert ShapesOf(b) + [] == ShapesOf(b);
    }
  }

  lemma PassShapes(b: Batch, call: Call)
    requires Shaped(b) && Allowed(b.state, call) && (call.DrawModel? || call.DrawPostEffect?)
    ensures var e := Emitted(b.state, call);
            Shaped(BatchStep(b, call)) && e != [] && ShapesOf(BatchStep(b, call)) == ShapesOf(b) + [Other(e[0])]
  {
    hide FlushList, ShapesOf, Safe, Aligned, Passed;
    PassedShaped(b, if call.DrawModel? then call.model else call.effect);
  }

  lemma NextBatchShaped(b: Batch)
    requires Shaped(b)
    ensures Shaped(FlushList(Ended(b))) && ShapesOf(FlushList(Ended(b))) == ShapesOf(b)
  {
    hide FlushList, ShapesOf;
    NextBatchSafe(b);
    FlushSafe(b);
    FlushShaped(b);
    SameShapes(Ended(b), FlushList(b));
    FlushShapes(Ended(b));
  }

  /** A call that draws nothing. */
  lemma QuietShapes(b: Batch, call: Call)
    requires Shaped(b) && !IsDraw(call) && !call.ClearRenderTarget? && !call.ClearDepthBuffer? && !call.DrawModel? &&
             !call.DrawPostEffect?
    ensures Emitted(b.state, call) == []
    ensures Shaped(BatchStep(b, call)) && ShapesOf(BatchStep(b, call)) == ShapesOf(b)
  {
    hide FlushList, ShapesOf, Safe, Aligned, TextureSet, Set;
    FlushShaped(b);
    if call.SetTexture? {
      TextureShaped(b, call.texture);
    } else if call.NextBatch? {
      NextBatchShaped(b);
    } else if call.SetRenderAttachment? {
      StateShaped(FlushList(b), FlushList(b).state.(target := call.target));
    } else {
      SetShaped(b, Step(b.state, call));
    }
  }

  lemma ShapedIsSafe(b: Batch)
    requires Shaped(b)
    ensures InBatch(b) && Safe(b)
  {
  }

  /** A batch and an unbatched renderer go through the same states. */
  lemma SameState(b: Batch, call: Call)
    requires InBatch(b) && Allowed(b.state, call)
    ensures BatchStep(b, call).state == Step(b.state, call).(events := BatchStep(b, call).state.events)
  {
    hide FlushList, WellFormed, Append, OwnCorners;
  }

  lemma {:induction false} IgnoreEvents(s: State, t: State, calls: seq<Call>)
    requires t == s.(events := t.events)
    ensures AllowedRun(s, calls) == AllowedRun(t, calls) && Shapes(s, calls) == Shapes(t, calls)
    decreases |calls|
  {
    if calls != [] {
      hide Step, CallShapes, Drawable;
      SameCallShapes(s, t, calls[0]);
      SameStep(s, t, calls[0]);
      IgnoreEvents(Step(s, calls[0]), Step(t, calls[0]), calls[1..]);
    }
  }

  lemma SameStep(s: State, t: State, call: Call)
    requires t == s.(events := t.events)
    ensures Step(t, call) == Step(s, call).(events := Step(t, call).events)
  {
  }

  ghost predicate AllClean(calls: seq<Call>) {
    forall k | 0 <= k < |calls| :: Clean(calls[k])
  }

  /** Every run of careful, clean calls shows the shapes of its calls. */
  lemma {:induction false} RunShapes(b: Batch, calls: seq<Call>)
    requires Shaped(b) && AllDrawable(calls) && AllowedRun(b.state, calls) && AllCareful(calls) && AllClean(calls)
    ensures Shaped(BatchRun(b, calls)) && ShapesOf(BatchRun(b, calls)) == ShapesOf(b) + Shapes(b.state, calls)
    decreases |calls|
  {
    hide Safe, Aligned, BatchStep, Step, ShapesOf, CallShapes;
    if calls != [] {
      var c := BatchStep(b, calls[0]);
      StepShapes(b, calls[0]);
      SameState(b, calls[0]);
      IgnoreEvents(Step(b.state, calls[0]), c.state, calls[1..]);
      RunShapes(c, calls[1..]);
    }
  }

  // ----- the draw calls that cannot share a batch -----

  /** A run of one draw call, any number of times, and of complete, whole calls. */
  ghost predicate MixedWhole(s: State, calls: seq<Call>, c: Call) {
    && AllDrawable(calls) && AllowedRun(s, calls)
    && forall k | 0 <= k < |calls| :: calls[k] == c || (Complete(calls[k]) && WholeCall(calls[k]))
  }

  /** After the run and a flush, a GPU that runs its queue only now shows the triangles of every
      call by itself. */
  ghost predicate ShowsItsCalls(s: State, calls: seq<Call>)
    requires AllDrawable(calls)
  {
    var r := FlushList(BatchRun(Begun(s), calls));
    Assembled(r.queue, r.ring.store) == Shapes(s, calls)
  }

  lemma BegunShaped(s: State)
    ensures Shaped(Begun(s)) && ShapesOf(Begun(s)) == [] && Begun(s).state == s.(events := [])
  {
    BegunSafe(s);
    FreshShapes(s.texture, Begun(s).state);
  }

  lemma {:induction false} AllowedWithoutEffects(s: State, calls: seq<Call>)
    requires AllDrawable(calls) && forall k | 0 <= k < |calls| :: !calls[k].DrawPostEffect?
    ensures AllowedRun(s, calls)
    decreases |calls|
  {
    if calls != [] {
      AllowedWithoutEffects(Step(s, calls[0]), calls[1..]);
    }
  }

  lemma GoodCalls(s: State, calls: seq<Call>, c: Call)
    requires MixedWhole(s, calls, c) && Careful(c) && Clean(c)
    ensures ShowsItsCalls(s, calls)
  {
    hide Shaped, ShapesOf, BatchRun, FlushList, Shapes, AllowedRun;
    assert AllCareful(calls) && AllClean(calls);
    BegunShaped(s);
    IgnoreEvents(s, Begun(s).state, calls);
    RunShapes(Begun(s), calls);
    ShapedIsSafe(BatchRun(Begun(s), calls));
    FlushShapes(BatchRun(Begun(s), calls));
  }

  /** One draw call, and a triangle. */
  function WithTriangle(c: Call, v: Vertex): seq<Call> { [c, DrawRaw([v], [0, 0, 0])] }

  lemma DirtyCall(s: State, c: Call) returns (v: Vertex)
    requires IsDraw(c) && Drawable(c) && Careful(c) && !Clean(c)
    ensures MixedWhole(s, WithTriangle(c, v), c) && !ShowsItsCalls(s, WithTriangle(c, v))
  {
    hide BatchStep, Shapes, ShapesOf, FlushList, CallShapes, Safe, Aligned, BatchRun, Careful, Clean, AllowedRun;
    BegunShaped(s);
    v := DirtyStep(Begun(s), c);
    var t := DrawRaw([v], [0, 0, 0]);
    FlushShapes(BatchStep(BatchStep(Begun(s), c), t));
    DirtyRun(s, c, t);
    SameCallShapes(s, Begun(s).state, c);
    SameCallShapes(s, Begun(s).state, t);
  }

  lemma DirtyStep(b: Batch, c: Call) returns (v: Vertex)
    requires Shaped(b) && b.list == Fresh(b.state.texture)
    requires IsDraw(c) && Drawable(c) && Careful(c) && !Clean(c)
    ensures var t := DrawRaw([v], [0, 0, 0]);
            && Safe(BatchStep(BatchStep(b, c), t))
            && ShapesOf(BatchStep(BatchStep(b, c), t)) != ShapesOf(b) + CallShapes(b.state, c) + CallShapes(b.state, t)
  {
    hide ShapesOf, FlushList, WellFormed, Safe, Aligned, CallShapes, KeepsShapes, Pending, Append, BatchStep;
    DrawnOnFresh(b, c);
    OneDrawShapes(b, c);
    var d := BatchStep(b, c);
    StepSafe(b, c);
    v := MergeSpoils(d.list, d.state);
    StepSafe(d, DrawRaw([v], [0, 0, 0]));
    RoomForOne(d, v);
    SpoiledShapes(d, v);
    SameCallShapes(b.state, d.state, DrawRaw([v], [0, 0, 0]));
  }

  lemma RoomForOne(d: Batch, v: Vertex)
    requires InBatch(d) && !Closed(d.list)
    ensures BatchStep(d, DrawRaw([v], [0, 0, 0])) == d.(list := Append(d.list, [v], [0, 0, 0]))
  {
  }

  /** The first draw call of a batch. */
  lemma OneDrawShapes(b: Batch, c: Call)
    requires Shaped(b) && b.list == Fresh(b.state.texture) && IsDraw(c) && Drawable(c) && !Refused(c)
    ensures ShapesOf(BatchStep(b, c)) == ShapesOf(b) + CallShapes(b.state, c)
  {
    hide WellFormed, Safe, Aligned, ShapesOf, CallShapes;
    DrawnOnFresh(b, c);
    assert BatchStep(b, c) == b.(list := Append(b.list, VerticesOf(c), IndicesOf(c)));
    AppendedShapes(b, c);
  }

  lemma SpoiledShapes(d: Batch, v: Vertex)
    requires InBatch(d) && d.list.commands[|d.list.commands| - 1].texture == d.state.texture
    requires !KeepsShapes(d.list, [v], [0, 0, 0], d.state)
    ensures ShapesOf(d.(list := Append(d.list, [v], [0, 0, 0]))) !=
            ShapesOf(d) + CallShapes(d.state, DrawRaw([v], [0, 0, 0]))
  {
    hide WellFormed, OwnCorners, Assemble, Prescribed, PendingShapes, Assembled, Append;
    var n := |d.list.commands|;
    AppendKeepsTexture(d.list, [v], [0, 0, 0]);
    var (now, own) := (PendingShapes(d.list, n, d.state), CallShapes(d.state, DrawRaw([v], [0, 0, 0])));
    SameFront(Assembled(d.queue, d.ring.store), PendingShapes(Append(d.list, [v], [0, 0, 0]), n, d.state), now + own);
    assert Assembled(d.queue, d.ring.store) + (now + own) == ShapesOf(d) + own;
  }

  lemma DirtyRun(s: State, c: Call, t: Call)
    requires IsDraw(c) && Drawable(c) && IsDraw(t) && Drawable(t)
    ensures AllDrawable([c, t]) && AllowedRun(s, [c, t])
    ensures BatchRun(Begun(s), [c, t]) == BatchStep(BatchStep(Begun(s), c), t)
    ensures Shapes(s, [c, t]) == CallShapes(s, c) + CallShapes(s, t)
  {
    hide Drawable, CallShapes, BatchStep, BatchRun, Shapes, Step, AllowedRun, Begun;
    AllowedWithoutEffects(s, [c, t]);
    TwoCalls(Begun(s), c, t);
    DrawKeepsSettings(s, c);
    SameCallShapes(s, Step(s, c), t);
    TwoShapes(s, c, t);
  }

  lemma DrawKeepsSettings(s: State, c: Call)
    requires IsDraw(c)
    ensures Step(s, c) == s.(events := Step(s, c).events)
  {
  }

  lemma TwoShapes(s: State, c: Call, t: Call)
    ensures Shapes(s, [c, t]) == CallShapes(s, c) + CallShapes(Step(s, c), t)
  {
    hide CallShapes, Step;
    assert [c, t][1..] == [t] && [t][1..] == [];
    assert Shapes(Step(s, c), [t]) == CallShapes(Step(s, c), t) + Shapes(Step(Step(s, c), t), []);
  }

  lemma TwoCalls(b: Batch, c: Call, t: Call)
    requires InBatch(b) && Drawable(c) && Drawable(t)
    ensures AllDrawable([c, t]) && BatchRun(b, [c, t]) == BatchStep(BatchStep(b, c), t)
  {
    hide Drawable, BatchStep;
    assert AllDrawable([]) && BatchRun(b, []) == b;
    RunSnoc(b, [], c);
    assert [] + [c] == [c] && [c] + [t] == [c, t];
    RunSnoc(b, [c], t);
  }

  /** A spoiled run shows another first triangle than its first call. */
  lemma CarelessCall(s: State, c: Call)
    requires IsDraw(c) && Drawable(c) && !Careful(c)
    ensures MixedWhole(s, SpoiledCalls(c), c) && !ShowsItsCalls(s, SpoiledCalls(c))
  {
    hide BatchRun, FlushList, Prescribed, Fetch, Assembled, Shapes, SpoiledCalls, Opening;
    SpoiledIsMixedWhole(s, c);
    SpoiledRun(s, c);
    var b := BatchRun(Begun(s), SpoiledCalls(c));
    SpoiledFresh(s, c);
    FlushFresh(b);
    FirstAssembled(b.queue, b.ring.store, LookFor(s));
    FirstOfCalls(s, SpoiledCalls(c));
  }

  lemma SpoiledIsMixedWhole(s: State, c: Call)
    requires IsDraw(c) && Drawable(c)
    ensures MixedWhole(s, SpoiledCalls(c), c) && SpoiledCalls(c) != [] && SpoiledCalls(c)[0] == Opening()
  {
    hide Opening, Closing, Drawable;
    SpoiledIsMixed(c);
    OpeningAndClosing();
    var calls := SpoiledCalls(c);
    assert calls == [Opening(), Call.Flush, c, Call.Flush, Closing(), Call.Flush];
    AllowedWithoutEffects(s, calls);
  }

  /** The last call of a spoiled run is a flush. */
  lemma SpoiledFresh(s: State, c: Call)
    requires IsDraw(c) && Drawable(c)
    ensures AllDrawable(SpoiledCalls(c))
    ensures BatchRun(Begun(s), SpoiledCalls(c)).list == Fresh(BatchRun(Begun(s), SpoiledCalls(c)).state.texture)
  {
    SpoiledUnrolls(s, c);
    hide BatchRun, BatchStep, Drawable, SpoiledCalls;
  }

  lemma FirstAssembled(queue: seq<GpuCommand>, s: Store, look: Look)
    requires |queue| == 2 && queue[0] == GpuCommand.Draw(3, 0, 0, 0, 0, look) && |s.vertex| > 0 && |s.index| > 0
    requires Fetch(s.vertex[0], s.index[0], 0, 0) == Some(ORIGIN)
    ensures Assembled(queue, s) != [] && Assembled(queue, s)[0].Triangle? &&
            Assembled(queue, s)[0].a == Corner(Some(ORIGIN), look)
  {
    CornerAt(queue[0], s, 0);
    assert |Executed(queue[0], s)| == 3;
    AssembleAt(Executed(queue[0], s), 0);
    AssembledConcat([queue[0]], [queue[1]], s);
    OneAssembled(queue[0], s);
    assert [queue[0]] + [queue[1]] == queue;
  }

  lemma FirstOfCalls(s: State, calls: seq<Call>)
    requires calls != [] && calls[0] == Opening()
    ensures Shapes(s, calls) != [] && Shapes(s, calls)[0].Triangle? &&
            Shapes(s, calls)[0].a == Corner(Some(ELSEWHERE), LookFor(s))
  {
    hide Prescribed, Opening, Drawable, Full;
    OpeningAndClosing();
    var own := OwnCorners(Full(), [1, 1, 1], LookFor(s));
    AssembleAt(own, 0);
    assert CallShapes(s, calls[0]) == Assemble(own);
  }

  /** Every run of this draw call and of complete, whole calls shows the triangles of its calls,
      exactly when the call is careful and clean. */
  lemma TrianglesIff(s: State, c: Call)
    requires IsDraw(c) && Drawable(c)
    ensures (forall calls | MixedWhole(s, calls, c) :: ShowsItsCalls(s, calls)) <==> Careful(c) && Clean(c)
  {
    hide ShowsItsCalls, Drawable;
    if Careful(c) && Clean(c) {
      forall calls | MixedWhole(s, calls, c)
        ensures ShowsItsCalls(s, calls)
      {
        GoodCalls(s, calls, c);
      }
    } else if Careful(c) {
      var v := DirtyCall(s, c);
    } else {
      CarelessCall(s, c);
    }
  }
}
