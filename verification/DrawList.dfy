/** The draw list as a value: pending vertices, command-local indices and the commands
    that cut both into consecutive pieces. */
module DrawLists {
  import opened Helpers
  import opened Graphics

  const CAPACITY: nat := 32768
  const COMMAND_CAPACITY: nat := 2048

  datatype DrawCommand = DrawCommand(texture: Option<Texture>, vertexCount: Index, indexCount: Index)

  datatype DrawList = DrawList(vertices: seq<Vertex>, indices: seq<Index>, commands: seq<DrawCommand>)

  function VertexTotal(cmds: seq<DrawCommand>): nat {
    if cmds == [] then 0 else VertexTotal(cmds[..|cmds| - 1]) + cmds[|cmds| - 1].vertexCount
  }

  function IndexTotal(cmds: seq<DrawCommand>): nat {
    if cmds == [] then 0 else IndexTotal(cmds[..|cmds| - 1]) + cmds[|cmds| - 1].indexCount
  }

  /** Index `k` of the command that starts at slot `start` names a vertex of that command. */
  ghost predicate InRange(indices: seq<Index>, start: nat, cmd: DrawCommand) {
    start + cmd.indexCount <= |indices| &&
    forall k | start <= k < start + cmd.indexCount :: indices[k] < cmd.vertexCount
  }

  ghost predicate AllInRange(indices: seq<Index>, cmds: seq<DrawCommand>) {
    cmds == [] ||
    (var n := |cmds| - 1;
     AllInRange(indices, cmds[..n]) && InRange(indices, IndexTotal(cmds[..n]), cmds[n]))
  }

  /** The counts cover both lists exactly, the lists fit their buffers, and no command
      reaches outside its own vertices. */
  ghost predicate WellFormed(l: DrawList) {
    && |l.vertices| <= CAPACITY
    && |l.indices| <= CAPACITY
    && |l.commands| <= COMMAND_CAPACITY
    && VertexTotal(l.commands) == |l.vertices|
    && IndexTotal(l.commands) == |l.indices|
    && AllInRange(l.indices, l.commands)
  }

  /** No command ends in the middle of a triangle. */
  ghost predicate WholeCommands(cmds: seq<DrawCommand>) {
    forall k | 0 <= k < |cmds| :: cmds[k].indexCount % 3 == 0
  }

  // ----- meaning -----

  /** The corners of one draw call made on its own with `look`. */
  function OwnCorners(vertices: seq<Vertex>, indices: seq<Index>, look: Look): seq<Event> {
    seq(|indices|, k requires 0 <= k < |indices| =>
      Corner(if indices[k] < |vertices| then Some(vertices[indices[k]]) else None, look))
  }

  /** The corners of one command of a list. */
  function CommandCorners(vertices: seq<Vertex>, indices: seq<Index>, vstart: nat, istart: nat,
                          cmd: DrawCommand, look: Look): seq<Event> {
    if vstart + cmd.vertexCount <= |vertices| && istart + cmd.indexCount <= |indices|
    then OwnCorners(vertices[vstart..vstart + cmd.vertexCount], indices[istart..istart + cmd.indexCount], look)
    else []
  }

  /** What the pending commands will put on screen under the given state. */
  function Corners(vertices: seq<Vertex>, indices: seq<Index>, cmds: seq<DrawCommand>,
                   states: RendererStateSet, camera: CameraStateSet, target: Target): seq<Event> {
    if cmds == [] then []
    else
      var n := |cmds| - 1;
      Corners(vertices, indices, cmds[..n], states, camera, target) +
      CommandCorners(vertices, indices, VertexTotal(cmds[..n]), IndexTotal(cmds[..n]), cmds[n],
                     Prescribed(states, camera, target, cmds[n].texture))
  }

  function Pending(l: DrawList, states: RendererStateSet, camera: CameraStateSet, target: Target): seq<Event> {
    Corners(l.vertices, l.indices, l.commands, states, camera, target)
  }

  /** What the first `j` commands of a list will put on screen. */
  function DrawnUpTo(l: DrawList, j: nat, states: RendererStateSet, camera: CameraStateSet, target: Target): seq<Event>
    requires j <= |l.commands|
  {
    Corners(l.vertices, l.indices, l.commands[..j], states, camera, target)
  }

  function VerticesUpTo(l: DrawList, j: nat): nat
    requires j <= |l.commands|
  {
    VertexTotal(l.commands[..j])
  }

  function IndicesUpTo(l: DrawList, j: nat): nat
    requires j <= |l.commands|
  {
    IndexTotal(l.commands[..j])
  }

  // ----- operations -----

  /** The indices as stored: relative to the start of the command, in 16 bits. */
  function Rebased(base: nat, idx: seq<Index>): (r: seq<Index>) {
    seq(|idx|, k requires 0 <= k < |idx| => Wrap16(base + idx[k]))
  }

  /** A draw call added to the last command. */
  function Append(l: DrawList, verts: seq<Vertex>, idx: seq<Index>): DrawList
    requires l.commands != []
  {
    var n := |l.commands| - 1;
    var cmd := l.commands[n];
    DrawList(l.vertices + verts, l.indices + Rebased(cmd.vertexCount, idx),
             l.commands[n := cmd.(vertexCount := Wrap16(cmd.vertexCount + |verts|),
                                 indexCount := Wrap16(cmd.indexCount + |idx|))])
  }

  /** A new, empty command. */
  function Open(l: DrawList, texture: Option<Texture>): DrawList {
    l.(commands := l.commands + [DrawCommand(texture, 0, 0)])
  }

  // ----- proofs -----

  lemma {:induction false} TotalsAtPrefix(cmds: seq<DrawCommand>, j: nat)
    requires j <= |cmds|
    ensures VertexTotal(cmds[..j]) <= VertexTotal(cmds)
    ensures IndexTotal(cmds[..j]) <= IndexTotal(cmds)
  {
    if j == |cmds| {
      assert cmds[..j] == cmds;
    } else {
      TotalsAtPrefix(cmds[..|cmds| - 1], j);
      assert cmds[..|cmds| - 1][..j] == cmds[..j];
    }
  }

  lemma TotalsSnoc(cmds: seq<DrawCommand>, j: nat)
    requires j < |cmds|
    ensures VertexTotal(cmds[..j + 1]) == VertexTotal(cmds[..j]) + cmds[j].vertexCount
    ensures IndexTotal(cmds[..j + 1]) == IndexTotal(cmds[..j]) + cmds[j].indexCount
  {
    assert cmds[..j + 1][..j] == cmds[..j];
  }

  /** The meaning of a list is the meaning of its commands in turn. */
  lemma CornersSnoc(l: DrawList, j: nat, states: RendererStateSet, camera: CameraStateSet, target: Target)
    requires j < |l.commands|
    ensures Corners(l.vertices, l.indices, l.commands[..j + 1], states, camera, target) ==
            Corners(l.vertices, l.indices, l.commands[..j], states, camera, target) +
            CommandCorners(l.vertices, l.indices, VertexTotal(l.commands[..j]), IndexTotal(l.commands[..j]),
                           l.commands[j], Prescribed(states, camera, target, l.commands[j].texture))
  {
    assert l.commands[..j + 1][..j] == l.commands[..j];
  }

  /** Without indices there is nothing to draw. */
  lemma {:induction false} NoIndicesNoCorners(vertices: seq<Vertex>, cmds: seq<DrawCommand>, states: RendererStateSet,
                                              camera: CameraStateSet, target: Target)
    requires IndexTotal(cmds) == 0
    ensures Corners(vertices, [], cmds, states, camera, target) == []
  {
    if cmds != [] {
      NoIndicesNoCorners(vertices, cmds[..|cmds| - 1], states, camera, target);
    }
  }

  /** A command keeps its corners when data is added behind the lists. */
  lemma CommandUnderExtension(v: seq<Vertex>, v': seq<Vertex>, i: seq<Index>, i': seq<Index>, vstart: nat, istart: nat,
                              cmd: DrawCommand, look: Look)
    requires vstart + cmd.vertexCount <= |v| && istart + cmd.indexCount <= |i|
    ensures CommandCorners(v + v', i + i', vstart, istart, cmd, look) == CommandCorners(v, i, vstart, istart, cmd, look)
  {
  }

  /** Data added behind a list does not change what its commands mean. */
  lemma {:induction false} CornersUnderExtension(v: seq<Vertex>, v': seq<Vertex>, i: seq<Index>, i': seq<Index>,
                                                 cmds: seq<DrawCommand>, states: RendererStateSet,
                                                 camera: CameraStateSet, target: Target)
    requires VertexTotal(cmds) <= |v| && IndexTotal(cmds) <= |i|
    ensures Corners(v + v', i + i', cmds, states, camera, target) == Corners(v, i, cmds, states, camera, target)
  {
    if cmds != [] {
      var n := |cmds| - 1;
      CornersUnderExtension(v, v', i, i', cmds[..n], states, camera, target);
      CommandUnderExtension(v, v', i, i', VertexTotal(cmds[..n]), IndexTotal(cmds[..n]), cmds[n],
                            Prescribed(states, camera, target, cmds[n].texture));
    }
  }

  lemma {:induction false} RangeUnderExtension(i: seq<Index>, i': seq<Index>, cmds: seq<DrawCommand>)
    requires AllInRange(i, cmds)
    ensures AllInRange(i + i', cmds)
  {
    if cmds != [] {
      RangeUnderExtension(i, i', cmds[..|cmds| - 1]);
    }
  }

  /** Two draw calls under one look: the second one's indices shifted past the first one's
      vertices fetch what they fetched on their own. */
  lemma OwnCornersConcat(v: seq<Vertex>, v': seq<Vertex>, i: seq<Index>, i': seq<Index>, look: Look)
    requires |v| + |v'| <= CAPACITY
    requires forall k | 0 <= k < |i| :: i[k] < |v|
    requires forall k | 0 <= k < |i'| :: i'[k] < |v'|
    ensures OwnCorners(v + v', i + Rebased(|v|, i'), look) == OwnCorners(v, i, look) + OwnCorners(v', i', look)
  {
  }

  /** Indices that stay apart from other calls' vertices wherever the call comes in a command:
      its own vertices, or so far beyond that no 16-bit sum comes back into the list. */
  ghost predicate Apart(vertices: nat, indices: seq<Index>) {
    forall k | 0 <= k < |indices| :: indices[k] < vertices || CAPACITY <= indices[k] < CAPACITY + vertices
  }

  /** A draw call sees no vertex of the calls before and behind it in its command, whatever they
      are, exactly when its indices stay apart. */
  lemma IndicesOwnIff(v: seq<Vertex>, i: seq<Index>, look: Look)
    requires |v| <= CAPACITY
    ensures (forall u, v' | |u| + |v| + |v'| <= CAPACITY ::
              OwnCorners(u + v + v', Rebased(|u|, i), look) == OwnCorners(v, i, look)) <==>
            Apart(|v|, i)
  {
    if Apart(|v|, i) {
      forall u: seq<Vertex>, v': seq<Vertex> | |u| + |v| + |v'| <= CAPACITY
        ensures OwnCorners(u + v + v', Rebased(|u|, i), look) == OwnCorners(v, i, look)
      {
        ApartCorners(u, v, v', i, look);
      }
    } else {
      var k :| 0 <= k < |i| && !(i[k] < |v| || CAPACITY <= i[k] < CAPACITY + |v|);
      var w := Vertex(0.0, 0.0, 0.0, 0, 0.0, 0.0);
      assert OwnCorners(v, i, look)[k].vertex == None;
      if i[k] < CAPACITY {
        var v' := seq(CAPACITY - |v|, _ => w);
        assert OwnCorners([] + v + v', Rebased(0, i), look)[k].vertex != None;
      } else {
        var u := seq(0x1_0000 - i[k], _ => w);
        assert Rebased(|u|, i)[k] == 0;
        assert OwnCorners(u + v + [], Rebased(|u|, i), look)[k].vertex != None;
      }
    }
  }

  lemma ApartCorners(u: seq<Vertex>, v: seq<Vertex>, v': seq<Vertex>, i: seq<Index>, look: Look)
    requires |u| + |v| + |v'| <= CAPACITY && Apart(|v|, i)
    ensures OwnCorners(u + v + v', Rebased(|u|, i), look) == OwnCorners(v, i, look)
  {
    var (all, r) := (u + v + v', Rebased(|u|, i));
    forall k | 0 <= k < |i|
      ensures r[k] == |u| + i[k]
      ensures i[k] < |v| ==> all[r[k]] == v[i[k]]
      ensures i[k] >= |v| ==> r[k] >= |all|
    {
    }
  }

  /** Behind one vertex of another call, index 65535 is stored as 0 and fetches that vertex. */
  lemma WrappedIndex(t: Option<Texture>, w: Vertex, v: Vertex, states: RendererStateSet, camera: CameraStateSet,
                     target: Target)
    ensures var l := DrawList([w], [], [DrawCommand(t, 1, 0)]);
            && WellFormed(l) && Append(l, [v], [65535]).indices == [0]
            && Pending(Append(l, [v], [65535]), states, camera, target) ==
               [Corner(Some(w), Prescribed(states, camera, target, t))]
            && Pending(l, states, camera, target) + OwnCorners([v], [65535], Prescribed(states, camera, target, t)) ==
               [Corner(None, Prescribed(states, camera, target, t))]
  {
    var l := DrawList([w], [], [DrawCommand(t, 1, 0)]);
    var m := Append(l, [v], [65535]);
    OneCommandList(l, states, camera, target);
    OneCommandList(m, states, camera, target);
    assert m.vertices == [w, v] && m.indices == [0] && m.commands == [DrawCommand(t, 2, 1)];
  }

  /** A list of one command that holds all of it. */
  lemma OneCommandList(l: DrawList, states: RendererStateSet, camera: CameraStateSet, target: Target)
    requires |l.commands| == 1 && l.commands[0].vertexCount == |l.vertices| && l.commands[0].indexCount == |l.indices|
    ensures VertexTotal(l.commands) == |l.vertices| && IndexTotal(l.commands) == |l.indices|
    ensures AllInRange(l.indices, l.commands) <==> forall k | 0 <= k < |l.indices| :: l.indices[k] < |l.vertices|
    ensures Pending(l, states, camera, target) ==
            OwnCorners(l.vertices, l.indices, Prescribed(states, camera, target, l.commands[0].texture))
  {
    var none := l.commands[..0];
    assert none == [] && VertexTotal(none) == 0 && IndexTotal(none) == 0 && AllInRange(l.indices, none);
    assert Corners(l.vertices, l.indices, none, states, camera, target) == [];
    assert l.vertices[0..|l.vertices|] == l.vertices && l.indices[0..|l.indices|] == l.indices;
  }

  /** The last command of a list, grown by a draw call. */
  lemma GrownCommand(v: seq<Vertex>, i: seq<Index>, vstart: nat, istart: nat, cmd: DrawCommand, cmd': DrawCommand,
                     verts: seq<Vertex>, idx: seq<Index>, look: Look)
    requires vstart + cmd.vertexCount == |v| && istart + cmd.indexCount == |i|
    requires InRange(i, istart, cmd)
    requires cmd.vertexCount + |verts| <= CAPACITY
    requires forall k | 0 <= k < |idx| :: idx[k] < |verts|
    requires cmd'.vertexCount == cmd.vertexCount + |verts| && cmd'.indexCount == cmd.indexCount + |idx|
    ensures CommandCorners(v + verts, i + Rebased(cmd.vertexCount, idx), vstart, istart, cmd', look) ==
            CommandCorners(v, i, vstart, istart, cmd, look) + OwnCorners(verts, idx, look)
  {
    hide OwnCorners, Rebased;
    var (own, ownIdx) := (v[vstart..], i[istart..]);
    RebasedLength(cmd.vertexCount, idx);
    SliceBehind(v, verts, vstart, vstart + cmd'.vertexCount);
    SliceBehind(i, Rebased(cmd.vertexCount, idx), istart, istart + cmd'.indexCount);
    assert v[vstart..vstart + cmd.vertexCount] == own && i[istart..istart + cmd.indexCount] == ownIdx;
    assert forall k | 0 <= k < |ownIdx| :: ownIdx[k] == i[istart + k];
    OwnCornersConcat(own, verts, ownIdx, idx, look);
  }

  lemma RebasedLength(base: nat, idx: seq<Index>)
    ensures |Rebased(base, idx)| == |idx|
  {
  }

  lemma SliceBehind<T>(a: seq<T>, b: seq<T>, start: nat, end: nat)
    requires start <= |a| && end == |a| + |b|
    ensures (a + b)[start..end] == a[start..] + b
  {
  }

  /** Merging is invisible for one draw call: growing a command by a draw call means the
      corners it had, then the corners of the call on its own. */
  lemma AppendMeansOwn(l: DrawList, verts: seq<Vertex>, idx: seq<Index>, states: RendererStateSet,
                       camera: CameraStateSet, target: Target)
    requires WellFormed(l) && l.commands != []
    requires |l.vertices| + |verts| <= CAPACITY && |l.indices| + |idx| <= CAPACITY
    requires forall k | 0 <= k < |idx| :: idx[k] < |verts|
    ensures Pending(Append(l, verts, idx), states, camera, target) ==
            Pending(l, states, camera, target) +
            OwnCorners(verts, idx, Prescribed(states, camera, target, l.commands[|l.commands| - 1].texture))
  {
    hide CommandCorners, OwnCorners, Rebased, Prescribed, InRange;
    var m := Append(l, verts, idx);
    var n := |l.commands| - 1;
    var cmd := l.commands[n];
    assert m.commands[..n] == l.commands[..n];
    CornersUnderExtension(l.vertices, verts, l.indices, Rebased(cmd.vertexCount, idx), l.commands[..n],
                          states, camera, target);
    GrownCommand(l.vertices, l.indices, VertexTotal(l.commands[..n]), IndexTotal(l.commands[..n]), cmd, m.commands[n],
                 verts, idx, Prescribed(states, camera, target, cmd.texture));
  }

  /** The same with what was shown before in front. */
  lemma AppendAfter(shown: seq<Event>, l: DrawList, verts: seq<Vertex>, idx: seq<Index>, states: RendererStateSet,
                    camera: CameraStateSet, target: Target)
    requires WellFormed(l) && l.commands != []
    requires |l.vertices| + |verts| <= CAPACITY && |l.indices| + |idx| <= CAPACITY
    requires forall k | 0 <= k < |idx| :: idx[k] < |verts|
    ensures shown + Pending(Append(l, verts, idx), states, camera, target) ==
            shown + Pending(l, states, camera, target) +
            OwnCorners(verts, idx, Prescribed(states, camera, target, l.commands[|l.commands| - 1].texture))
  {
    AppendMeansOwn(l, verts, idx, states, camera, target);
  }

  lemma GrownInRange(indices: seq<Index>, start: nat, cmd: DrawCommand, nvert: nat, idx: seq<Index>)
    requires InRange(indices, start, cmd) && start + cmd.indexCount == |indices|
    requires cmd.vertexCount + nvert <= CAPACITY && cmd.indexCount + |idx| <= CAPACITY
    requires forall k | 0 <= k < |idx| :: idx[k] < nvert
    ensures InRange(indices + Rebased(cmd.vertexCount, idx), start,
                    cmd.(vertexCount := cmd.vertexCount + nvert, indexCount := cmd.indexCount + |idx|))
    ensures forall k | 0 <= k < |idx| :: Rebased(cmd.vertexCount, idx)[k] == cmd.vertexCount + idx[k]
    ensures |Rebased(cmd.vertexCount, idx)| == |idx|
  {
  }

  /** Growing a command keeps the list well formed; no 16-bit store wraps. */
  lemma AppendWellFormed(l: DrawList, verts: seq<Vertex>, idx: seq<Index>)
    requires WellFormed(l) && l.commands != []
    requires |l.vertices| + |verts| <= CAPACITY && |l.indices| + |idx| <= CAPACITY
    requires forall k | 0 <= k < |idx| :: idx[k] < |verts|
    ensures WellFormed(Append(l, verts, idx))
    ensures forall k | 0 <= k < |idx| ::
              Rebased(l.commands[|l.commands| - 1].vertexCount, idx)[k] ==
                  l.commands[|l.commands| - 1].vertexCount + idx[k]
  {
    hide InRange, Rebased;
    var m := Append(l, verts, idx);
    var n := |l.commands| - 1;
    var (before, cmd) := (l.commands[..n], l.commands[n]);
    assert m.commands[..n] == before;
    RangeUnderExtension(l.indices, Rebased(cmd.vertexCount, idx), before);
    GrownInRange(l.indices, IndexTotal(before), cmd, |verts|, idx);
  }

  lemma OpenMeansNothing(l: DrawList, texture: Option<Texture>, states: RendererStateSet,
                         camera: CameraStateSet, target: Target)
    requires WellFormed(l) && |l.commands| < COMMAND_CAPACITY
    ensures WellFormed(Open(l, texture))
    ensures Pending(Open(l, texture), states, camera, target) == Pending(l, states, camera, target)
  {
  }

  /** Every command of a well-formed list keeps to its own part of the lists. */
  lemma {:induction false} CommandInRange(l: DrawList, cmds: seq<DrawCommand>, j: nat)
    requires AllInRange(l.indices, cmds)
    requires j < |cmds|
    ensures InRange(l.indices, IndexTotal(cmds[..j]), cmds[j])
  {
    var n := |cmds| - 1;
    if j < n {
      CommandInRange(l, cmds[..n], j);
      assert cmds[..n][..j] == cmds[..j];
    }
  }

  /** A list without vertices has no indices either. */
  lemma {:induction false} NoVerticesNoIndices(indices: seq<Index>, cmds: seq<DrawCommand>)
    requires AllInRange(indices, cmds)
    ensures VertexTotal(cmds) == 0 ==> IndexTotal(cmds) == 0
  {
    if cmds != [] {
      var n := |cmds| - 1;
      NoVerticesNoIndices(indices, cmds[..n]);
      assert cmds[n].indexCount > 0 ==> indices[IndexTotal(cmds[..n])] < cmds[n].vertexCount;
    }
  }

  /** The last command counts no more than the list holds. */
  lemma RoomInCommand(l: DrawList, vertices: nat, indices: nat)
    requires WellFormed(l) && l.commands != []
    requires |l.vertices| + vertices <= CAPACITY && |l.indices| + indices <= CAPACITY
    ensures l.commands[|l.commands| - 1].vertexCount + vertices <= CAPACITY
    ensures l.commands[|l.commands| - 1].indexCount + indices <= CAPACITY
  {
  }

  /** A list with one empty command and nothing else. */
  lemma OnlyOpen(t: Option<Texture>, states: RendererStateSet, camera: CameraStateSet, target: Target)
    ensures WellFormed(DrawList([], [], [DrawCommand(t, 0, 0)]))
    ensures Pending(DrawList([], [], [DrawCommand(t, 0, 0)]), states, camera, target) == []
  {
    var cmds := [DrawCommand(t, 0, 0)];
    assert cmds[..0] == [];
    assert AllInRange([], cmds[..0]);
    NoIndicesNoCorners([], cmds, states, camera, target);
  }
}
