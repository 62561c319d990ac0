/** The GPU vertex and index buffers as an append-only allocator: data goes behind what
    earlier flushes wrote (NO_OVERWRITE) until one buffer is full, then both offsets go
    back to the start and the buffers are mapped with DISCARD. */
module UploadRing {
  import opened Helpers
  import opened Graphics
  import opened DrawLists

  datatype Ring = Ring(store: Store, vertexOffset: nat, indexOffset: nat) {
    ghost predicate Valid() {
      store.Valid() && vertexOffset <= CAPACITY && indexOffset <= CAPACITY
    }
  }

  predicate NeedsRestart(r: Ring, vertices: nat, indices: nat)
    requires r.Valid()
  {
    CAPACITY - r.vertexOffset < vertices || CAPACITY - r.indexOffset < indices
  }

  /** An empty half is not mapped at all, so it is not discarded either. */
  function Mapped<T>(versions: seq<Memory<T>>, discard: bool, offset: nat, data: seq<T>): (r: seq<Memory<T>>)
    requires |versions| > 0
    ensures |r| > 0
  {
    if data == [] then versions else Written(versions, discard, offset, data)
  }

  /** The memory and the offsets after the upload of one draw list. */
  function Uploaded(r: Ring, vertices: seq<Vertex>, indices: seq<Index>): Ring
    requires r.Valid()
  {
    var restart := NeedsRestart(r, |vertices|, |indices|);
    var voff := if restart then 0 else r.vertexOffset;
    var ioff := if restart then 0 else r.indexOffset;
    Ring(Store(Mapped(r.store.vertex, restart, voff, vertices), Mapped(r.store.index, restart, ioff, indices)), voff,
         ioff)
  }

  /** The offsets after the upload and the draws of one draw list. */
  function Flushed(r: Ring, vertices: seq<Vertex>, indices: seq<Index>): Ring
    requires r.Valid()
  {
    var u := Uploaded(r, vertices, indices);
    Ring(u.store, u.vertexOffset + |vertices|, u.indexOffset + |indices|)
  }

  // ----- data is where the draws look for it -----

  ghost predicate Holds<T>(m: Memory<T>, offset: nat, data: seq<T>) {
    forall k | offset <= k < offset + |data| :: k in m && m[k] == data[k - offset]
  }

  lemma UploadHolds(r: Ring, vertices: seq<Vertex>, indices: seq<Index>)
    requires r.Valid() && |vertices| <= CAPACITY && |indices| <= CAPACITY
    ensures var u := Uploaded(r, vertices, indices);
            && u.Valid()
            && u.vertexOffset + |vertices| <= CAPACITY && u.indexOffset + |indices| <= CAPACITY
            && Holds(u.store.CurrentVertex(), u.vertexOffset, vertices)
            && Holds(u.store.CurrentIndex(), u.indexOffset, indices)
  {
  }

  /** Corner `k` of one indexed draw of an uploaded list. */
  lemma DrawFetchesCorner(vm: Memory<Vertex>, im: Memory<Index>, voff: nat, ioff: nat, vertices: seq<Vertex>,
                          indices: seq<Index>, vstart: nat, istart: nat, cmd: DrawCommand, k: nat)
    requires Holds(vm, voff, vertices) && Holds(im, ioff, indices)
    requires InRange(indices, istart, cmd) && vstart + cmd.vertexCount <= |vertices| && k < cmd.indexCount
    ensures indices[istart + k] < cmd.vertexCount
    ensures Fetch(vm, im, voff + vstart, ioff + istart + k) == Some(vertices[vstart + indices[istart + k]])
  {
  }

  /** One indexed draw of an uploaded list fetches the corners of its command. */
  lemma DrawFetchesCommand(vm: Memory<Vertex>, im: Memory<Index>, voff: nat, ioff: nat, vertices: seq<Vertex>,
                           indices: seq<Index>, vstart: nat, istart: nat, cmd: DrawCommand, look: Look)
    requires Holds(vm, voff, vertices) && Holds(im, ioff, indices)
    requires InRange(indices, istart, cmd) && vstart + cmd.vertexCount <= |vertices|
    ensures DrawCorners(vm, im, cmd.indexCount, ioff + istart, voff + vstart, look) ==
            CommandCorners(vertices, indices, vstart, istart, cmd, look)
    ensures AllFetched(CommandCorners(vertices, indices, vstart, istart, cmd, look))
  {
    var a := DrawCorners(vm, im, cmd.indexCount, ioff + istart, voff + vstart, look);
    var b := CommandCorners(vertices, indices, vstart, istart, cmd, look);
    forall k | 0 <= k < |b|
      ensures a[k] == b[k] && b[k].vertex.Some?
    {
      DrawFetchesCorner(vm, im, voff, ioff, vertices, indices, vstart, istart, cmd, k);
    }
  }

  // ----- running the queue later -----

  function Last<T>(versions: seq<Memory<T>>): Memory<T>
    requires |versions| > 0
  {
    versions[|versions| - 1]
  }

  ghost predicate KeysBelow<T>(m: Memory<T>, offset: nat) {
    forall k | k in m :: k < offset
  }

  /** Nothing has been written at or behind the offsets of the current memory. */
  ghost predicate Frontier(r: Ring)
    requires r.Valid()
  {
    KeysBelow(Last(r.store.vertex), r.vertexOffset) && KeysBelow(Last(r.store.index), r.indexOffset)
  }

  lemma MapFrontier<T>(versions: seq<Memory<T>>, restart: bool, offset: nat, data: seq<T>)
    requires |versions| > 0 && KeysBelow(Last(versions), offset)
    ensures var start := if restart then 0 else offset;
            KeysBelow(Last(Mapped(versions, restart, start, data)), start + |data|) <==>
            (restart && data == [] ==> Last(versions) == map[])
  {
    if restart && data == [] && Last(versions) != map[] {
      var k :| k in Last(versions);
      assert !KeysBelow(Last(versions), 0);
    }
  }

  /** A flush keeps the frontier exactly when it does not restart with an empty half whose
      memory is in use. */
  lemma FlushKeepsFrontier(r: Ring, vertices: seq<Vertex>, indices: seq<Index>)
    requires r.Valid() && Frontier(r) && |vertices| <= CAPACITY && |indices| <= CAPACITY
    ensures Flushed(r, vertices, indices).Valid()
    ensures Frontier(Flushed(r, vertices, indices)) <==>
            (NeedsRestart(r, |vertices|, |indices|) ==>
               && (vertices == [] ==> Last(r.store.vertex) == map[])
               && (indices == [] ==> Last(r.store.index) == map[]))
  {
    var restart := NeedsRestart(r, |vertices|, |indices|);
    MapFrontier(r.store.vertex, restart, r.vertexOffset, vertices);
    MapFrontier(r.store.index, restart, r.indexOffset, indices);
  }

  ghost predicate Contains<T(!new)>(a: Memory<T>, b: Memory<T>) {
    forall k | k in b :: k in a && a[k] == b[k]
  }

  ghost predicate Grows<T(!new)>(a: seq<Memory<T>>, b: seq<Memory<T>>) {
    |a| <= |b| && forall i | 0 <= i < |a| :: Contains(b[i], a[i])
  }

  lemma MapGrows<T(!new)>(versions: seq<Memory<T>>, restart: bool, offset: nat, data: seq<T>)
    requires |versions| > 0
    requires restart || data == [] || KeysBelow(Last(versions), offset)
    ensures Grows(versions, Mapped(versions, restart, offset, data))
  {
  }

  /** One store has everything another one has. */
  ghost predicate Grown(s: Store, t: Store) {
    Grows(s.vertex, t.vertex) && Grows(s.index, t.index)
  }

  lemma GrownTransitive(s: Store, t: Store, u: Store)
    requires Grown(s, t) && Grown(t, u)
    ensures Grown(s, u)
  {
    forall i | 0 <= i < |s.vertex|
      ensures Contains(u.vertex[i], s.vertex[i])
    {
      assert Contains(t.vertex[i], s.vertex[i]) && Contains(u.vertex[i], t.vertex[i]);
    }
    forall i | 0 <= i < |s.index|
      ensures Contains(u.index[i], s.index[i])
    {
      assert Contains(t.index[i], s.index[i]) && Contains(u.index[i], t.index[i]);
    }
  }

  /** The space behind the offsets is unused, or there is no room to append vertices: then the
      next upload of any vertices restarts. */
  ghost predicate Guarded(r: Ring)
    requires r.Valid()
  {
    KeysBelow(Last(r.store.vertex), r.vertexOffset) &&
    (r.vertexOffset == CAPACITY || KeysBelow(Last(r.store.index), r.indexOffset))
  }

  /** An upload then only adds to the memory. */
  lemma UploadGrows(r: Ring, vertices: seq<Vertex>, indices: seq<Index>)
    requires r.Valid() && Guarded(r) && (Frontier(r) || vertices != [] || indices == [])
    ensures Grown(r.store, Uploaded(r, vertices, indices).store)
  {
    var u := Uploaded(r, vertices, indices);
    var restart := NeedsRestart(r, |vertices|, |indices|);
    MapGrows(r.store.vertex, restart, u.vertexOffset, vertices);
    MapGrows(r.store.index, restart, u.indexOffset, indices);
  }

  /** A flush leaves the ring guarded, unless it brings vertices without indices and leaves room. */
  lemma FlushKeepsGuarded(r: Ring, vertices: seq<Vertex>, indices: seq<Index>)
    requires r.Valid() && Guarded(r) && |vertices| <= CAPACITY && |indices| <= CAPACITY
    requires if vertices == [] then indices == [] else indices != [] || |vertices| == CAPACITY
    ensures Flushed(r, vertices, indices).Valid() && Guarded(Flushed(r, vertices, indices))
  {
    var restart := NeedsRestart(r, |vertices|, |indices|);
    MapFrontier(r.store.vertex, restart, r.vertexOffset, vertices);
    if KeysBelow(Last(r.store.index), r.indexOffset) {
      MapFrontier(r.store.index, restart, r.indexOffset, indices);
    }
  }

  ghost predicate AllFetched(events: seq<Event>) {
    forall k | 0 <= k < |events| :: events[k].Corner? ==> events[k].vertex.Some?
  }

  /** Every draw of the queue names memory that exists. */
  ghost predicate VersionsExist(queue: seq<GpuCommand>, s: Store) {
    forall k | 0 <= k < |queue| :: queue[k].Draw? ==>
        queue[k].vertexVersion < |s.vertex| && queue[k].indexVersion < |s.index|
  }

  lemma ExecutedGrows(c: GpuCommand, s: Store, t: Store)
    requires Grows(s.vertex, t.vertex) && Grows(s.index, t.index)
    requires c.Draw? ==> c.vertexVersion < |s.vertex| && c.indexVersion < |s.index|
    requires AllFetched(Executed(c, s))
    ensures Executed(c, t) == Executed(c, s)
  {
    if c.Draw? {
      var (a, b) := (Executed(c, s), Executed(c, t));
      forall k | 0 <= k < c.indexCount
        ensures a[k] == b[k]
      {
        assert a[k].vertex.Some?;
        var slot := c.startIndex + k;
        assert a[k].vertex == Fetch(s.vertex[c.vertexVersion], s.index[c.indexVersion], c.baseVertex, slot);
        assert b[k].vertex == Fetch(t.vertex[c.vertexVersion], t.index[c.indexVersion], c.baseVertex, slot);
        assert Contains(t.index[c.indexVersion], s.index[c.indexVersion]);
        assert Contains(t.vertex[c.vertexVersion], s.vertex[c.vertexVersion]);
      }
    }
  }

  /** Commands whose fetches have all been found give the same result in memory that has
      only grown. */
  lemma {:induction false} QueueGrows(queue: seq<GpuCommand>, s: Store, t: Store)
    requires Grows(s.vertex, t.vertex) && Grows(s.index, t.index)
    requires VersionsExist(queue, s)
    requires AllFetched(ExecutedLater(queue, s))
    ensures ExecutedLater(queue, t) == ExecutedLater(queue, s)
    ensures VersionsExist(queue, t)
  {
    if queue != [] {
      var n := |queue| - 1;
      var (a, b) := (ExecutedLater(queue[..n], s), Executed(queue[n], s));
      assert forall k | 0 <= k < |a| :: (a + b)[k] == a[k];
      assert forall k | 0 <= k < |b| :: (a + b)[|a| + k] == b[k];
      hide Executed;
      QueueGrows(queue[..n], s, t);
      ExecutedGrows(queue[n], s, t);
    }
  }

  /** Running the queue now gives what running every command at once gave. */
  ghost predicate Replays(queue: seq<GpuCommand>, s: Store, shown: seq<Event>) {
    VersionsExist(queue, s) && AllFetched(shown) && ExecutedLater(queue, s) == shown
  }

  /** Two queues one after the other. */
  lemma ReplaysConcat(a: seq<GpuCommand>, b: seq<GpuCommand>, s: Store, x: seq<Event>, y: seq<Event>)
    requires Replays(a, s, x) && Replays(b, s, y)
    ensures Replays(a + b, s, x + y)
  {
    hide ExecutedLater;
    ExecutedConcat(a, b, s);
  }

  lemma {:induction false} ExecutedConcat(a: seq<GpuCommand>, b: seq<GpuCommand>, s: Store)
    ensures ExecutedLater(a + b, s) == ExecutedLater(a, s) + ExecutedLater(b, s)
  {
    hide Executed;
    if b == [] {
      assert a + b == a;
    } else {
      var n := |b| - 1;
      assert (a + b)[..|a| + n] == a + b[..n];
      ExecutedConcat(a, b[..n], s);
    }
  }

  /** A guarded upload leaves every issued draw reading what was uploaded for it. */
  lemma UploadReplays(r: Ring, vertices: seq<Vertex>, indices: seq<Index>, queue: seq<GpuCommand>, shown: seq<Event>)
    requires r.Valid() && Guarded(r) && (Frontier(r) || vertices != [] || indices == [])
    requires Replays(queue, r.store, shown)
    ensures Replays(queue, Uploaded(r, vertices, indices).store, shown)
  {
    UploadGrows(r, vertices, indices);
    QueueGrows(queue, r.store, Uploaded(r, vertices, indices).store);
  }

  // ----- when a later write can be seen by a draw already issued -----

  /** What a list behind `offset` can hold, with indices below `bound`. */
  ghost predicate Storable(data: seq<Index>, offset: nat, bound: nat) {
    offset + |data| <= CAPACITY && forall k | 0 <= k < |data| :: data[k] < bound
  }

  /** The index memory after a NO_OVERWRITE write at `offset`. */
  function Overwritten(s: Store, offset: nat, data: seq<Index>): Store
    requires s.Valid()
  {
    s.(index := Written(s.index, false, offset, data))
  }

  ghost predicate Unseen(queue: seq<GpuCommand>, s: Store, offset: nat, data: seq<Index>)
    requires s.Valid()
  {
    forall j | 0 <= j < |queue| :: Executed(queue[j], Overwritten(s, offset, data)) == Executed(queue[j], s)
  }

  /** The vertex that index `i` names. */
  function VertexAt(vm: Memory<Vertex>, base: nat, i: nat): Option<Vertex> {
    if base + i in vm then Some(vm[base + i]) else None
  }

  /** Whatever index below `bound` is put in a slot, a draw finds there the vertex it finds now. */
  ghost predicate SameVertex(c: GpuCommand, s: Store, slot: nat, bound: nat)
    requires c.Draw? && c.vertexVersion < |s.vertex| && c.indexVersion < |s.index|
  {
    forall i: nat | i < bound ::
      VertexAt(s.vertex[c.vertexVersion], c.baseVertex, i) ==
      Fetch(s.vertex[c.vertexVersion], s.index[c.indexVersion], c.baseVertex, slot)
  }

  /** A draw of the current index memory that reads at or past `offset` does not care what it
      reads there. */
  ghost predicate Indifferent(c: GpuCommand, s: Store, offset: nat, bound: nat)
    requires s.Valid() && (c.Draw? ==> c.vertexVersion < |s.vertex| && c.indexVersion < |s.index|)
  {
    c.Draw? && c.indexVersion == |s.index| - 1 ==>
      forall slot | c.startIndex <= slot < c.startIndex + c.indexCount && slot >= offset ::
          SameVertex(c, s, slot, bound)
  }

  lemma CornerAt(c: GpuCommand, s: Store, k: nat)
    requires c.Draw? && c.vertexVersion < |s.vertex| && c.indexVersion < |s.index| && k < c.indexCount
    ensures Executed(c, s)[k] == Corner(Fetch(s.vertex[c.vertexVersion], s.index[c.indexVersion], c.baseVertex,
                                              c.startIndex + k), c.look)
  {
  }

  lemma IndifferentUnseen(c: GpuCommand, s: Store, offset: nat, bound: nat, data: seq<Index>)
    requires s.Valid() && (c.Draw? ==> c.vertexVersion < |s.vertex| && c.indexVersion < |s.index|)
    requires Indifferent(c, s, offset, bound) && Storable(data, offset, bound)
    ensures Executed(c, Overwritten(s, offset, data)) == Executed(c, s)
  {
    var t := Overwritten(s, offset, data);
    if c.Draw? {
      var (after, before) := (Executed(c, t), Executed(c, s));
      forall k | 0 <= k < c.indexCount
        ensures after[k] == before[k]
      {
        var slot := c.startIndex + k;
        CornerAt(c, s, k);
        CornerAt(c, t, k);
        if c.indexVersion == |s.index| - 1 && offset <= slot < offset + |data| {
          assert SameVertex(c, s, slot, bound);
          var i := data[slot - offset];
          assert t.index[c.indexVersion][slot] == i;
          assert VertexAt(s.vertex[c.vertexVersion], c.baseVertex, i) ==
                 Fetch(s.vertex[c.vertexVersion], t.index[c.indexVersion], c.baseVertex, slot);
        }
      }
    }
  }

  /** A NO_OVERWRITE write of indices below `bound` at `offset` is invisible to every issued
      draw, whatever is written, exactly when every draw of the current index memory that reads
      at or past `offset` would find the same vertex there whatever the index. */
  lemma OverwriteUnseenIff(queue: seq<GpuCommand>, s: Store, offset: nat, bound: nat)
    requires s.Valid() && VersionsExist(queue, s) && bound <= 0x1_0000
    requires forall j | 0 <= j < |queue| :: AllFetched(Executed(queue[j], s))
    requires KeysBelow(s.index[|s.index| - 1], CAPACITY)
    ensures (forall data: seq<Index> | Storable(data, offset, bound) :: Unseen(queue, s, offset, data)) <==>
            (forall j | 0 <= j < |queue| :: Indifferent(queue[j], s, offset, bound))
  {
    if forall j | 0 <= j < |queue| :: Indifferent(queue[j], s, offset, bound) {
      forall data: seq<Index> | Storable(data, offset, bound)
        ensures Unseen(queue, s, offset, data)
      {
        forall j | 0 <= j < |queue|
          ensures Executed(queue[j], Overwritten(s, offset, data)) == Executed(queue[j], s)
        {
          IndifferentUnseen(queue[j], s, offset, bound, data);
        }
      }
    } else {
      var j :| 0 <= j < |queue| && !Indifferent(queue[j], s, offset, bound);
      var data := SeenWrite(queue[j], s, offset, bound);
      assert !Unseen(queue, s, offset, data);
    }
  }

  /** A write that a draw notices. */
  lemma SeenWrite(c: GpuCommand, s: Store, offset: nat, bound: nat) returns (data: seq<Index>)
    requires s.Valid() && (c.Draw? ==> c.vertexVersion < |s.vertex| && c.indexVersion < |s.index|)
    requires AllFetched(Executed(c, s)) && KeysBelow(s.index[|s.index| - 1], CAPACITY) && bound <= 0x1_0000
    requires !Indifferent(c, s, offset, bound)
    ensures Storable(data, offset, bound) && Executed(c, Overwritten(s, offset, data)) != Executed(c, s)
  {
    var slot :| c.startIndex <= slot < c.startIndex + c.indexCount && slot >= offset && !SameVertex(c, s, slot, bound);
    var i: nat :| i < bound && VertexAt(s.vertex[c.vertexVersion], c.baseVertex, i) !=
                               Fetch(s.vertex[c.vertexVersion], s.index[c.indexVersion], c.baseVertex, slot);
    hide Executed, Overwritten;
    CornerAt(c, s, slot - c.startIndex);
    assert Executed(c, s)[slot - c.startIndex].vertex.Some?;
    data := Filled(s, offset, slot, i, bound);
    CornerAt(c, Overwritten(s, offset, data), slot - c.startIndex);
  }

  /** A write that leaves `i` in a slot. */
  lemma Filled(s: Store, offset: nat, slot: nat, i: Index, bound: nat) returns (data: seq<Index>)
    requires s.Valid() && offset <= slot < CAPACITY && i < bound
    ensures Storable(data, offset, bound)
    ensures var t := Overwritten(s, offset, data);
            && t.vertex == s.vertex && |t.index| == |s.index|
            && slot in t.index[|s.index| - 1] && t.index[|s.index| - 1][slot] == i
  {
    data := seq(slot - offset + 1, _ => i);
  }

  /** After a restart, the draws issued before are safe from the indices of the next list, which
      can only name as many vertices as there is room left for, exactly when the restart brought
      indices of its own or those draws would find the same vertices whatever the indices. */
  lemma RestartSafeIff(queue: seq<GpuCommand>, r: Ring, vertices: seq<Vertex>, indices: seq<Index>)
    requires r.Valid() && |vertices| <= CAPACITY && |indices| <= CAPACITY
    requires NeedsRestart(r, |vertices|, |indices|)
    requires VersionsExist(queue, r.store)
    requires forall j | 0 <= j < |queue| :: AllFetched(Executed(queue[j], r.store))
    requires KeysBelow(Last(r.store.index), CAPACITY)
    ensures var (f, room) := (Flushed(r, vertices, indices), CAPACITY - |vertices|);
            (forall data: seq<Index> | Storable(data, f.indexOffset, room) ::
             Unseen(queue, f.store, f.indexOffset, data)) <==>
            (indices != [] || forall j | 0 <= j < |queue| :: Indifferent(queue[j], r.store, 0, room))
  {
    var (f, room) := (Flushed(r, vertices, indices), CAPACITY - |vertices|);
    MapGrows(r.store.vertex, true, 0, vertices);
    MapGrows(r.store.index, true, 0, indices);
    forall j | 0 <= j < |queue|
      ensures AllFetched(Executed(queue[j], f.store))
      ensures indices == [] ==> (Indifferent(queue[j], f.store, 0, room) <==> Indifferent(queue[j], r.store, 0, room))
    {
      ExecutedGrows(queue[j], r.store, f.store);
      if indices == [] {
        SameVersions(queue[j], r.store, f.store, room);
      }
    }
    OverwriteUnseenIff(queue, f.store, f.indexOffset, room);
  }

  /** New versions of the vertex memory change nothing for draws of the old ones. */
  lemma SameVersions(c: GpuCommand, s: Store, t: Store, bound: nat)
    requires s.Valid() && t.Valid() && s.index == t.index && s.vertex <= t.vertex
    requires c.Draw? ==> c.vertexVersion < |s.vertex| && c.indexVersion < |s.index|
    ensures Indifferent(c, t, 0, bound) <==> Indifferent(c, s, 0, bound)
  {
    if c.Draw? {
      assert s.vertex[c.vertexVersion] == t.vertex[c.vertexVersion];
      assert forall slot :: SameVertex(c, s, slot, bound) <==> SameVertex(c, t, slot, bound);
    }
  }
}
