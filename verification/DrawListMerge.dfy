/** The draw lists of a frame merged into one vertex and one index buffer, and drawn with running
    offsets into them. */
module DrawListMerge {
  import opened Helpers

  datatype Vertex = Vertex(x: real, y: real, u: real, v: real, color: nat)
  datatype Rect = Rect(left: real, top: real, right: real, bottom: real)
  datatype Scissor = Scissor(left: int, top: int, right: int, bottom: int)

  datatype Command =
    | Callback(id: nat)
    | ResetState
    | Draw(elemCount: nat, idxOffset: nat, vtxOffset: nat, clip: Rect, texture: nat)

  datatype DrawList = DrawList(vertices: seq<Vertex>, indices: seq<nat>, commands: seq<Command>)

  datatype View = View(x: real, y: real, scaleX: real, scaleY: real)

  /** A coordinate in framebuffer space. */
  function Projected(at: real, origin: real, scale: real): real { (at - origin) * scale }

  /** A clipping rectangle in framebuffer space, or nothing if it is empty. */
  function Clipped(r: Rect, v: View): Option<Scissor> {
    var (left, top) := (Projected(r.left, v.x, v.scaleX), Projected(r.top, v.y, v.scaleY));
    var (right, bottom) := (Projected(r.right, v.x, v.scaleX), Projected(r.bottom, v.y, v.scaleY));
    if right <= left || bottom <= top then None
    else Some(Scissor(Truncate(left), Truncate(top), Truncate(right), Truncate(bottom)))
  }

  /** An edge of the framebuffer: moved, scaled and cut towards zero. */
  predicate EdgeAt(i: int, at: real, origin: real, scale: real) {
    CutTo(i, (at - origin) * scale)
  }

  /** A rectangle clips everything exactly when it has no width or no height on the framebuffer;
      otherwise each edge is the given one, moved, scaled and cut. */
  lemma ClippedMeans(r: Rect, v: View)
    ensures Clipped(r, v) == None <==>
            r.right * v.scaleX <= r.left * v.scaleX || r.bottom * v.scaleY <= r.top * v.scaleY
    ensures Clipped(r, v).Some? ==>
              var s := Clipped(r, v).value;
              && EdgeAt(s.left, r.left, v.x, v.scaleX) && EdgeAt(s.right, r.right, v.x, v.scaleX)
              && EdgeAt(s.top, r.top, v.y, v.scaleY) && EdgeAt(s.bottom, r.bottom, v.y, v.scaleY)
  {
    hide Projected, EdgeAt;
    Spread(r.left, r.right, v.x, v.scaleX);
    Spread(r.top, r.bottom, v.y, v.scaleY);
    CutEdge(r.left, v.x, v.scaleX);
    CutEdge(r.right, v.x, v.scaleX);
    CutEdge(r.top, v.y, v.scaleY);
    CutEdge(r.bottom, v.y, v.scaleY);
  }

  lemma CutEdge(at: real, origin: real, scale: real)
    ensures EdgeAt(Truncate(Projected(at, origin, scale)), at, origin, scale)
  {
    hide Truncate;
  }

  /** Moving both edges by the same amount leaves them apart as they were. */
  lemma Spread(a: real, b: real, origin: real, scale: real)
    ensures Projected(b, origin, scale) <= Projected(a, origin, scale) <==> b * scale <= a * scale
  {
    assert (b - origin) * scale == b * scale - origin * scale && (a - origin) * scale == a * scale - origin * scale;
  }

  /** A texture that is up to date, or an update of which succeeds or fails. */
  datatype TextureData = TextureData(id: nat, upToDate: bool, canUpdate: bool)

  /** What happens, in order: a texture update, a callback, a state reset, or the vertices of
      one draw. */
  datatype Event =
    | Updated(texture: nat)
    | Called(list: nat, id: nat)
    | Reset
    | Drawn(vertices: seq<Vertex>, scissor: Scissor, texture: nat)

  /** Textures are brought up to date up to the first that cannot be. */
  function Updates(ts: seq<TextureData>): seq<Event> {
    if ts == [] then []
    else if ts[0].upToDate then Updates(ts[1..])
    else [Updated(ts[0].id)] + (if ts[0].canUpdate then Updates(ts[1..]) else [])
  }

  lemma UpdatesFrom(ts: seq<TextureData>, k: nat)
    requires k <= |ts|
    ensures k == |ts| ==> Updates(ts[k..]) == []
    ensures k < |ts| && ts[k].upToDate ==> Updates(ts[k..]) == Updates(ts[k + 1..])
    ensures k < |ts| && !ts[k].upToDate ==>
              Updates(ts[k..]) == [Updated(ts[k].id)] + (if ts[k].canUpdate then Updates(ts[k + 1..]) else [])
  {
    assert k < |ts| ==> ts[k..][1..] == ts[k + 1..];
  }

  /** Texture `k` is not up to date, and every one before it is or can be brought so. */
  predicate Reached(ts: seq<TextureData>, k: nat) {
    k < |ts| && !ts[k].upToDate && AllUpdate(ts[..k])
  }

  /** Exactly those textures are updated. */
  lemma {:induction false} UpdatedIff(ts: seq<TextureData>, id: nat)
    ensures Updated(id) in Updates(ts) <==> exists k: nat | k < |ts| :: Reached(ts, k) && ts[k].id == id
  {
    hide Reached, AllUpdate;
    if ts != [] {
      var rest := ts[1..];
      UpdatedIff(rest, id);
      forall k: nat
        ensures Reached(ts, k + 1) <==> (ts[0].upToDate || ts[0].canUpdate) && Reached(rest, k)
      {
        ReachedOneOn(ts, k);
      }
      ReachedFirst(ts);
      if k: nat :| k < |ts| && Reached(ts, k) && ts[k].id == id && k > 0 {
        assert Reached(rest, k - 1) && rest[k - 1] == ts[k];
      }
      if k: nat :| k < |rest| && Reached(rest, k) && rest[k].id == id {
        assert ts[k + 1] == rest[k];
      }
    }
  }

  predicate AllUpdate(ts: seq<TextureData>) {
    forall k | 0 <= k < |ts| :: ts[k].upToDate || ts[k].canUpdate
  }

  lemma ReachedFirst(ts: seq<TextureData>)
    requires ts != []
    ensures Reached(ts, 0) <==> !ts[0].upToDate
  {
  }

  lemma ReachedOneOn(ts: seq<TextureData>, k: nat)
    requires ts != []
    ensures Reached(ts, k + 1) <==> (ts[0].upToDate || ts[0].canUpdate) && Reached(ts[1..], k)
  {
    if k < |ts| - 1 {
      var (a, b) := (ts[..k + 1], ts[1..][..k]);
      assert forall j | 0 <= j < k :: a[j + 1] == b[j];
      assert forall j | 0 < j < k + 1 :: a[j] == b[j - 1];
      assert a[0] == ts[0];
    }
  }

  // ----- each list on its own -----

  /** The indices of a draw lie in its list, and what they name does too. */
  ghost predicate InList(c: Command, l: DrawList) {
    c.Draw? ==> forall k | 0 <= k < c.elemCount :: NamesVertex(c, l, k)
  }

  predicate NamesVertex(c: Command, l: DrawList, k: nat)
    requires c.Draw?
  {
    c.idxOffset + k < |l.indices| && c.vtxOffset + l.indices[c.idxOffset + k] < |l.vertices|
  }

  ghost predicate ListOk(l: DrawList) {
    forall c | c in l.commands :: InList(c, l)
  }

  /** What an indexed draw reads. */
  function Fetched(vertices: seq<Vertex>, indices: seq<nat>, count: nat, start: nat, base: nat): seq<Option<Vertex>> {
    seq(count, k requires 0 <= k < count =>
      if start + k < |indices| && base + indices[start + k] < |vertices|
      then Some(vertices[base + indices[start + k]]) else None)
  }

  function Present(s: seq<Option<Vertex>>): seq<Vertex> {
    if s == [] then [] else (if s[0].Some? then [s[0].value] else []) + Present(s[1..])
  }

  /** One command against a vertex and an index buffer, at offsets. */
  function Ran(c: Command, list: nat, vertices: seq<Vertex>, indices: seq<nat>, voff: nat, ioff: nat,
               v: View): seq<Event> {
    match c
    case Callback(id) => [Called(list, id)]
    case ResetState => [Reset]
    case Draw(count, start, base, clip, texture) =>
      if Clipped(clip, v) == None then []
      else [Drawn(Present(Fetched(vertices, indices, count, ioff + start, voff + base)), Clipped(clip, v).value,
                  texture)]
  }

  /** The first `n` commands of a list. */
  function RanList(l: DrawList, n: nat, list: nat, vertices: seq<Vertex>, indices: seq<nat>, voff: nat, ioff: nat,
                   v: View): seq<Event>
    requires n <= |l.commands|
  {
    if n == 0 then []
    else RanList(l, n - 1, list, vertices, indices, voff, ioff, v) +
         Ran(l.commands[n - 1], list, vertices, indices, voff, ioff, v)
  }

  /** The lists drawn one after the other, each from its own buffers. */
  function Separately(lists: seq<DrawList>, n: nat, v: View): seq<Event>
    requires n <= |lists|
  {
    if n == 0 then []
    else
      var l := lists[n - 1];
      Separately(lists, n - 1, v) + RanList(l, |l.commands|, n - 1, l.vertices, l.indices, 0, 0, v)
  }

  // ----- all lists in one buffer -----

  function AllVertices(lists: seq<DrawList>, n: nat): seq<Vertex>
    requires n <= |lists|
  {
    if n == 0 then [] else AllVertices(lists, n - 1) + lists[n - 1].vertices
  }

  function AllIndices(lists: seq<DrawList>, n: nat): seq<nat>
    requires n <= |lists|
  {
    if n == 0 then [] else AllIndices(lists, n - 1) + lists[n - 1].indices
  }

  lemma {:induction false} AllGrow(lists: seq<DrawList>, m: nat, n: nat)
    requires m <= n <= |lists|
    ensures AllVertices(lists, m) <= AllVertices(lists, n)
    ensures AllIndices(lists, m) <= AllIndices(lists, n)
    decreases n - m
  {
    if m < n {
      AllGrow(lists, m, n - 1);
    }
  }

  /** A buffer that holds a list's data at its offsets. */
  ghost predicate HoldsList(l: DrawList, vertices: seq<Vertex>, indices: seq<nat>, voff: nat, ioff: nat) {
    && voff + |l.vertices| <= |vertices| && ioff + |l.indices| <= |indices|
    && vertices[voff..voff + |l.vertices|] == l.vertices
    && indices[ioff..ioff + |l.indices|] == l.indices
  }

  lemma PrefixOf<T>(a: seq<T>, b: seq<T>, c: seq<T>)
    requires a <= b <= c
    ensures a <= c
  {
  }

  lemma PartOf<T>(before: seq<T>, part: seq<T>, whole: seq<T>)
    requires before + part <= whole
    ensures |before| + |part| <= |whole| && whole[|before|..|before| + |part|] == part
  {
    assert whole[..|before + part|] == before + part;
  }

  lemma MergedHolds(lists: seq<DrawList>, k: nat, vertices: seq<Vertex>, indices: seq<nat>)
    requires k < |lists|
    requires AllVertices(lists, |lists|) <= vertices && AllIndices(lists, |lists|) <= indices
    ensures HoldsList(lists[k], vertices, indices, |AllVertices(lists, k)|, |AllIndices(lists, k)|)
  {
    assert AllVertices(lists, k + 1) == AllVertices(lists, k) + lists[k].vertices;
    assert AllIndices(lists, k + 1) == AllIndices(lists, k) + lists[k].indices;
    hide AllVertices, AllIndices;
    AllGrow(lists, k + 1, |lists|);
    PrefixOf(AllVertices(lists, k + 1), AllVertices(lists, |lists|), vertices);
    PrefixOf(AllIndices(lists, k + 1), AllIndices(lists, |lists|), indices);
    PartOf(AllVertices(lists, k), lists[k].vertices, vertices);
    PartOf(AllIndices(lists, k), lists[k].indices, indices);
  }

  /** A draw with its list's offsets added fetches what it fetches from its own list. */
  lemma FetchesOwn(l: DrawList, c: Command, vertices: seq<Vertex>, indices: seq<nat>, voff: nat, ioff: nat)
    requires HoldsList(l, vertices, indices, voff, ioff) && InList(c, l) && c.Draw?
    ensures Fetched(vertices, indices, c.elemCount, ioff + c.idxOffset, voff + c.vtxOffset) ==
            Fetched(l.vertices, l.indices, c.elemCount, c.idxOffset, c.vtxOffset)
  {
    hide HoldsList;
    var f := Fetched(vertices, indices, c.elemCount, ioff + c.idxOffset, voff + c.vtxOffset);
    var own := Fetched(l.vertices, l.indices, c.elemCount, c.idxOffset, c.vtxOffset);
    forall k | 0 <= k < c.elemCount
      ensures f[k] == own[k]
    {
      assert NamesVertex(c, l, k);
      HeldAt(l, vertices, indices, voff, ioff, c.vtxOffset + l.indices[c.idxOffset + k], c.idxOffset + k);
    }
  }

  lemma HeldAt(l: DrawList, vertices: seq<Vertex>, indices: seq<nat>, voff: nat, ioff: nat, v: nat, i: nat)
    requires HoldsList(l, vertices, indices, voff, ioff) && v < |l.vertices| && i < |l.indices|
    ensures voff + v < |vertices| && vertices[voff + v] == l.vertices[v]
    ensures ioff + i < |indices| && indices[ioff + i] == l.indices[i]
  {
    assert vertices[voff..voff + |l.vertices|][v] == l.vertices[v];
    assert indices[ioff..ioff + |l.indices|][i] == l.indices[i];
  }

  /** A draw finds all it asks for exactly when it is in its list. */
  lemma InListIff(c: Command, l: DrawList)
    requires c.Draw?
    ensures InList(c, l) <==> None !in Fetched(l.vertices, l.indices, c.elemCount, c.idxOffset, c.vtxOffset)
  {
    var f := Fetched(l.vertices, l.indices, c.elemCount, c.idxOffset, c.vtxOffset);
    forall k | 0 <= k < c.elemCount
      ensures NamesVertex(c, l, k) <==> f[k] != None
    {
    }
    if None !in f {
      assert forall k | 0 <= k < |f| :: f[k] in f;
    }
  }

  lemma {:induction false} ListRunsAlike(l: DrawList, n: nat, list: nat, vertices: seq<Vertex>, indices: seq<nat>,
                                         voff: nat, ioff: nat, v: View)
    requires HoldsList(l, vertices, indices, voff, ioff) && ListOk(l) && n <= |l.commands|
    ensures RanList(l, n, list, vertices, indices, voff, ioff, v) == RanList(l, n, list, l.vertices, l.indices, 0, 0, v)
  {
    hide Fetched, Present, Clipped, HoldsList;
    if n > 0 {
      ListRunsAlike(l, n - 1, list, vertices, indices, voff, ioff, v);
      var c := l.commands[n - 1];
      assert InList(c, l);
      if c.Draw? {
        FetchesOwn(l, c, vertices, indices, voff, ioff);
      }
    }
  }

  /** A draw of a list on its own shows, in the order of its indices, the vertices they name behind
      its first vertex, clipped and textured as it says; with nothing left to show, nothing. */
  lemma OwnDraw(l: DrawList, c: Command, list: nat, v: View)
    requires c.Draw? && InList(c, l)
    ensures var e := Ran(c, list, l.vertices, l.indices, 0, 0, v);
            if Clipped(c.clip, v) == None then e == []
            else
              && |e| == 1 && e[0].Drawn?
              && e[0].scissor == Clipped(c.clip, v).value && e[0].texture == c.texture
              && |e[0].vertices| == c.elemCount
              && forall k | 0 <= k < c.elemCount ::
                   && NamesVertex(c, l, k)
                   && e[0].vertices[k] == l.vertices[c.vtxOffset + l.indices[c.idxOffset + k]]
  {
    hide Clipped;
    var f := Fetched(l.vertices, l.indices, c.elemCount, c.idxOffset, c.vtxOffset);
    forall k | 0 <= k < |f|
      ensures NamesVertex(c, l, k) && f[k] == Some(l.vertices[c.vtxOffset + l.indices[c.idxOffset + k]])
    {
    }
    AllPresent(f);
  }

  lemma {:induction false} AllPresent(s: seq<Option<Vertex>>)
    requires None !in s
    ensures |Present(s)| == |s| && forall k | 0 <= k < |s| :: s[k] == Some(Present(s)[k])
  {
    if s != [] {
      AllPresent(s[1..]);
      assert s[0] in s;
      assert Present(s) == [s[0].value] + Present(s[1..]);
    }
  }

  class Backend {
    var vertexBuffer: array<Vertex>
    var indexBuffer: array<nat>
    var events: seq<Event>

    /** No buffers yet. */
    constructor ()
      ensures events == [] && vertexBuffer.Length == indexBuffer.Length == 0
      ensures fresh(vertexBuffer) && fresh(indexBuffer)
    {
      vertexBuffer := new Vertex[0];
      indexBuffer := new nat[0];
      events := [];
    }

    /** Buffers that are missing or too small for the frame are replaced by larger ones. */
    method Grow(totalVertices: nat, totalIndices: nat)
      modifies this`vertexBuffer, this`indexBuffer
      ensures totalVertices <= vertexBuffer.Length && totalIndices <= indexBuffer.Length
      ensures if 0 < old(vertexBuffer.Length) && totalVertices <= old(vertexBuffer.Length)
              then vertexBuffer == old(vertexBuffer)
              else fresh(vertexBuffer) && vertexBuffer.Length == totalVertices + 5000
      ensures if 0 < old(indexBuffer.Length) && totalIndices <= old(indexBuffer.Length)
              then indexBuffer == old(indexBuffer)
              else fresh(indexBuffer) && indexBuffer.Length == totalIndices + 10000
    {
      if vertexBuffer.Length == 0 || vertexBuffer.Length < totalVertices {
        vertexBuffer := new Vertex[totalVertices + 5000];
      }
      if indexBuffer.Length == 0 || indexBuffer.Length < totalIndices {
        indexBuffer := new nat[totalIndices + 10000];
      }
    }

    /** The lists copied one behind the other. */
    method Upload(lists: seq<DrawList>)
      requires |AllVertices(lists, |lists|)| <= vertexBuffer.Length &&
               |AllIndices(lists, |lists|)| <= indexBuffer.Length
      modifies vertexBuffer, indexBuffer
      ensures AllVertices(lists, |lists|) <= vertexBuffer[..] && AllIndices(lists, |lists|) <= indexBuffer[..]
    {
      var n, vdst, idst := 0, 0, 0;
      while n < |lists|
        invariant n <= |lists|
        invariant vdst == |AllVertices(lists, n)| <= vertexBuffer.Length &&
                  idst == |AllIndices(lists, n)| <= indexBuffer.Length
        invariant vertexBuffer[..vdst] == AllVertices(lists, n) && indexBuffer[..idst] == AllIndices(lists, n)
      {
        AllGrow(lists, n + 1, |lists|);
        CopyVertices(lists[n].vertices, vdst);
        CopyIndices(lists[n].indices, idst);
        vdst := vdst + |lists[n].vertices|;
        idst := idst + |lists[n].indices|;
        n := n + 1;
      }
      assert vertexBuffer[..][..vdst] == vertexBuffer[..vdst];
      assert indexBuffer[..][..idst] == indexBuffer[..idst];
    }

    method CopyVertices(data: seq<Vertex>, at: nat)
      requires at + |data| <= vertexBuffer.Length
      modifies vertexBuffer
      ensures vertexBuffer[..at + |data|] == old(vertexBuffer[..at]) + data
    {
      forall k | 0 <= k < |data| {
        vertexBuffer[at + k] := data[k];
      }
    }

    method CopyIndices(data: seq<nat>, at: nat)
      requires at + |data| <= indexBuffer.Length
      modifies indexBuffer
      ensures indexBuffer[..at + |data|] == old(indexBuffer[..at]) + data
    {
      forall k | 0 <= k < |data| {
        indexBuffer[at + k] := data[k];
      }
    }

    /** The commands of one list, with the offsets its data has in the merged buffers. */
    method RunList(l: DrawList, list: nat, voff: nat, ioff: nat, v: View)
      modifies this`events
      ensures events == old(events) + RanList(l, |l.commands|, list, vertexBuffer[..], indexBuffer[..], voff, ioff, v)
    {
      hide Fetched, Present, Clipped;
      var k := 0;
      while k < |l.commands|
        invariant k <= |l.commands|
        invariant events == old(events) + RanList(l, k, list, vertexBuffer[..], indexBuffer[..], voff, ioff, v)
      {
        match l.commands[k] {
          case Callback(id) => events := events + [Called(list, id)];
          case ResetState => events := events + [Reset];
          case Draw(count, start, base, clip, texture) =>
            var scissor := Clipped(clip, v);
            if scissor.Some? {
              var fetched := Fetched(vertexBuffer[..], indexBuffer[..], count, ioff + start, voff + base);
              events := events + [Drawn(Present(fetched), scissor.value, texture)];
            }
        }
        k := k + 1;
      }
    }

    method UpdateTextures(textures: seq<TextureData>) returns (ok: bool)
      modifies this`events
      ensures ok == AllUpdate(textures) && events == old(events) + Updates(textures)
    {
      hide Updates;
      var k := 0;
      assert textures[0..] == textures;
      UpdatesFrom(textures, |textures|);
      while k < |textures|
        invariant k <= |textures| && events + Updates(textures[k..]) == old(events) + Updates(textures)
        invariant forall m | 0 <= m < k :: textures[m].upToDate || textures[m].canUpdate
      {
        UpdatesFrom(textures, k);
        if !textures[k].upToDate {
          events := events + [Updated(textures[k].id)];
          if !textures[k].canUpdate {
            return false;
          }
        }
        k := k + 1;
      }
      return true;
    }

    /** ImGui_ImplDX11_RenderDrawData: nothing for an empty display, and no lists if a texture
        cannot be updated.  Otherwise, with totals that are the sums of the list sizes, merging
        is invisible: every list is drawn as if from buffers of its own. */
    method RenderDrawData(width: real, height: real, textures: seq<TextureData>, lists: seq<DrawList>,
                          totalVertices: nat, totalIndices: nat, v: View)
      requires totalVertices == |AllVertices(lists, |lists|)| && totalIndices == |AllIndices(lists, |lists|)|
      requires forall k | 0 <= k < |lists| :: ListOk(lists[k])
      modifies this, vertexBuffer, indexBuffer
      ensures events == old(events) +
                        (if width <= 0.0 || height <= 0.0 then []
                         else Updates(textures) + (if AllUpdate(textures) then Separately(lists, |lists|, v) else []))
    {
      if width <= 0.0 || height <= 0.0 {
        return;
      }
      var ok := UpdateTextures(textures);
      if !ok {
        return;
      }
      Grow(totalVertices, totalIndices);
      Upload(lists);
      RunLists(lists, v);
      assert old(events) + Updates(textures) + Separately(lists, |lists|, v) ==
             old(events) + (Updates(textures) + Separately(lists, |lists|, v));
    }

    /** The merged lists one after the other, with running offsets. */
    method RunLists(lists: seq<DrawList>, v: View)
      requires AllVertices(lists, |lists|) <= vertexBuffer[..] && AllIndices(lists, |lists|) <= indexBuffer[..]
      requires forall k | 0 <= k < |lists| :: ListOk(lists[k])
      modifies this`events
      ensures events == old(events) + Separately(lists, |lists|, v)
    {
      hide Fetched, Present, Clipped, HoldsList, ListOk, RanList;
      var n, idxOffset, vtxOffset := 0, 0, 0;
      while n < |lists|
        invariant n <= |lists|
        invariant vtxOffset == |AllVertices(lists, n)| && idxOffset == |AllIndices(lists, n)|
        invariant events == old(events) + Separately(lists, n, v)
      {
        var l := lists[n];
        MergedHolds(lists, n, vertexBuffer[..], indexBuffer[..]);
        ListRunsAlike(l, |l.commands|, n, vertexBuffer[..], indexBuffer[..], vtxOffset, idxOffset, v);
        RunList(l, n, vtxOffset, idxOffset, v);
        idxOffset := idxOffset + |l.indices|;
        vtxOffset := vtxOffset + |l.vertices|;
        n := n + 1;
      }
    }
  }
}
