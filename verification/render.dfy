/**
 * The per-frame draw schedule: one draw call per stored shape, in the
 * layout's order, each reading its vertices from the shared buffer at a
 * byte offset that advances by 8 bytes (two 4-byte floats) per vertex.
 */
module Render {
  import opened Geometry
  import opened Layout

  /** The primitive modes the demo draws with. */
  datatype DrawMode = Points | TriangleFan | Triangles

  /** The primitive mode and vertex count used for every shape of one kind. */
  datatype DrawParams = DrawParams(mode: DrawMode, nVertex: nat)

  /**
   * One draw call: a vertex attribute of two floats with a stride of 8
   * bytes starting at byte `offset` of the buffer, drawn as `count`
   * vertices from the first one.
   */
  datatype DrawCall = DrawCall(mode: DrawMode, offset: nat, count: nat)

  /** Bytes per buffer element: the buffer holds 32-bit floats. */
  const FLOAT_BYTES: nat := 4

  /** The render loop's table of primitive mode and vertex count per kind. */
  function ParamsOf(k: ShapeKind): (p: DrawParams)
    ensures p.nVertex >= 1
    ensures p.mode == Points <==> p.nVertex == 1
    ensures p.mode == Triangles <==> p.nVertex == 3
    ensures p.mode == TriangleFan <==> p.nVertex == 4
  {
    match k
    case Point => DrawParams(Points, 1)
    case HLine => DrawParams(TriangleFan, 4)
    case VLine => DrawParams(TriangleFan, 4)
    case Triangle => DrawParams(Triangles, 3)
    case Square => DrawParams(TriangleFan, 4)
  }

  /**
   * The render table and the vertex table agree on every kind: a draw reads
   * as many vertices as the vertex table produced, wherever the centre is.
   */
  lemma ParamsAgreeWithVertices(center: Coords, k: ShapeKind)
    ensures ParamsOf(k).nVertex == GetVertices(center, k).count
    ensures |GetVertices(center, k).coords| == 2 * ParamsOf(k).nVertex
  {
  }

  /** The number of vertices drawn for the given shapes. */
  function VertexTotal(es: seq<Entry>): (total: nat)
    ensures |es| <= total <= 4 * |es|
  {
    if es == [] then 0 else VertexTotal(es[..|es| - 1]) + ParamsOf(es[|es| - 1].kind).nVertex
  }

  /** The draw calls a frame issues for the given shapes, offset advancing after each. */
  function Schedule(es: seq<Entry>): (calls: seq<DrawCall>)
    ensures |calls| == |es|
    ensures forall i :: 0 <= i < |es| ==>
      calls[i].mode == ParamsOf(es[i].kind).mode && calls[i].count == ParamsOf(es[i].kind).nVertex
  {
    if es == [] then []
    else
      var n := |es| - 1;
      var params := ParamsOf(es[n].kind);
      Schedule(es[..n]) + [DrawCall(params.mode, 8 * VertexTotal(es[..n]), params.nVertex)]
  }

  /** Every stored shape holds exactly the two floats per vertex its draw call reads. */
  predicate Aligned(es: seq<Entry>)
  {
    forall i :: 0 <= i < |es| ==> |es[i].coords| == 2 * ParamsOf(es[i].kind).nVertex
  }

  /** Every shape stored in the registry fits its kind. */
  predicate RegistryAligned(g: Registry)
  {
    forall k, j :: k in g && 0 <= j < |g[k]| ==> |g[k][j]| == 2 * ParamsOf(k).nVertex
  }

  /** Appending a shape that fits its kind keeps every stored shape fitting its kind. */
  lemma PushKeepsAligned(g: Registry, k: ShapeKind, coords: seq<real>)
    requires k in g && RegistryAligned(g) && |coords| == 2 * ParamsOf(k).nVertex
    ensures RegistryAligned(g[k := g[k] + [coords]])
  {
  }

  /** The draw call stays inside the buffer and starts at a whole float. */
  predicate InBuffer(buffer: seq<real>, call: DrawCall)
  {
    call.offset % FLOAT_BYTES == 0 && call.offset / FLOAT_BYTES + 2 * call.count <= |buffer|
  }

  /** The floats a draw call reads from the buffer: two per vertex from its offset on. */
  function FloatsRead(buffer: seq<real>, call: DrawCall): (floats: seq<real>)
    requires InBuffer(buffer, call)
    ensures |floats| == 2 * call.count
  {
    buffer[call.offset / FLOAT_BYTES .. call.offset / FLOAT_BYTES + 2 * call.count]
  }

  lemma VertexTotalSnoc(es: seq<Entry>, e: Entry)
    ensures VertexTotal(es + [e]) == VertexTotal(es) + ParamsOf(e.kind).nVertex
  {
    assert (es + [e])[..|es|] == es;
  }

  lemma ScheduleSnoc(es: seq<Entry>, e: Entry)
    ensures Schedule(es + [e])
         == Schedule(es) + [DrawCall(ParamsOf(e.kind).mode, 8 * VertexTotal(es), ParamsOf(e.kind).nVertex)]
  {
    assert (es + [e])[..|es|] == es;
  }

  /**
   * Drawing one more shape of the kind being visited appends its draw call
   * at the current offset and advances the offset by 8 bytes per vertex.
   */
  lemma ScheduleTaggedStep(done: seq<Entry>, k: ShapeKind, stored: seq<seq<real>>, j: nat)
    requires j < |stored|
    ensures var drawn := done + Tagged(k, stored[..j]);
            var drawn' := done + Tagged(k, stored[..j + 1]);
            Schedule(drawn') == Schedule(drawn) + [DrawCall(ParamsOf(k).mode, 8 * VertexTotal(drawn), ParamsOf(k).nVertex)]
            && VertexTotal(drawn') == VertexTotal(drawn) + ParamsOf(k).nVertex
  {
    var drawn := done + Tagged(k, stored[..j]);
    TaggedSnoc(k, stored, j);
    assert done + Tagged(k, stored[..j + 1]) == drawn + [Entry(k, stored[j])];
    ScheduleSnoc(drawn, Entry(k, stored[j]));
    VertexTotalSnoc(drawn, Entry(k, stored[j]));
  }

  /**
   * Draw call i draws shape i of the layout with its kind's mode and vertex
   * count, at a byte offset of 8 times the number of vertices of all the
   * shapes drawn before it.
   */
  lemma {:induction false} ScheduleAt(es: seq<Entry>, i: nat)
    requires i < |es|
    ensures |Schedule(es)| == |es|
    ensures Schedule(es)[i] == DrawCall(ParamsOf(es[i].kind).mode, 8 * VertexTotal(es[..i]),
                                        ParamsOf(es[i].kind).nVertex)
  {
    var n := |es| - 1;
    if i < n {
      ScheduleAt(es[..n], i);
      assert es[..n][..i] == es[..i];
    }
  }

  /** The shapes of an aligned layout fill the buffer with two floats per drawn vertex. */
  lemma {:induction false} JoinLength(es: seq<Entry>)
    requires Aligned(es)
    ensures |JoinEntries(es)| == 2 * VertexTotal(es)
  {
    if es != [] {
      var n := |es| - 1;
      assert Aligned(es[..n]);
      JoinLength(es[..n]);
    }
  }

  /**
   * The central fact of the layout: in an aligned layout every draw call
   * stays inside the buffer and reads exactly the coordinates of the shape
   * it draws, and the draws together end exactly at the end of the buffer.
   */
  lemma {:induction false} DrawReadsItsShape(es: seq<Entry>, i: nat)
    requires Aligned(es) && i < |es|
    ensures |Schedule(es)| == |es|
    ensures InBuffer(JoinEntries(es), Schedule(es)[i])
    ensures FloatsRead(JoinEntries(es), Schedule(es)[i]) == es[i].coords
    ensures 8 * VertexTotal(es) == FLOAT_BYTES * |JoinEntries(es)|
  {
    ScheduleAt(es, i);
    JoinLength(es);
    var before, after := es[..i], es[i + 1..];
    assert es == before + [es[i]] + after;
    JoinEntriesAppend(before + [es[i]], after);
    JoinEntriesSnoc(before, es[i]);
    assert Aligned(before);
    JoinLength(before);
    var call := Schedule(es)[i];
    assert call.offset / FLOAT_BYTES == |JoinEntries(before)|;
  }

  /**
   * Every draw call of a frame over an aligned registry reads, from the
   * registry's layout, exactly the coordinates of the shape it draws.
   */
  lemma ScheduleReadsLayout(g: Registry)
    requires Complete(g) && RegistryAligned(g)
    ensures |Schedule(Entries(g))| == |Entries(g)|
    ensures Entries(g) != [] ==> Flatten(g) != []
    ensures forall i :: 0 <= i < |Entries(g)| ==>
      InBuffer(Flatten(g), Schedule(Entries(g))[i]) && FloatsRead(Flatten(g), Schedule(Entries(g))[i]) == Entries(g)[i].coords
  {
    var es := Entries(g);
    RegistryAlignedEntries(g);
    JoinLength(es);
    forall i | 0 <= i < |es|
      ensures InBuffer(Flatten(g), Schedule(es)[i]) && FloatsRead(Flatten(g), Schedule(es)[i]) == es[i].coords
    {
      DrawReadsItsShape(es, i);
    }
  }

  lemma {:induction false} EntriesOfAligned(g: Registry, keys: seq<ShapeKind>)
    requires Complete(g) && RegistryAligned(g)
    ensures Aligned(EntriesOf(g, keys))
    decreases |keys|
  {
    if keys != [] {
      EntriesOfAligned(g, keys[..|keys| - 1]);
    }
  }

  /** A registry whose every stored shape fits its kind lays out an aligned buffer. */
  lemma RegistryAlignedEntries(g: Registry)
    requires Complete(g) && RegistryAligned(g)
    ensures Aligned(Entries(g))
  {
    EntriesOfAligned(g, REGISTRY_KEYS);
  }
}
