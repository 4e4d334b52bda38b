/**
 * The demo's module-level state and the event handlers that change it:
 * the geometry registry, the selected shape kind, the vertices under the
 * pointer, and the contents last uploaded to the vertex buffer. A frame's
 * draw calls are computed from the same state.
 */
module Canvas {
  import opened Geometry
  import opened Layout
  import opened Render

  datatype Option<T> = None | Some(value: T)

  /**
   * Lays the registry out into one buffer the way a click does: for each
   * key in order, for each stored shape, every coordinate is appended.
   */
  method FlattenRegistry(g: Registry) returns (buffVertices: seq<real>)
    requires Complete(g)
    ensures buffVertices == Flatten(g)
  {
    buffVertices := [];
    for i := 0 to |REGISTRY_KEYS|
      invariant buffVertices == JoinEntries(EntriesOf(g, REGISTRY_KEYS[..i]))
    {
      var geometry := REGISTRY_KEYS[i];
      var stored := g[geometry];
      ghost var done := EntriesOf(g, REGISTRY_KEYS[..i]);
      assert done + Tagged(geometry, stored[..0]) == done;
      for j := 0 to |stored|
        invariant buffVertices == JoinEntries(done + Tagged(geometry, stored[..j]))
      {
        var geomVertices := stored[j];
        ghost var before := buffVertices;
        for e := 0 to |geomVertices|
          invariant buffVertices == before + geomVertices[..e]
        {
          buffVertices := buffVertices + [geomVertices[e]];
        }
        assert geomVertices[..|geomVertices|] == geomVertices;
        JoinTaggedStep(done, geometry, stored, j);
      }
      assert stored[..|stored|] == stored;
      EntriesOfStep(g, REGISTRY_KEYS, i);
    }
    assert REGISTRY_KEYS[..|REGISTRY_KEYS|] == REGISTRY_KEYS;
  }

  /**
   * The draw calls of one frame, issued the way the render loop issues
   * them: for each key in order, the kind's mode and vertex count, then one
   * call per stored shape, the byte offset advancing by 8 bytes per vertex.
   */
  method ScheduleRegistry(g: Registry) returns (calls: seq<DrawCall>)
    requires Complete(g)
    ensures calls == Schedule(Entries(g))
  {
    calls := [];
    var offset: nat := 0;
    for i := 0 to |REGISTRY_KEYS|
      invariant calls == Schedule(EntriesOf(g, REGISTRY_KEYS[..i]))
      invariant offset == 8 * VertexTotal(EntriesOf(g, REGISTRY_KEYS[..i]))
    {
      var geometry := REGISTRY_KEYS[i];
      var params := ParamsOf(geometry);
      var mode, nVertex := params.mode, params.nVertex;
      var stored := g[geometry];
      ghost var done := EntriesOf(g, REGISTRY_KEYS[..i]);
      assert done + Tagged(geometry, stored[..0]) == done;
      for j := 0 to |stored|
        invariant calls == Schedule(done + Tagged(geometry, stored[..j]))
        invariant offset == 8 * VertexTotal(done + Tagged(geometry, stored[..j]))
      {
        ScheduleTaggedStep(done, geometry, stored, j);
        calls := calls + [DrawCall(mode, offset, nVertex)];
        offset := offset + 8 * nVertex;
      }
      assert stored[..|stored|] == stored;
      EntriesOfStep(g, REGISTRY_KEYS, i);
    }
    assert REGISTRY_KEYS[..|REGISTRY_KEYS|] == REGISTRY_KEYS;
  }

  class Scene {
    /** For each kind, the coordinate lists stamped so far, in click order. */
    var geometries: Registry
    /** The kind the next click stamps. */
    var shape: ShapeKind
    /** The vertices computed at the last pointer move; none before the first move. */
    var currentShapeVertices: Option<seq<real>>
    /** The vertex count computed at the last pointer move (reset to 1 when the kind changes). */
    var vertexCount: nat
    /** The contents last uploaded to the vertex buffer. */
    var buffer: seq<real>

    /**
     * The registry has all five lists, and the buffer holds its layout
     * whenever that layout is not empty (clearing the registry does not
     * upload anything, so the buffer then keeps stale contents that no
     * draw call reads).
     */
    ghost predicate Valid()
      reads this
    {
      Complete(geometries) && (Flatten(geometries) == [] || buffer == Flatten(geometries))
    }

    /** Every stored shape has the number of coordinates its kind's draw call reads. */
    ghost predicate StoredAligned()
      reads this
    {
      RegistryAligned(geometries)
    }

    /** The vertices under the pointer were computed for the currently selected kind. */
    ghost predicate CurrentFitsShape()
      reads this
    {
      currentShapeVertices.Some? && |currentShapeVertices.value| == 2 * ParamsOf(shape).nVertex
    }

    /** The state after the script has loaded: empty registry, `point` selected. */
    constructor ()
      ensures Valid() && StoredAligned()
      ensures forall k: ShapeKind :: geometries[k] == []
      ensures shape == Point && vertexCount == 1
      ensures currentShapeVertices == None && buffer == []
    {
      geometries := map[Point := [], HLine := [], VLine := [], Triangle := [], Square := []];
      currentShapeVertices := None;
      buffer := [];
      new;
      Draw(Point);
      FiveKeysComplete(geometries);
      FiveListsEmpty(geometries);
      EmptyRegistryFlattensToEmpty(geometries);
    }

    /**
     * Pointer move: the vertices of the selected kind around the pointer's
     * clip-space position become the current vertices.
     */
    method UpdatePosition(clientX: real, clientY: real, left: real, top: real, width: real, height: real)
      requires Valid()
      requires width > 0.0 && height > 0.0
      modifies this
      ensures Valid() && CurrentFitsShape()
      ensures var center := ModelSpaceCoords(clientX, clientY, left, top, width, height);
              currentShapeVertices == Some(GetVertices(center, shape).coords)
              && vertexCount == GetVertices(center, shape).count
      ensures geometries == old(geometries) && shape == old(shape) && buffer == old(buffer)
    {
      var modelSpaceCenter := ModelSpaceCoords(clientX, clientY, left, top, width, height);
      var vertices := GetVertices(modelSpaceCenter, shape);
      currentShapeVertices := Some(vertices.coords);
      vertexCount := vertices.count;
      ParamsAgreeWithVertices(modelSpaceCenter, shape);
    }

    /**
     * Pointer down: the current vertices are appended to the list of the
     * selected kind, the whole registry is laid out again into one buffer,
     * and that buffer is uploaded unless it is empty.
     */
    method DrawShape()
      requires Valid()
      requires currentShapeVertices.Some?
      modifies this
      ensures Valid()
      ensures var kind := old(shape);
              geometries == old(geometries)[kind := old(geometries)[kind] + [old(currentShapeVertices).value]]
      ensures forall k: ShapeKind :: k != shape ==> geometries[k] == old(geometries)[k]
      ensures buffer == if Flatten(geometries) == [] then old(buffer) else Flatten(geometries)
      ensures old(StoredAligned() && CurrentFitsShape()) ==> StoredAligned()
      ensures shape == old(shape) && currentShapeVertices == old(currentShapeVertices)
      ensures vertexCount == old(vertexCount)
    {
      var kind, geomVertices := shape, currentShapeVertices.value;
      var g := geometries[kind := geometries[kind] + [geomVertices]];
      PushKeepsOtherKinds(geometries, kind, geomVertices);
      if StoredAligned() && CurrentFitsShape() {
        PushKeepsAligned(geometries, kind, geomVertices);
      }
      geometries := g;

      var buffVertices := FlattenRegistry(g);
      if |buffVertices| > 0 {
        buffer := buffVertices;
      }
    }

    /** Selecting a kind: later clicks stamp that kind; the vertex count is reset to 1. */
    method Draw(s: ShapeKind)
      modifies this
      ensures shape == s && vertexCount == 1
      ensures geometries == old(geometries) && currentShapeVertices == old(currentShapeVertices)
      ensures buffer == old(buffer)
    {
      vertexCount := 1;
      shape := s;
    }

    /** Clearing: all five lists are emptied; nothing else changes and nothing is uploaded. */
    method ClearCanvas()
      requires Valid()
      modifies this
      ensures Valid() && StoredAligned()
      ensures forall k: ShapeKind :: geometries[k] == []
      ensures Entries(geometries) == []
      ensures shape == old(shape) && currentShapeVertices == old(currentShapeVertices)
      ensures vertexCount == old(vertexCount) && buffer == old(buffer)
    {
      geometries := geometries[Point := []];
      geometries := geometries[HLine := []];
      geometries := geometries[VLine := []];
      geometries := geometries[Triangle := []];
      geometries := geometries[Square := []];
      FiveListsEmpty(geometries);
      EmptyRegistryFlattensToEmpty(geometries);
    }

    /**
     * One frame: for each kind in key order, one draw call per stored shape
     * with the kind's mode and vertex count, the byte offset advancing by
     * 8 bytes per vertex drawn. When every stored shape fits its kind, each
     * call reads from the uploaded buffer exactly the shape it draws.
     */
    method Render() returns (calls: seq<DrawCall>)
      requires Valid()
      ensures calls == Schedule(Entries(geometries))
      ensures |calls| == |Entries(geometries)|
      ensures StoredAligned() ==>
        forall i :: 0 <= i < |calls| ==>
          InBuffer(buffer, calls[i]) && FloatsRead(buffer, calls[i]) == Entries(geometries)[i].coords
    {
      calls := ScheduleRegistry(geometries);

      if StoredAligned() {
        ScheduleReadsLayout(geometries);
      }
    }
  }

  /** The layout and frame of a registry holding one stray point's coordinates as a triangle. */
  lemma OnePointAsTriangle(g: Registry)
    requires Complete(g) && g[Triangle] == [[0.0, 0.0]]
    requires g[Point] == [] && g[HLine] == [] && g[VLine] == [] && g[Square] == []
    ensures !RegistryAligned(g)
    ensures Flatten(g) == [0.0, 0.0]
    ensures Schedule(Entries(g)) == [DrawCall(Triangles, 0, 3)]
  {
    assert Concat([[0.0, 0.0]]) == Concat([]) + [0.0, 0.0];
    EntriesInKeyOrder(g);
    assert Tagged(Triangle, g[Triangle]) == [Entry(Triangle, [0.0, 0.0])];
    assert Entries(g) == [Entry(Triangle, [0.0, 0.0])];
    assert Schedule(Entries(g)) == Schedule([]) + [DrawCall(Triangles, 8 * VertexTotal([]), 3)];
  }

  /**
   * A click after selecting a kind, with no pointer move in between, stores
   * the previously selected kind's vertices under the new kind. Here a
   * point's two coordinates are stamped as a triangle, and the triangle's
   * draw call then asks for three vertices from a buffer of two floats.
   */
  method SelectThenClickWithoutMove() returns (stored: Registry, uploaded: seq<real>, calls: seq<DrawCall>)
    ensures Complete(stored) && stored[Triangle] == [[0.0, 0.0]]
    ensures !RegistryAligned(stored)
    ensures uploaded == [0.0, 0.0]
    ensures calls == [DrawCall(Triangles, 0, 3)]
    ensures !InBuffer(uploaded, calls[0])
  {
    var scene := new Scene();
    var empty := scene.geometries;
    scene.UpdatePosition(400.0, 300.0, 0.0, 0.0, 800.0, 600.0);
    assert ModelSpaceCoords(400.0, 300.0, 0.0, 0.0, 800.0, 600.0) == Coords(0.0, 0.0);
    assert scene.currentShapeVertices == Some([0.0, 0.0]);
    scene.Draw(Triangle);
    scene.DrawShape();
    stored := scene.geometries;
    assert stored == empty[Triangle := [[0.0, 0.0]]];
    OnePointAsTriangle(stored);
    calls := scene.Render();
    uploaded := scene.buffer;
  }
}
