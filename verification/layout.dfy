/**
 * The geometry registry as a value, and the single vertex buffer that is
 * laid out from it: every stored coordinate list, kind by kind in the
 * registry's key order and, within a kind, in the order of the clicks.
 */
module Layout {
  import opened Geometry

  /** For each shape kind, the coordinate lists of the shapes stamped so far. */
  type Registry = map<ShapeKind, seq<seq<real>>>

  /** One stored shape: the kind it was stamped under and its coordinates. */
  datatype Entry = Entry(kind: ShapeKind, coords: seq<real>)

  /** The registry has a (possibly empty) list for every kind. */
  predicate Complete(g: Registry)
  {
    forall k: ShapeKind :: k in g
  }

  /** A registry holding the five keys is complete. */
  lemma FiveKeysComplete(g: Registry)
    requires Point in g && HLine in g && VLine in g && Triangle in g && Square in g
    ensures Complete(g)
  {
    forall k: ShapeKind ensures k in g {
      match k
      case Point =>
      case HLine =>
      case VLine =>
      case Triangle =>
      case Square =>
    }
  }

  /** A registry whose five lists are empty has no stored shape at all. */
  lemma FiveListsEmpty(g: Registry)
    requires Complete(g)
    requires g[Point] == [] && g[HLine] == [] && g[VLine] == [] && g[Triangle] == [] && g[Square] == []
    ensures forall k: ShapeKind :: g[k] == []
  {
    forall k: ShapeKind ensures g[k] == [] {
      match k
      case Point =>
      case HLine =>
      case VLine =>
      case Triangle =>
      case Square =>
    }
  }

  /** Appending to one kind's list keeps the registry complete and leaves the other kinds' lists alone. */
  lemma PushKeepsOtherKinds(g: Registry, k: ShapeKind, coords: seq<real>)
    requires Complete(g)
    ensures Complete(g[k := g[k] + [coords]])
    ensures forall k': ShapeKind :: k' != k ==> g[k := g[k] + [coords]][k'] == g[k']
  {
  }

  /** The shapes of one kind, tagged with that kind, in the order they were stored. */
  function Tagged(k: ShapeKind, stored: seq<seq<real>>): seq<Entry>
  {
    seq(|stored|, i requires 0 <= i < |stored| => Entry(k, stored[i]))
  }

  /** The registry's shapes, the lists of the given keys one after the other. */
  function EntriesOf(g: Registry, keys: seq<ShapeKind>): seq<Entry>
    requires Complete(g)
  {
    if keys == [] then []
    else
      var last := keys[|keys| - 1];
      EntriesOf(g, keys[..|keys| - 1]) + Tagged(last, g[last])
  }

  /**
   * Every stored shape, in the order in which both the buffer and the draw
   * calls visit them: one entry per stored coordinate list.
   */
  function Entries(g: Registry): (es: seq<Entry>)
    requires Complete(g)
    ensures |es| == |g[Point]| + |g[HLine]| + |g[VLine]| + |g[Triangle]| + |g[Square]|
  {
    EntriesInKeyOrder(g);
    EntriesOf(g, REGISTRY_KEYS)
  }

  /** The coordinate lists concatenated, in order. */
  function Concat(stored: seq<seq<real>>): seq<real>
  {
    if stored == [] then [] else Concat(stored[..|stored| - 1]) + stored[|stored| - 1]
  }

  /** The coordinates of the given shapes, concatenated. */
  function JoinEntries(es: seq<Entry>): seq<real>
  {
    if es == [] then [] else JoinEntries(es[..|es| - 1]) + es[|es| - 1].coords
  }

  /**
   * The vertex buffer laid out from the registry: every stored coordinate
   * list, the kinds in key order and each kind's lists in click order.
   */
  function Flatten(g: Registry): (buffer: seq<real>)
    requires Complete(g)
    ensures buffer == Concat(g[Point]) + Concat(g[HLine]) + Concat(g[VLine])
                      + Concat(g[Triangle]) + Concat(g[Square])
  {
    FlattenInKeyOrder(g);
    JoinEntries(EntriesOf(g, REGISTRY_KEYS))
  }

  lemma EntriesOfSnoc(g: Registry, keys: seq<ShapeKind>, k: ShapeKind)
    requires Complete(g)
    ensures EntriesOf(g, keys + [k]) == EntriesOf(g, keys) + Tagged(k, g[k])
  {
    assert (keys + [k])[..|keys|] == keys;
  }

  lemma TaggedSnoc(k: ShapeKind, stored: seq<seq<real>>, j: nat)
    requires j < |stored|
    ensures Tagged(k, stored[..j + 1]) == Tagged(k, stored[..j]) + [Entry(k, stored[j])]
  {
  }

  lemma JoinEntriesSnoc(es: seq<Entry>, e: Entry)
    ensures JoinEntries(es + [e]) == JoinEntries(es) + e.coords
  {
    assert (es + [e])[..|es|] == es;
  }

  /** Laying out one more shape of the kind being visited appends its coordinates. */
  lemma JoinTaggedStep(done: seq<Entry>, k: ShapeKind, stored: seq<seq<real>>, j: nat)
    requires j < |stored|
    ensures JoinEntries(done + Tagged(k, stored[..j + 1])) == JoinEntries(done + Tagged(k, stored[..j])) + stored[j]
  {
    TaggedSnoc(k, stored, j);
    assert done + Tagged(k, stored[..j + 1]) == (done + Tagged(k, stored[..j])) + [Entry(k, stored[j])];
    JoinEntriesSnoc(done + Tagged(k, stored[..j]), Entry(k, stored[j]));
  }

  /** Visiting one more key adds that key's shapes after those of the keys before it. */
  lemma EntriesOfStep(g: Registry, keys: seq<ShapeKind>, i: nat)
    requires Complete(g) && i < |keys|
    ensures EntriesOf(g, keys[..i + 1]) == EntriesOf(g, keys[..i]) + Tagged(keys[i], g[keys[i]])
  {
    assert keys[..i + 1] == keys[..i] + [keys[i]];
    EntriesOfSnoc(g, keys[..i], keys[i]);
  }

  /** Laying out two runs of shapes one after the other lays out their coordinates one after the other. */
  lemma {:induction false} JoinEntriesAppend(a: seq<Entry>, b: seq<Entry>)
    ensures JoinEntries(a + b) == JoinEntries(a) + JoinEntries(b)
    decreases |b|
  {
    if b == [] {
      assert a + b == a;
    } else {
      var n := |b| - 1;
      assert a + b == (a + b[..n]) + [b[n]];
      assert b == b[..n] + [b[n]];
      JoinEntriesSnoc(a + b[..n], b[n]);
      JoinEntriesSnoc(b[..n], b[n]);
      JoinEntriesAppend(a, b[..n]);
    }
  }

  lemma {:induction false} EntriesOfEmptyRegistry(g: Registry, keys: seq<ShapeKind>)
    requires Complete(g)
    requires forall k: ShapeKind :: g[k] == []
    ensures EntriesOf(g, keys) == []
    decreases |keys|
  {
    if keys != [] {
      EntriesOfEmptyRegistry(g, keys[..|keys| - 1]);
    }
  }

  /** A registry whose five lists are all empty lays out an empty buffer. */
  lemma EmptyRegistryFlattensToEmpty(g: Registry)
    requires Complete(g)
    requires forall k: ShapeKind :: g[k] == []
    ensures Entries(g) == [] && Flatten(g) == []
  {
    EntriesOfEmptyRegistry(g, REGISTRY_KEYS);
  }

  /**
   * The fixed order of the layout: all points, then all horizontal lines,
   * vertical lines, triangles and squares, each kind in the order its
   * shapes were stored.
   */
  lemma EntriesInKeyOrder(g: Registry)
    requires Complete(g)
    ensures EntriesOf(g, REGISTRY_KEYS) == Tagged(Point, g[Point]) + Tagged(HLine, g[HLine]) + Tagged(VLine, g[VLine])
                          + Tagged(Triangle, g[Triangle]) + Tagged(Square, g[Square])
  {
    EntriesOfSnoc(g, [], Point);
    assert [] + [Point] == [Point];
    EntriesOfSnoc(g, [Point], HLine);
    assert [Point] + [HLine] == [Point, HLine];
    EntriesOfSnoc(g, [Point, HLine], VLine);
    assert [Point, HLine] + [VLine] == [Point, HLine, VLine];
    EntriesOfSnoc(g, [Point, HLine, VLine], Triangle);
    assert [Point, HLine, VLine] + [Triangle] == [Point, HLine, VLine, Triangle];
    EntriesOfSnoc(g, [Point, HLine, VLine, Triangle], Square);
    assert [Point, HLine, VLine, Triangle] + [Square] == REGISTRY_KEYS;
    assert EntriesOf(g, []) == [];
  }

  /** Laying out the shapes of one kind concatenates their coordinate lists. */
  lemma {:induction false} JoinTagged(k: ShapeKind, stored: seq<seq<real>>)
    ensures JoinEntries(Tagged(k, stored)) == Concat(stored)
    decreases |stored|
  {
    if stored != [] {
      var n := |stored| - 1;
      assert stored[..n + 1] == stored;
      TaggedSnoc(k, stored, n);
      JoinEntriesSnoc(Tagged(k, stored[..n]), Entry(k, stored[n]));
      JoinTagged(k, stored[..n]);
    }
  }

  /** The laid-out buffer is every kind's lists concatenated, in key order. */
  lemma FlattenInKeyOrder(g: Registry)
    requires Complete(g)
    ensures JoinEntries(EntriesOf(g, REGISTRY_KEYS))
         == Concat(g[Point]) + Concat(g[HLine]) + Concat(g[VLine]) + Concat(g[Triangle]) + Concat(g[Square])
  {
    EntriesInKeyOrder(g);
    var p, h, v, t, q := Tagged(Point, g[Point]), Tagged(HLine, g[HLine]), Tagged(VLine, g[VLine]),
                          Tagged(Triangle, g[Triangle]), Tagged(Square, g[Square]);
    JoinEntriesAppend(p + h + v + t, q);
    JoinEntriesAppend(p + h + v, t);
    JoinEntriesAppend(p + h, v);
    JoinEntriesAppend(p, h);
    JoinTagged(Point, g[Point]);
    JoinTagged(HLine, g[HLine]);
    JoinTagged(VLine, g[VLine]);
    JoinTagged(Triangle, g[Triangle]);
    JoinTagged(Square, g[Square]);
  }
}
