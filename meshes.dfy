/**
 * The BufferGeometry values the generators pass around: a flat position array
 * of x, y, z triples and, when the geometry is indexed, its index array.
 */
module Meshes {

  datatype Option<T> = None | Some(value: T)

  /** A BufferGeometry reduced to its position attribute and its optional index. */
  datatype Mesh = Mesh(positions: seq<real>, index: Option<seq<nat>>)

  /** The position array holds whole (x, y, z) vertices. */
  predicate WholeVertices(v: seq<real>) {
    |v| % 3 == 0
  }

  /** Index of the z component of the vertex that holds component k. */
  function ZSlot(k: nat): (z: nat)
    ensures z % 3 == 2 && z / 3 == k / 3
    ensures k <= z <= k + 2
  {
    k - k % 3 + 2
  }

  /** The three components of vertex t sit in slots 0, 1 and 2 and share its z slot. */
  lemma VertexSlots(t: nat)
    ensures (3 * t) % 3 == 0 && (3 * t + 1) % 3 == 1 && (3 * t + 2) % 3 == 2
    ensures ZSlot(3 * t) == 3 * t + 2 && ZSlot(3 * t + 1) == 3 * t + 2 && ZSlot(3 * t + 2) == 3 * t + 2
  {
  }

  /** Vertex t of a and vertex t of b are the same point. */
  ghost predicate SameVertex(a: seq<real>, b: seq<real>, t: nat)
    requires 3 * t + 2 < |a| == |b|
  {
    a[3 * t] == b[3 * t] && a[3 * t + 1] == b[3 * t + 1] && a[3 * t + 2] == b[3 * t + 2]
  }

  /** Two position arrays that agree vertex by vertex are equal. */
  lemma VertexwiseEqual(a: seq<real>, b: seq<real>)
    requires WholeVertices(a) && |a| == |b|
    requires forall t: nat :: 3 * t + 2 < |a| ==> SameVertex(a, b, t)
    ensures a == b
  {
    forall k | 0 <= k < |a| ensures a[k] == b[k] {
      var t := k / 3;
      assert SameVertex(a, b, t);
    }
  }

  /** The squared distance of vertex t from the z axis. */
  function SquaredRadius(v: seq<real>, t: nat): (q: real)
    requires 3 * t + 1 < |v|
    ensures q >= 0.0
  {
    v[3 * t] * v[3 * t] + v[3 * t + 1] * v[3 * t + 1]
  }

  /** The z component of the vertex that holds component k. */
  function VertexZ(v: seq<real>, k: nat): real
    requires WholeVertices(v) && k < |v|
  {
    v[ZSlot(k)]
  }

  /**
   * applyMatrix4 with makeTranslation(0, 0, dz): every z component moves by dz,
   * every x and y component stays.
   */
  function Translated(v: seq<real>, dz: real): (r: seq<real>)
    ensures |r| == |v|
  {
    seq(|v|, k requires 0 <= k < |v| => if k % 3 == 2 then v[k] + dz else v[k])
  }

  /** Translating back by -dz restores the original positions. */
  lemma TranslatedInverse(v: seq<real>, dz: real)
    ensures Translated(Translated(v, dz), -dz) == v
  {
    var r := Translated(Translated(v, dz), -dz);
    assert forall k :: 0 <= k < |v| ==> r[k] == v[k];
  }

  /** Translations compose by adding their offsets. */
  lemma TranslatedCompose(v: seq<real>, a: real, b: real)
    ensures Translated(Translated(v, a), b) == Translated(v, a + b)
  {
    var r := Translated(Translated(v, a), b);
    assert forall k :: 0 <= k < |v| ==> r[k] == Translated(v, a + b)[k];
  }

  /**
   * A solid lying between z = 0 and z = depth lies between z = dz and
   * z = dz + depth after the translation, with x and y unchanged.
   */
  lemma TranslatedAxialRange(v: seq<real>, dz: real, depth: real)
    requires forall k :: 0 <= k < |v| && k % 3 == 2 ==> 0.0 <= v[k] <= depth
    ensures var r := Translated(v, dz);
            && (forall k :: 0 <= k < |r| && k % 3 == 2 ==> dz <= r[k] <= dz + depth)
            && (forall k :: 0 <= k < |r| && k % 3 != 2 ==> r[k] == v[k])
  {
  }
}
