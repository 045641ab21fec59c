/**
 * The per-vertex passes of the bevel and helical generators. Both walk the
 * position array of a spur mesh three components at a time and overwrite x and
 * y in place; z is read and never written. Both divide by the raw form width,
 * not the clamped extrusion depth.
 */
module VertexTransforms {
  import opened Numbers
  import opened Meshes

  /** The bevel's cone factor. */
  const ConeAngle: real := 0.5
  /** The helical's twist per unit of z / width, in radians. */
  const HelixAngle: real := 0.3

  // --------------------------------------------------------------------- bevel

  /** The factor x and y are multiplied by at height z. */
  function TaperScale(z: real, width: real): real
    requires width != 0.0
  {
    1.0 - (z / width) * ConeAngle
  }

  /** The positions after the bevel pass. */
  function Tapered(v: seq<real>, width: real): (r: seq<real>)
    requires WholeVertices(v) && width != 0.0
    ensures |r| == |v|
  {
    seq(|v|, k requires 0 <= k < |v| =>
      if k % 3 == 2 then v[k] else v[k] * TaperScale(VertexZ(v, k), width))
  }

  /** Vertex t of r is vertex t of v after the bevel pass. */
  ghost predicate TaperedVertex(v: seq<real>, r: seq<real>, width: real, t: nat)
    requires 3 * t + 2 < |v| == |r| && width != 0.0
  {
    var scale := TaperScale(v[3 * t + 2], width);
    r[3 * t] == v[3 * t] * scale && r[3 * t + 1] == v[3 * t + 1] * scale && r[3 * t + 2] == v[3 * t + 2]
  }

  /** The x and y components of vertex t after the bevel pass. */
  lemma TaperedXY(v: seq<real>, width: real, t: nat)
    requires WholeVertices(v) && width != 0.0 && 3 * t + 2 < |v|
    ensures var scale := TaperScale(v[3 * t + 2], width);
            Tapered(v, width)[3 * t] == v[3 * t] * scale && Tapered(v, width)[3 * t + 1] == v[3 * t + 1] * scale
  {
    VertexSlots(t);
  }

  /** Tapered scales vertex t by the factor at its own height. */
  lemma TaperedAtVertex(v: seq<real>, width: real, t: nat)
    requires WholeVertices(v) && width != 0.0 && 3 * t + 2 < |v|
    ensures TaperedVertex(v, Tapered(v, width), width, t)
  {
    TaperedXY(v, width, t);
    VertexSlots(t);
  }

  /** Tapered is the only sequence that scales every vertex by the factor at its height. */
  lemma TaperedUnique(v: seq<real>, width: real, r: seq<real>)
    requires WholeVertices(v) && width != 0.0 && |r| == |v|
    requires forall t: nat :: 3 * t + 2 < |v| ==> TaperedVertex(v, r, width, t)
    ensures r == Tapered(v, width)
  {
    var tapered := Tapered(v, width);
    forall k | 0 <= k < |v| ensures r[k] == tapered[k] {
      var t := k / 3;
      assert k == 3 * t || k == 3 * t + 1 || k == 3 * t + 2;
      assert TaperedVertex(v, r, width, t);
      TaperedAtVertex(v, width, t);
    }
  }

  /** A sequence holding every vertex of v after the bevel pass. */
  lemma TaperTarget(v: seq<real>, width: real) returns (r: seq<real>)
    requires WholeVertices(v) && width != 0.0
    ensures |r| == |v| && forall t: nat :: 3 * t + 2 < |v| ==> TaperedVertex(v, r, width, t)
  {
    r := Tapered(v, width);
    forall t: nat | 3 * t + 2 < |v| ensures TaperedVertex(v, r, width, t) {
      TaperedAtVertex(v, width, t);
    }
  }

  /** The bevel loop of createBevelGear, over the position buffer. */
  method TaperInPlace(vertices: array<real>, width: real)
    requires WholeVertices(vertices[..]) && width != 0.0
    modifies vertices
    ensures vertices[..] == Tapered(old(vertices[..]), width)
  {
    ghost var v := vertices[..];
    ghost var r := TaperTarget(v, width);
    var i := 0;
    ghost var t := 0;
    while i < vertices.Length
      invariant i == 3 * t && i <= vertices.Length
      invariant forall k :: 0 <= k < vertices.Length ==> vertices[k] == if k < i then r[k] else v[k]
    {
      assert TaperedVertex(v, r, width, t);
      var z := vertices[i + 2];
      var scale := 1.0 - (z / width) * ConeAngle;
      vertices[i] := vertices[i] * scale;
      vertices[i + 1] := vertices[i + 1] * scale;
      i, t := i + 3, t + 1;
    }
    assert vertices[..] == Tapered(v, width) by {
      assert vertices[..] == r;
      TaperedUnique(v, width, r);
    }
  }

  /** Dividing x and y back by the factor: the inverse of the bevel where no factor is 0. */
  function Untapered(r: seq<real>, width: real): (v: seq<real>)
    requires WholeVertices(r) && width != 0.0
    requires forall k :: 0 <= k < |r| && k % 3 == 2 ==> TaperScale(r[k], width) != 0.0
    ensures |v| == |r|
  {
    seq(|r|, k requires 0 <= k < |r| =>
      if k % 3 == 2 then r[k] else r[k] / TaperScale(VertexZ(r, k), width))
  }

  /**
   * The bevel keeps every z and scales vertex t's x and y by the factor at its
   * own height, so its distance from the axis scales by the same factor.
   */
  lemma TaperVertex(v: seq<real>, width: real, t: nat)
    requires WholeVertices(v) && width != 0.0 && 3 * t + 2 < |v|
    ensures var r := Tapered(v, width);
            var s := TaperScale(v[3 * t + 2], width);
            && r[3 * t + 2] == v[3 * t + 2]
            && r[3 * t] == s * v[3 * t]
            && r[3 * t + 1] == s * v[3 * t + 1]
            && SquaredRadius(r, t) == s * s * SquaredRadius(v, t)
  {
    TaperedAtVertex(v, width, t);
    ScaleKeepsDirection(v[3 * t], v[3 * t + 1], TaperScale(v[3 * t + 2], width));
  }

  /** Scaling x and y by s scales the squared radius by s². */
  lemma ScaleKeepsDirection(x: real, y: real, s: real)
    ensures (x * s) * (x * s) + (y * s) * (y * s) == s * s * (x * x + y * y)
  {
  }

  /** Where no factor is 0, the bevel loses nothing: dividing back restores the spur. */
  lemma TaperedInverse(v: seq<real>, width: real)
    requires WholeVertices(v) && width != 0.0
    requires forall k :: 0 <= k < |v| && k % 3 == 2 ==> TaperScale(v[k], width) != 0.0
    ensures Untapered(Tapered(v, width), width) == v
  {
    TaperedKeepsZ(v, width);
    var u := Untapered(Tapered(v, width), width);
    forall t: nat | 3 * t + 2 < |v| ensures SameVertex(u, v, t) {
      TaperedInverseAtVertex(v, width, t);
    }
    VertexwiseEqual(u, v);
  }

  /** The bevel writes no z component. */
  lemma TaperedKeepsZ(v: seq<real>, width: real)
    requires WholeVertices(v) && width != 0.0
    ensures forall k :: 0 <= k < |v| && k % 3 == 2 ==> Tapered(v, width)[k] == v[k]
  {
  }

  /** Dividing back restores vertex t. */
  lemma TaperedInverseAtVertex(v: seq<real>, width: real, t: nat)
    requires WholeVertices(v) && width != 0.0 && 3 * t + 2 < |v|
    requires forall k :: 0 <= k < |v| && k % 3 == 2 ==> TaperScale(v[k], width) != 0.0
    requires forall k :: 0 <= k < |v| && k % 3 == 2 ==> Tapered(v, width)[k] == v[k]
    ensures SameVertex(Untapered(Tapered(v, width), width), v, t)
  {
    var r := Tapered(v, width);
    var u := Untapered(r, width);
    TaperedAtVertex(v, width, t);
    UntaperedAtVertex(r, width, t);
    var s := TaperScale(v[3 * t + 2], width);
    assert TaperScale(r[3 * t + 2], width) == s;
    DivideBack(u[3 * t], r[3 * t], v[3 * t], s);
    DivideBack(u[3 * t + 1], r[3 * t + 1], v[3 * t + 1], s);
  }

  /** Untapered divides vertex t's x and y by the factor at its own height. */
  lemma UntaperedAtVertex(r: seq<real>, width: real, t: nat)
    requires WholeVertices(r) && width != 0.0 && 3 * t + 2 < |r|
    requires forall k :: 0 <= k < |r| && k % 3 == 2 ==> TaperScale(r[k], width) != 0.0
    ensures var s := TaperScale(r[3 * t + 2], width);
            var u := Untapered(r, width);
            && s != 0.0
            && u[3 * t] == r[3 * t] / s && u[3 * t + 1] == r[3 * t + 1] / s && u[3 * t + 2] == r[3 * t + 2]
  {
    VertexSlots(t);
    assert VertexZ(r, 3 * t) == r[3 * t + 2] && VertexZ(r, 3 * t + 1) == r[3 * t + 2];
  }

  /** Dividing by a non-zero factor undoes multiplying by it. */
  lemma DivideBack(u: real, r: real, x: real, s: real)
    requires s != 0.0 && r == x * s && u == r / s
    ensures u == x
  {
  }

  /**
   * Between the two faces of an extrusion as deep as the width, the factor
   * falls from 1 at z = 0 to 0.5 at z = width.
   */
  lemma TaperScaleBetweenFaces(z: real, width: real)
    requires width > 0.0 && 0.0 <= z <= width
    ensures 0.5 <= TaperScale(z, width) <= 1.0
    ensures z == 0.0 ==> TaperScale(z, width) == 1.0
    ensures z == width ==> TaperScale(z, width) == 0.5
  {
    var q := z / width;
    assert q * width == z;
    if q < 0.0 {
      assert q * width < 0.0;
    }
    if q > 1.0 {
      assert q * width > 1.0 * width;
    }
  }

  /**
   * Where a vertex lies between the faces of an extrusion as deep as the
   * width, the bevel scales its distance from the axis by between 0.5 and 1.
   */
  lemma TaperedRadiusBetweenHalfAndFull(v: seq<real>, width: real, t: nat)
    requires WholeVertices(v) && width > 0.0 && 3 * t + 2 < |v| && 0.0 <= v[3 * t + 2] <= width
    ensures 0.25 * SquaredRadius(v, t) <= SquaredRadius(Tapered(v, width), t) <= SquaredRadius(v, t)
  {
    TaperedAtVertex(v, width, t);
    ScaledVertexRadius(v, Tapered(v, width), width, t);
  }

  /** The bound above for any r that holds vertex t of v after the bevel pass. */
  lemma ScaledVertexRadius(v: seq<real>, r: seq<real>, width: real, t: nat)
    requires 3 * t + 2 < |v| == |r| && width > 0.0 && 0.0 <= v[3 * t + 2] <= width
    requires TaperedVertex(v, r, width, t)
    ensures 0.25 * SquaredRadius(v, t) <= SquaredRadius(r, t) <= SquaredRadius(v, t)
  {
    var s := TaperScale(v[3 * t + 2], width);
    TaperScaleBetweenFaces(v[3 * t + 2], width);
    ScaleKeepsDirection(v[3 * t], v[3 * t + 1], s);
    ScaledRadius(SquaredRadius(v, t), s);
  }

  /** A factor between 0.5 and 1, squared, scales a squared radius by between 0.25 and 1. */
  lemma ScaledRadius(q: real, s: real)
    requires q >= 0.0 && 0.5 <= s <= 1.0
    ensures 0.25 * q <= s * s * q <= q
  {
    assert 0.25 <= s * s <= 1.0 by {
      MulMono(0.5, s, 0.5, s);
      MulMono(s, 1.0, s, 1.0);
    }
    MulMono(0.25, s * s, q, q);
    MulMono(s * s, 1.0, q, q);
  }

  /** Products of non-negative factors grow with each factor. */
  lemma MulMono(a: real, b: real, x: real, y: real)
    requires 0.0 <= a <= b && 0.0 <= x <= y
    ensures a * x <= b * y
  {
    assert a * x <= b * x;
    assert b * x <= b * y;
  }

  /**
   * With a width of 0.5 in the form the spur is extruded to depth 1 (the clamp),
   * but the bevel divides by 0.5: the far face gets factor 0 and every vertex
   * on it is pulled onto the axis.
   */
  lemma RawWidthCollapsesFarFace(v: seq<real>, t: nat)
    requires WholeVertices(v) && 3 * t + 2 < |v| && v[3 * t + 2] == 1.0
    ensures TaperScale(1.0, 0.5) == 0.0
    ensures Tapered(v, 0.5)[3 * t] == 0.0 && Tapered(v, 0.5)[3 * t + 1] == 0.0
  {
    TaperVertex(v, 0.5, t);
  }

  // ------------------------------------------------------------------- helical

  /** The rotation angle at height z. */
  function TwistAngle(z: real, width: real): real
    requires width != 0.0
  {
    (z / width) * HelixAngle
  }

  /** The positions after the helical pass: each (x, y) rotated by the angle at its height. */
  function Twisted(v: seq<real>, width: real, trig: Trig): (r: seq<real>)
    requires WholeVertices(v) && width != 0.0
    ensures |r| == |v|
  {
    seq(|v|, k requires 0 <= k < |v| =>
      var a := TwistAngle(VertexZ(v, k), width);
      if k % 3 == 0 then v[k] * trig.cos(a) - v[k + 1] * trig.sin(a)
      else if k % 3 == 1 then v[k - 1] * trig.sin(a) + v[k] * trig.cos(a)
      else v[k])
  }

  /** Vertex t of r is vertex t of v after the helical pass. */
  ghost predicate TwistedVertex(v: seq<real>, r: seq<real>, width: real, trig: Trig, t: nat)
    requires 3 * t + 2 < |v| == |r| && width != 0.0
  {
    var a := TwistAngle(v[3 * t + 2], width);
    && r[3 * t] == v[3 * t] * trig.cos(a) - v[3 * t + 1] * trig.sin(a)
    && r[3 * t + 1] == v[3 * t] * trig.sin(a) + v[3 * t + 1] * trig.cos(a)
    && r[3 * t + 2] == v[3 * t + 2]
  }

  /** The x component of vertex t after the helical pass. */
  lemma TwistedX(v: seq<real>, width: real, trig: Trig, t: nat)
    requires WholeVertices(v) && width != 0.0 && 3 * t + 2 < |v|
    ensures var a := TwistAngle(v[3 * t + 2], width);
            Twisted(v, width, trig)[3 * t] == v[3 * t] * trig.cos(a) - v[3 * t + 1] * trig.sin(a)
  {
    VertexSlots(t);
    assert VertexZ(v, 3 * t) == v[3 * t + 2];
  }

  /** The y component of vertex t after the helical pass. */
  lemma TwistedY(v: seq<real>, width: real, trig: Trig, t: nat)
    requires WholeVertices(v) && width != 0.0 && 3 * t + 2 < |v|
    ensures var a := TwistAngle(v[3 * t + 2], width);
            Twisted(v, width, trig)[3 * t + 1] == v[3 * t] * trig.sin(a) + v[3 * t + 1] * trig.cos(a)
  {
    VertexSlots(t);
    assert VertexZ(v, 3 * t + 1) == v[3 * t + 2];
  }

  /** Twisted rotates vertex t by the angle at its own height. */
  lemma TwistedAtVertex(v: seq<real>, width: real, trig: Trig, t: nat)
    requires WholeVertices(v) && width != 0.0 && 3 * t + 2 < |v|
    ensures TwistedVertex(v, Twisted(v, width, trig), width, trig, t)
  {
    TwistedX(v, width, trig, t);
    TwistedY(v, width, trig, t);
    VertexSlots(t);
  }

  /** Twisted is the only sequence that rotates every vertex by the angle at its height. */
  lemma TwistedUnique(v: seq<real>, width: real, trig: Trig, r: seq<real>)
    requires WholeVertices(v) && width != 0.0 && |r| == |v|
    requires forall t: nat :: 3 * t + 2 < |v| ==> TwistedVertex(v, r, width, trig, t)
    ensures r == Twisted(v, width, trig)
  {
    var twisted := Twisted(v, width, trig);
    forall k | 0 <= k < |v| ensures r[k] == twisted[k] {
      var t := k / 3;
      assert k == 3 * t || k == 3 * t + 1 || k == 3 * t + 2;
      assert TwistedVertex(v, r, width, trig, t);
      TwistedAtVertex(v, width, trig, t);
    }
  }

  /** A sequence holding every vertex of v after the helical pass. */
  lemma TwistTarget(v: seq<real>, width: real, trig: Trig) returns (r: seq<real>)
    requires WholeVertices(v) && width != 0.0
    ensures |r| == |v| && forall t: nat :: 3 * t + 2 < |v| ==> TwistedVertex(v, r, width, trig, t)
  {
    r := Twisted(v, width, trig);
    forall t: nat | 3 * t + 2 < |v| ensures TwistedVertex(v, r, width, trig, t) {
      TwistedAtVertex(v, width, trig, t);
    }
  }

  /** One pass of the twist loop: vertex i / 3 rotated by the angle at its height. */
  method TwistVertexInPlace(vertices: array<real>, i: nat, width: real, trig: Trig)
    requires i + 2 < vertices.Length && width != 0.0
    modifies vertices
    ensures var a := TwistAngle(old(vertices[i + 2]), width);
            && vertices[i] == old(vertices[i]) * trig.cos(a) - old(vertices[i + 1]) * trig.sin(a)
            && vertices[i + 1] == old(vertices[i]) * trig.sin(a) + old(vertices[i + 1]) * trig.cos(a)
    ensures forall k :: 0 <= k < vertices.Length && k != i && k != i + 1 ==> vertices[k] == old(vertices[k])
  {
    var z := vertices[i + 2];
    var twist := (z / width) * HelixAngle;
    var x := vertices[i];
    var y := vertices[i + 1];
    vertices[i] := x * trig.cos(twist) - y * trig.sin(twist);
    vertices[i + 1] := x * trig.sin(twist) + y * trig.cos(twist);
  }

  /** The twist loop of createHelicalGear, over the position buffer. */
  method TwistInPlace(vertices: array<real>, width: real, trig: Trig)
    requires WholeVertices(vertices[..]) && width != 0.0
    modifies vertices
    ensures vertices[..] == Twisted(old(vertices[..]), width, trig)
  {
    ghost var v := vertices[..];
    ghost var r := TwistTarget(v, width, trig);
    var i := 0;
    ghost var t := 0;
    while i < vertices.Length
      invariant i == 3 * t && i <= vertices.Length
      invariant forall k :: 0 <= k < vertices.Length ==> vertices[k] == if k < i then r[k] else v[k]
    {
      assert TwistedVertex(v, r, width, trig, t);
      TwistVertexInPlace(vertices, i, width, trig);
      i, t := i + 3, t + 1;
    }
    assert vertices[..] == Twisted(v, width, trig) by {
      assert vertices[..] == r;
      TwistedUnique(v, width, trig, r);
    }
  }

  /** Rotating back by the transposed rotation at the same height. */
  function Untwisted(r: seq<real>, width: real, trig: Trig): (v: seq<real>)
    requires WholeVertices(r) && width != 0.0
    ensures |v| == |r|
  {
    seq(|r|, k requires 0 <= k < |r| =>
      var a := TwistAngle(VertexZ(r, k), width);
      if k % 3 == 0 then r[k] * trig.cos(a) + r[k + 1] * trig.sin(a)
      else if k % 3 == 1 then r[k] * trig.cos(a) - r[k - 1] * trig.sin(a)
      else r[k])
  }

  /** Undoing a rotation by (c, s) with c * c + s * s == 1. */
  lemma RotateBack(x: real, y: real, c: real, s: real, rx: real, ry: real, ux: real, uy: real)
    requires c * c + s * s == 1.0
    requires rx == x * c - y * s && ry == x * s + y * c
    requires ux == rx * c + ry * s && uy == ry * c - rx * s
    ensures ux == x && uy == y
  {
    calc {
      ux;
      (x * c - y * s) * c + (x * s + y * c) * s;
      x * (c * c + s * s) + y * (s * c - c * s);
      x;
    }
    calc {
      uy;
      (x * s + y * c) * c - (x * c - y * s) * s;
      y * (c * c + s * s) + x * (s * c - c * s);
      y;
    }
  }

  /** A rotation keeps the distance from the axis. */
  lemma RotateKeepsRadius(x: real, y: real, c: real, s: real)
    requires c * c + s * s == 1.0
    ensures (x * c - y * s) * (x * c - y * s) + (x * s + y * c) * (x * s + y * c) == x * x + y * y
  {
    calc {
      (x * c - y * s) * (x * c - y * s) + (x * s + y * c) * (x * s + y * c);
      x * x * (c * c + s * s) + y * y * (c * c + s * s);
      x * x + y * y;
    }
  }

  /**
   * With trigonometry that satisfies cos² + sin² = 1, the helical pass keeps
   * every z and every vertex's distance from the axis, and rotating back
   * restores the spur.
   */
  lemma TwistedInverse(v: seq<real>, width: real, trig: Trig)
    requires WholeVertices(v) && width != 0.0 && Pythagorean(trig)
    ensures Untwisted(Twisted(v, width, trig), width, trig) == v
  {
    var r := Twisted(v, width, trig);
    var u := Untwisted(r, width, trig);
    forall t: nat | 3 * t + 2 < |v| ensures SameVertex(u, v, t) {
      TwistedAtVertex(v, width, trig, t);
      UntwistedAtVertex(r, width, trig, t);
      RotatedBackVertex(v, r, u, width, trig, t);
    }
    VertexwiseEqual(u, v);
  }

  /** Vertex t of u is vertex t of r rotated back by the angle at its height. */
  ghost predicate UntwistedVertex(r: seq<real>, u: seq<real>, width: real, trig: Trig, t: nat)
    requires 3 * t + 2 < |r| == |u| && width != 0.0
  {
    var a := TwistAngle(r[3 * t + 2], width);
    && u[3 * t] == r[3 * t] * trig.cos(a) + r[3 * t + 1] * trig.sin(a)
    && u[3 * t + 1] == r[3 * t + 1] * trig.cos(a) - r[3 * t] * trig.sin(a)
    && u[3 * t + 2] == r[3 * t + 2]
  }

  /** Rotating vertex t forward and then back restores it. */
  lemma RotatedBackVertex(v: seq<real>, r: seq<real>, u: seq<real>, width: real, trig: Trig, t: nat)
    requires 3 * t + 2 < |v| == |r| == |u| && width != 0.0 && Pythagorean(trig)
    requires TwistedVertex(v, r, width, trig, t) && UntwistedVertex(r, u, width, trig, t)
    ensures SameVertex(u, v, t)
  {
    var a := TwistAngle(v[3 * t + 2], width);
    RotateBack(v[3 * t], v[3 * t + 1], trig.cos(a), trig.sin(a), r[3 * t], r[3 * t + 1], u[3 * t], u[3 * t + 1]);
  }

  /** Untwisted rotates vertex t back by the angle at its own height. */
  lemma UntwistedAtVertex(r: seq<real>, width: real, trig: Trig, t: nat)
    requires WholeVertices(r) && width != 0.0 && 3 * t + 2 < |r|
    ensures UntwistedVertex(r, Untwisted(r, width, trig), width, trig, t)
  {
    VertexSlots(t);
    assert VertexZ(r, 3 * t) == r[3 * t + 2] && VertexZ(r, 3 * t + 1) == r[3 * t + 2];
  }

  /** The helical pass keeps z and, under cos² + sin² = 1, the radius of vertex t. */
  lemma TwistVertex(v: seq<real>, width: real, trig: Trig, t: nat)
    requires WholeVertices(v) && width != 0.0 && 3 * t + 2 < |v| && Pythagorean(trig)
    ensures var r := Twisted(v, width, trig);
            && r[3 * t + 2] == v[3 * t + 2]
            && SquaredRadius(r, t) == SquaredRadius(v, t)
  {
    TwistedAtVertex(v, width, trig, t);
    var a := TwistAngle(v[3 * t + 2], width);
    RotateKeepsRadius(v[3 * t], v[3 * t + 1], trig.cos(a), trig.sin(a));
  }

  /** Vertices on the base face (z = 0) do not move when cos 0 = 1 and sin 0 = 0. */
  lemma TwistFixesBaseFace(v: seq<real>, width: real, trig: Trig, t: nat)
    requires WholeVertices(v) && width != 0.0 && 3 * t + 2 < |v| && v[3 * t + 2] == 0.0
    requires trig.cos(0.0) == 1.0 && trig.sin(0.0) == 0.0
    ensures Twisted(v, width, trig)[3 * t .. 3 * t + 3] == v[3 * t .. 3 * t + 3]
  {
    var r := Twisted(v, width, trig);
    TwistedAtVertex(v, width, trig, t);
    assert TwistAngle(v[3 * t + 2], width) == 0.0;
    assert r[3 * t] == v[3 * t] && r[3 * t + 1] == v[3 * t + 1] && r[3 * t + 2] == v[3 * t + 2];
    assert r[3 * t .. 3 * t + 3] == [r[3 * t], r[3 * t + 1], r[3 * t + 2]];
    assert v[3 * t .. 3 * t + 3] == [v[3 * t], v[3 * t + 1], v[3 * t + 2]];
  }
}
