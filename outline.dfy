/**
 * The 2-D outlines the spur and internal generators hand to ExtrudeGeometry.
 *
 * A point is kept in polar form: the source builds every Vector2 as
 * (cos(angle) * radius, sin(angle) * radius), so the angle and the radius are
 * what the generator decides and the trigonometry is left to the library.
 */
module Outline {
  import opened Numbers
  import opened GearParams

  /** A Vector2 of the outline, before cos and sin are applied. */
  datatype Point = Polar(angle: real, radius: real)

  /** A THREE.Shape: the outer contour and the holes cut from it. */
  datatype Shape = Shape(outline: seq<Point>, holes: seq<seq<Point>>)

  /** The arguments of ExtrudeGeometry: the shape and the depth (bevel disabled). */
  datatype Extrusion = Extrusion(shape: Shape, depth: real)

  /** Points of the spur's central hole. */
  const HoleSegments: nat := 32
  /** Points of the internal gear's rim. */
  const RimSegments: nat := 64
  /** Points of one internal tooth pocket. */
  const PocketSegments: nat := 8

  /** Angles along a path strictly increase: it runs counter-clockwise. */
  ghost predicate AngleSorted(pts: seq<Point>) {
    forall a, b :: 0 <= a < b < |pts| ==> pts[a].angle < pts[b].angle
  }

  /** The angle between neighbouring teeth. */
  function AngleStep(n: nat): real
    requires n > 0
  {
    (Pi * 2.0) / n as real
  }

  // ---------------------------------------------------------------- spur outline

  /** The centre angle of tooth i. */
  function ToothCentre(n: nat, i: nat): real
    requires n > 0
  {
    i as real * AngleStep(n)
  }

  /** The four outline points of tooth i, in the order root1, tip1, tip2, root2. */
  function ToothPoints(n: nat, i: nat, pitchRadius: real, outerRadius: real): seq<Point>
    requires n > 0
  {
    var baseAngle := ToothCentre(n, i);
    var toothWidth := AngleStep(n) * 0.4;
    [Polar(baseAngle - toothWidth / 2.0, pitchRadius),
     Polar(baseAngle - toothWidth / 3.0, outerRadius),
     Polar(baseAngle + toothWidth / 3.0, outerRadius),
     Polar(baseAngle + toothWidth / 2.0, pitchRadius)]
  }

  /** The outline after the first `count` teeth of n have been pushed. */
  function ToothOutline(n: nat, count: nat, pitchRadius: real, outerRadius: real): seq<Point>
    requires n > 0
  {
    if count == 0 then []
    else ToothOutline(n, count - 1, pitchRadius, outerRadius) + ToothPoints(n, count - 1, pitchRadius, outerRadius)
  }

  /** Point i of a circle of `segments` points. */
  function CirclePoint(segments: nat, i: nat, radius: real): Point
    requires segments > 0
  {
    Polar((i as real / segments as real) * Pi * 2.0, radius)
  }

  /** The first `count` points of a circle of `segments` points. */
  function CirclePath(segments: nat, count: nat, radius: real): seq<Point>
    requires segments > 0
  {
    if count == 0 then []
    else CirclePath(segments, count - 1, radius) + [CirclePoint(segments, count - 1, radius)]
  }

  /** What createSpurGear extrudes: the toothed outline, a hole when the inner radius is positive. */
  function SpurExtrusion(p: Params, c: Calculated): Extrusion {
    var d := ClampExternal(p, c);
    var n := d.toothCount as nat;
    var holes := if d.innerRadius > 0.0 then [CirclePath(HoleSegments, HoleSegments, d.innerRadius)] else [];
    Extrusion(Shape(ToothOutline(n, n, d.pitchRadius, d.outerRadius), holes), d.width)
  }

  // ------------------------------------------------------------ internal outline

  /** Sample j of the pocket cut for internal tooth i: a half-sine bulge from the pitch circle outwards. */
  function PocketPoint(n: nat, i: nat, j: nat, pitchRadius: real, outerRadius: real, sin: real -> real): Point
    requires n > 0
  {
    var baseAngle := ToothCentre(n, i);
    var toothWidth := AngleStep(n) * 0.4;
    var t := j as real / (PocketSegments - 1) as real;
    Polar(baseAngle - toothWidth / 2.0 + t * toothWidth,
          pitchRadius + sin(t * Pi) * (outerRadius - pitchRadius))
  }

  /** The first `count` samples of pocket i. */
  function PocketPath(n: nat, i: nat, count: nat, pitchRadius: real, outerRadius: real, sin: real -> real): seq<Point>
    requires n > 0
  {
    if count == 0 then []
    else PocketPath(n, i, count - 1, pitchRadius, outerRadius, sin)
         + [PocketPoint(n, i, count - 1, pitchRadius, outerRadius, sin)]
  }

  /** The holes after the pockets of the first `count` teeth have been pushed. */
  function Pockets(n: nat, count: nat, pitchRadius: real, outerRadius: real, sin: real -> real): seq<seq<Point>>
    requires n > 0
  {
    if count == 0 then []
    else Pockets(n, count - 1, pitchRadius, outerRadius, sin)
         + [PocketPath(n, count - 1, PocketSegments, pitchRadius, outerRadius, sin)]
  }

  /** What createInternalGear extrudes: a 64-point rim with one pocket per tooth. */
  function InternalExtrusion(p: Params, c: Calculated, sin: real -> real): Extrusion {
    var d := ClampInternal(p, c);
    var n := d.toothCount as nat;
    Extrusion(Shape(CirclePath(RimSegments, RimSegments, d.innerRadius),
                    Pockets(n, n, d.pitchRadius, d.outerRadius, sin)),
              d.width)
  }

  // ------------------------------------------------------------------- builders

  /** The loop that pushes the points of a circle (the spur's hole, the internal rim). */
  method TraceCircle(segments: nat, radius: real) returns (points: seq<Point>)
    requires segments > 0
    ensures points == CirclePath(segments, segments, radius)
  {
    points := [];
    var i: nat := 0;
    while i < segments
      invariant i <= segments
      invariant points == CirclePath(segments, i, radius)
    {
      var angle := (i as real / segments as real) * Pi * 2.0;
      points := points + [Polar(angle, radius)];
      i := i + 1;
    }
  }

  /** One pass of the tooth loop of createSpurGear: the four points of tooth i pushed. */
  method PushTooth(points: seq<Point>, n: nat, i: nat, angleStep: real, pitchRadius: real, outerRadius: real)
    returns (pushed: seq<Point>)
    requires n > 0 && angleStep == AngleStep(n)
    ensures pushed == points + ToothPoints(n, i, pitchRadius, outerRadius)
  {
    var baseAngle := i as real * angleStep;
    var toothWidth := angleStep * 0.4;
    var rootAngle1 := baseAngle - toothWidth / 2.0;
    var rootAngle2 := baseAngle + toothWidth / 2.0;
    var tipAngle1 := baseAngle - toothWidth / 3.0;
    var tipAngle2 := baseAngle + toothWidth / 3.0;
    pushed := points + [Polar(rootAngle1, pitchRadius)];
    pushed := pushed + [Polar(tipAngle1, outerRadius)];
    pushed := pushed + [Polar(tipAngle2, outerRadius)];
    pushed := pushed + [Polar(rootAngle2, pitchRadius)];
    assert baseAngle == ToothCentre(n, i) && toothWidth == AngleStep(n) * 0.4;
    assert pushed == points + [Polar(rootAngle1, pitchRadius), Polar(tipAngle1, outerRadius),
                               Polar(tipAngle2, outerRadius), Polar(rootAngle2, pitchRadius)];
  }

  /** createSpurGear up to the call to ExtrudeGeometry. */
  method CreateSpurGear(p: Params, c: Calculated) returns (e: Extrusion)
    ensures e == SpurExtrusion(p, c)
  {
    var d := ClampExternal(p, c);
    var toothCount: nat := d.toothCount;
    var points: seq<Point> := [];
    var angleStep := (Pi * 2.0) / toothCount as real;
    var i: nat := 0;
    while i < toothCount
      invariant i <= toothCount
      invariant points == ToothOutline(toothCount, i, d.pitchRadius, d.outerRadius)
    {
      points := PushTooth(points, toothCount, i, angleStep, d.pitchRadius, d.outerRadius);
      i := i + 1;
    }
    var holes: seq<seq<Point>> := [];
    if d.innerRadius > 0.0 {
      var holePoints := TraceCircle(HoleSegments, d.innerRadius);
      holes := holes + [holePoints];
    }
    e := Extrusion(Shape(points, holes), d.width);
  }

  /** The inner loop of createInternalGear: the eight samples of the pocket of tooth i. */
  method TracePocket(n: nat, i: nat, pitchRadius: real, outerRadius: real, sin: real -> real)
    returns (toothPoints: seq<Point>)
    requires n > 0
    ensures toothPoints == PocketPath(n, i, PocketSegments, pitchRadius, outerRadius, sin)
  {
    var angleStep := (Pi * 2.0) / n as real;
    var baseAngle := i as real * angleStep;
    var toothWidth := angleStep * 0.4;
    toothPoints := [];
    var j: nat := 0;
    while j < PocketSegments
      invariant j <= PocketSegments
      invariant toothPoints == PocketPath(n, i, j, pitchRadius, outerRadius, sin)
    {
      var t := j as real / (PocketSegments - 1) as real;
      var angle := baseAngle - toothWidth / 2.0 + t * toothWidth;
      var radius := pitchRadius + sin(t * Pi) * (outerRadius - pitchRadius);
      assert angleStep == AngleStep(n);
      assert Polar(angle, radius) == PocketPoint(n, i, j, pitchRadius, outerRadius, sin);
      toothPoints := toothPoints + [Polar(angle, radius)];
      j := j + 1;
    }
  }

  /** createInternalGear up to the call to ExtrudeGeometry; sin is Math.sin. */
  method CreateInternalGear(p: Params, c: Calculated, sin: real -> real) returns (e: Extrusion)
    ensures e == InternalExtrusion(p, c, sin)
  {
    var d := ClampInternal(p, c);
    var toothCount: nat := d.toothCount;
    var points := TraceCircle(RimSegments, d.innerRadius);
    var holes: seq<seq<Point>> := [];
    var i: nat := 0;
    while i < toothCount
      invariant i <= toothCount
      invariant holes == Pockets(toothCount, i, d.pitchRadius, d.outerRadius, sin)
    {
      var toothPoints := TracePocket(toothCount, i, d.pitchRadius, d.outerRadius, sin);
      holes := holes + [toothPoints];
      i := i + 1;
    }
    e := Extrusion(Shape(points, holes), d.width);
  }

  // --------------------------------------------------------------------- lemmas

  lemma MulStrict(a: real, b: real, s: real)
    requires a < b && s > 0.0
    ensures a * s < b * s
  {
  }

  lemma DivStrict(a: real, b: real, m: real)
    requires a < b && m > 0.0
    ensures a / m < b / m
  {
    assert (b / m - a / m) * m == b - a;
  }

  /** The tooth angle step is positive and n of them make one full turn. */
  lemma AngleStepTurn(n: nat)
    requires n > 0
    ensures AngleStep(n) > 0.0
    ensures n as real * AngleStep(n) == Pi * 2.0
  {
  }

  /** The centre angle of tooth i + 1 is one step past that of tooth i, and never negative. */
  lemma ToothCentreStep(n: nat, i: nat)
    requires n > 0
    ensures ToothCentre(n, i + 1) == ToothCentre(n, i) + AngleStep(n)
    ensures ToothCentre(n, i) >= 0.0
  {
    AngleStepTurn(n);
  }

  /** Concatenating two counter-clockwise paths, the second wholly after the first. */
  lemma ConcatSorted(a: seq<Point>, b: seq<Point>)
    requires AngleSorted(a) && AngleSorted(b)
    requires forall i, j :: 0 <= i < |a| && 0 <= j < |b| ==> a[i].angle < b[j].angle
    ensures AngleSorted(a + b)
  {
    var ab := a + b;
    forall x, y | 0 <= x < y < |ab| ensures ab[x].angle < ab[y].angle {
      if y < |a| {
      } else if x >= |a| {
        assert ab[x] == b[x - |a|] && ab[y] == b[y - |a|];
      } else {
        assert ab[x] == a[x] && ab[y] == b[y - |a|];
      }
    }
  }

  /** The corners of one tooth run counter-clockwise within 0.2 steps of its centre angle. */
  lemma ToothPointsSpan(n: nat, i: nat, pitchRadius: real, outerRadius: real)
    requires n > 0
    ensures var t := ToothPoints(n, i, pitchRadius, outerRadius);
            var b := ToothCentre(n, i);
            var s := AngleStep(n);
            && AngleSorted(t)
            && t[0].angle == b - 0.2 * s
            && t[3].angle == b + 0.2 * s
            && forall j :: 0 <= j < 4 ==> b - 0.2 * s <= t[j].angle <= b + 0.2 * s
  {
    AngleStepTurn(n);
  }

  /** Point k of the outline is corner k % 4 of tooth k / 4. */
  lemma {:induction false} ToothOutlineLayout(n: nat, count: nat, pitchRadius: real, outerRadius: real)
    requires n > 0
    ensures |ToothOutline(n, count, pitchRadius, outerRadius)| == 4 * count
    ensures forall k :: 0 <= k < 4 * count ==>
              ToothOutline(n, count, pitchRadius, outerRadius)[k] == ToothPoints(n, k / 4, pitchRadius, outerRadius)[k % 4]
  {
    if count > 0 {
      ToothOutlineLayout(n, count - 1, pitchRadius, outerRadius);
      var prev := ToothOutline(n, count - 1, pitchRadius, outerRadius);
      var last := ToothPoints(n, count - 1, pitchRadius, outerRadius);
      assert ToothOutline(n, count, pitchRadius, outerRadius) == prev + last;
      forall k | 0 <= k < 4 * count
        ensures (prev + last)[k] == ToothPoints(n, k / 4, pitchRadius, outerRadius)[k % 4]
      {
        if k >= 4 * (count - 1) {
          assert k / 4 == count - 1;
          assert (prev + last)[k] == last[k - 4 * (count - 1)];
        }
      }
    }
  }

  /** Every angle on the path lies in [lo, hi]. */
  ghost predicate AnglesWithin(pts: seq<Point>, lo: real, hi: real) {
    forall k :: 0 <= k < |pts| ==> lo <= pts[k].angle <= hi
  }

  lemma ConcatWithin(a: seq<Point>, b: seq<Point>, lo: real, mid: real, hi: real)
    requires AnglesWithin(a, lo, mid) && AnglesWithin(b, lo, hi) && mid <= hi
    ensures AnglesWithin(a + b, lo, hi)
  {
    var ab := a + b;
    forall k | 0 <= k < |ab| ensures lo <= ab[k].angle <= hi {
      if k >= |a| {
        assert ab[k] == b[k - |a|];
      }
    }
  }

  /** The first `count` teeth lie between 0.2 steps before tooth 0 and 0.2 steps past tooth count - 1. */
  lemma {:induction false} ToothOutlineBounds(n: nat, count: nat, pitchRadius: real, outerRadius: real)
    requires n > 0 && count > 0
    ensures AnglesWithin(ToothOutline(n, count, pitchRadius, outerRadius),
                         -0.2 * AngleStep(n), ToothCentre(n, count - 1) + 0.2 * AngleStep(n))
  {
    var s := AngleStep(n);
    var last := ToothPoints(n, count - 1, pitchRadius, outerRadius);
    var hi := ToothCentre(n, count - 1) + 0.2 * s;
    ToothPointsSpan(n, count - 1, pitchRadius, outerRadius);
    ToothCentreStep(n, count - 1);
    assert AnglesWithin(last, -0.2 * s, hi);
    if count == 1 {
      assert ToothOutline(n, count, pitchRadius, outerRadius) == [] + last;
    } else {
      var prev := ToothOutline(n, count - 1, pitchRadius, outerRadius);
      ToothOutlineBounds(n, count - 1, pitchRadius, outerRadius);
      ToothCentreStep(n, count - 2);
      AngleStepTurn(n);
      ConcatWithin(prev, last, -0.2 * s, ToothCentre(n, count - 2) + 0.2 * s, hi);
    }
  }

  /** The outline of the first `count` teeth runs counter-clockwise. */
  lemma {:induction false} ToothOutlineSorted(n: nat, count: nat, pitchRadius: real, outerRadius: real)
    requires n > 0
    ensures AngleSorted(ToothOutline(n, count, pitchRadius, outerRadius))
  {
    if count > 1 {
      var s := AngleStep(n);
      var prev := ToothOutline(n, count - 1, pitchRadius, outerRadius);
      var last := ToothPoints(n, count - 1, pitchRadius, outerRadius);
      ToothOutlineSorted(n, count - 1, pitchRadius, outerRadius);
      ToothOutlineBounds(n, count - 1, pitchRadius, outerRadius);
      ToothPointsSpan(n, count - 1, pitchRadius, outerRadius);
      ToothCentreStep(n, count - 2);
      AngleStepTurn(n);
      var mid := ToothCentre(n, count - 2) + 0.2 * s;
      assert AnglesWithin(prev, -0.2 * s, mid);
      assert forall y :: 0 <= y < |last| ==> mid < last[y].angle;
      ConcatSorted(prev, last);
    } else if count == 1 {
      ToothPointsSpan(n, 0, pitchRadius, outerRadius);
      assert ToothOutline(n, count, pitchRadius, outerRadius) == [] + ToothPoints(n, 0, pitchRadius, outerRadius);
    }
  }

  /**
   * A full toothed outline of n teeth: four points per tooth, roots on the
   * pitch radius and tips on the outer radius, counter-clockwise, closing in
   * less than one full turn.
   */
  lemma ToothOutlineShape(n: nat, pitchRadius: real, outerRadius: real)
    requires n > 0
    ensures var o := ToothOutline(n, n, pitchRadius, outerRadius);
            && |o| == 4 * n
            && (forall k :: 0 <= k < |o| ==>
                  o[k].radius == if k % 4 == 0 || k % 4 == 3 then pitchRadius else outerRadius)
            && AngleSorted(o)
            && o[|o| - 1].angle - o[0].angle < 2.0 * Pi
  {
    var o := ToothOutline(n, n, pitchRadius, outerRadius);
    ToothOutlineLayout(n, n, pitchRadius, outerRadius);
    ToothOutlineSorted(n, n, pitchRadius, outerRadius);
    ToothOutlineBounds(n, n, pitchRadius, outerRadius);
    ToothPointsSpan(n, 0, pitchRadius, outerRadius);
    ToothPointsSpan(n, n - 1, pitchRadius, outerRadius);
    assert o[0] == ToothPoints(n, 0, pitchRadius, outerRadius)[0];
    assert o[4 * n - 1] == ToothPoints(n, n - 1, pitchRadius, outerRadius)[3];
    OutlineGap(n);
  }

  /** From the first root of tooth 0 to the last root of tooth n - 1 is less than a full turn. */
  lemma OutlineGap(n: nat)
    requires n > 0
    ensures var s := AngleStep(n);
            (ToothCentre(n, n - 1) + 0.2 * s) - (ToothCentre(n, 0) - 0.2 * s) < 2.0 * Pi
  {
    var s := AngleStep(n);
    AngleStepTurn(n);
    assert ToothCentre(n, n - 1) == n as real * s - s;
  }

  /**
   * The spur outline has four points per clamped tooth, roots on the pitch
   * circle and tips on the outer circle, runs counter-clockwise and closes in
   * less than one full turn; it is extruded to the clamped width.
   */
  lemma SpurOutlineShape(p: Params, c: Calculated)
    ensures var e := SpurExtrusion(p, c);
            var d := ClampExternal(p, c);
            var o := e.shape.outline;
            && |o| == 4 * d.toothCount
            && (forall k :: 0 <= k < |o| ==>
                  o[k].radius == if k % 4 == 0 || k % 4 == 3 then d.pitchRadius else d.outerRadius)
            && AngleSorted(o)
            && o[|o| - 1].angle - o[0].angle < 2.0 * Pi
            && e.depth == d.width
  {
    var d := ClampExternal(p, c);
    ToothOutlineShape(d.toothCount, d.pitchRadius, d.outerRadius);
  }

  /** Point k of a circle path is CirclePoint k. */
  lemma {:induction false} CirclePathLayout(segments: nat, count: nat, radius: real)
    requires segments > 0
    ensures |CirclePath(segments, count, radius)| == count
    ensures forall k :: 0 <= k < count ==> CirclePath(segments, count, radius)[k] == CirclePoint(segments, k, radius)
  {
    if count > 0 {
      CirclePathLayout(segments, count - 1, radius);
    }
  }

  /** A full circle path has all its points on the radius, counter-clockwise from angle 0, within one turn. */
  lemma CircleShape(segments: nat, radius: real)
    requires segments > 0
    ensures var h := CirclePath(segments, segments, radius);
            && |h| == segments
            && (forall k :: 0 <= k < |h| ==> h[k].radius == radius)
            && AngleSorted(h)
            && 0.0 == h[0].angle && h[|h| - 1].angle < 2.0 * Pi
  {
    CirclePathLayout(segments, segments, radius);
    var h := CirclePath(segments, segments, radius);
    var m := segments as real;
    forall a, b | 0 <= a < b < |h| ensures h[a].angle < h[b].angle {
      DivStrict(a as real, b as real, m);
      MulStrict(a as real / m, b as real / m, Pi * 2.0);
    }
    assert (segments - 1) as real / m < 1.0;
    MulStrict((segments - 1) as real / m, 1.0, Pi * 2.0);
  }

  /**
   * The spur has exactly one hole, a 32-point circle at the clamped inner
   * radius, when that radius is positive, and no hole otherwise; the hole stays
   * at least 2 inside the tooth roots.
   */
  lemma SpurHoleShape(p: Params, c: Calculated)
    ensures var e := SpurExtrusion(p, c);
            var d := ClampExternal(p, c);
            && |e.shape.holes| == (if c.innerRadius > 0.0 then 1 else 0)
            && (forall i :: 0 <= i < |e.shape.holes| ==>
                  && |e.shape.holes[i]| == HoleSegments
                  && AngleSorted(e.shape.holes[i])
                  && forall k :: 0 <= k < HoleSegments ==>
                       e.shape.holes[i][k].radius == d.innerRadius <= d.pitchRadius - 2.0)
  {
    var d := ClampExternal(p, c);
    CircleShape(HoleSegments, d.innerRadius);
  }

  /** Point j of pocket path i is PocketPoint j. */
  lemma {:induction false} PocketPathLayout(n: nat, i: nat, count: nat, pitchRadius: real, outerRadius: real, sin: real -> real)
    requires n > 0
    ensures |PocketPath(n, i, count, pitchRadius, outerRadius, sin)| == count
    ensures forall j :: 0 <= j < count ==>
              PocketPath(n, i, count, pitchRadius, outerRadius, sin)[j] == PocketPoint(n, i, j, pitchRadius, outerRadius, sin)
  {
    if count > 0 {
      PocketPathLayout(n, i, count - 1, pitchRadius, outerRadius, sin);
    }
  }

  /** Hole i is the complete pocket of tooth i, and sample j of it is PocketPoint j. */
  lemma {:induction false} PocketsLayout(n: nat, count: nat, pitchRadius: real, outerRadius: real, sin: real -> real)
    requires n > 0
    ensures |Pockets(n, count, pitchRadius, outerRadius, sin)| == count
    ensures forall i :: 0 <= i < count ==>
              Pockets(n, count, pitchRadius, outerRadius, sin)[i] == PocketPath(n, i, PocketSegments, pitchRadius, outerRadius, sin)
    ensures forall i :: 0 <= i < count ==> |Pockets(n, count, pitchRadius, outerRadius, sin)[i]| == PocketSegments
    ensures forall i, j :: 0 <= i < count && 0 <= j < PocketSegments ==>
              Pockets(n, count, pitchRadius, outerRadius, sin)[i][j] == PocketPoint(n, i, j, pitchRadius, outerRadius, sin)
  {
    if count > 0 {
      PocketsLayout(n, count - 1, pitchRadius, outerRadius, sin);
      PocketPathLayout(n, count - 1, PocketSegments, pitchRadius, outerRadius, sin);
    }
  }

  /** A pocket sweeps counter-clockwise across the tooth width, centred on the tooth angle. */
  lemma PocketSweep(n: nat, i: nat, pitchRadius: real, outerRadius: real, sin: real -> real)
    requires n > 0
    ensures var h := PocketPath(n, i, PocketSegments, pitchRadius, outerRadius, sin);
            var s := AngleStep(n);
            && |h| == PocketSegments
            && AngleSorted(h)
            && h[0].angle == ToothCentre(n, i) - 0.2 * s
            && h[PocketSegments - 1].angle == ToothCentre(n, i) + 0.2 * s
  {
    PocketPathLayout(n, i, PocketSegments, pitchRadius, outerRadius, sin);
    var h := PocketPath(n, i, PocketSegments, pitchRadius, outerRadius, sin);
    forall a, b | 0 <= a < b < |h| ensures h[a].angle < h[b].angle {
      assert h[a] == PocketPoint(n, i, a, pitchRadius, outerRadius, sin);
      assert h[b] == PocketPoint(n, i, b, pitchRadius, outerRadius, sin);
      PocketPointsOrdered(n, i, a, b, pitchRadius, outerRadius, sin);
    }
    assert h[0] == PocketPoint(n, i, 0, pitchRadius, outerRadius, sin);
    assert h[PocketSegments - 1] == PocketPoint(n, i, PocketSegments - 1, pitchRadius, outerRadius, sin);
  }

  /** Sample a of a pocket comes before sample b when a < b. */
  lemma PocketPointsOrdered(n: nat, i: nat, a: nat, b: nat, pitchRadius: real, outerRadius: real, sin: real -> real)
    requires n > 0 && a < b
    ensures PocketPoint(n, i, a, pitchRadius, outerRadius, sin).angle < PocketPoint(n, i, b, pitchRadius, outerRadius, sin).angle
  {
    AngleStepTurn(n);
    SweepStrict(ToothCentre(n, i), AngleStep(n) * 0.4, a, b, PocketSegments - 1);
  }

  /** Sample a of a sweep across width tw, in steps of 1 / m, lies before sample b when a < b. */
  lemma SweepStrict(base: real, tw: real, a: nat, b: nat, m: nat)
    requires a < b && tw > 0.0 && m > 0
    ensures base - tw / 2.0 + (a as real / m as real) * tw < base - tw / 2.0 + (b as real / m as real) * tw
  {
    DivStrict(a as real, b as real, m as real);
    MulStrict(a as real / m as real, b as real / m as real, tw);
  }

  /**
   * The internal outline is a 64-point rim at the clamped rim radius with one
   * 8-point pocket per clamped tooth.
   */
  lemma InternalShape(p: Params, c: Calculated, sin: real -> real)
    ensures var e := InternalExtrusion(p, c, sin);
            var d := ClampInternal(p, c);
            && |e.shape.outline| == RimSegments
            && (forall k :: 0 <= k < RimSegments ==> e.shape.outline[k].radius == d.innerRadius)
            && AngleSorted(e.shape.outline)
            && |e.shape.holes| == d.toothCount
            && (forall i :: 0 <= i < |e.shape.holes| ==> |e.shape.holes[i]| == PocketSegments)
            && e.depth == d.width
  {
    var d := ClampInternal(p, c);
    CircleShape(RimSegments, d.innerRadius);
    PocketsLayout(d.toothCount, d.toothCount, d.pitchRadius, d.outerRadius, sin);
  }

  /** A pocket never bulges past the outer radius while the sine stays at or below 1. */
  lemma PocketRadiusBound(n: nat, pitchRadius: real, outerRadius: real, sin: real -> real)
    requires n > 0 && pitchRadius <= outerRadius
    requires forall x :: sin(x) <= 1.0
    ensures var h := Pockets(n, n, pitchRadius, outerRadius, sin);
            forall i, j :: 0 <= i < |h| && 0 <= j < |h[i]| ==> h[i][j].radius <= outerRadius
  {
    PocketsLayout(n, n, pitchRadius, outerRadius, sin);
    var gap := outerRadius - pitchRadius;
    forall i, j | 0 <= i < n && 0 <= j < PocketSegments
      ensures PocketPoint(n, i, j, pitchRadius, outerRadius, sin).radius <= outerRadius
    {
      var v := sin((j as real / (PocketSegments - 1) as real) * Pi);
      if v < 1.0 && gap > 0.0 {
        MulStrict(v, 1.0, gap);
      }
    }
  }

  /**
   * With a non-negative tooth count and a sine never above 1, every pocket
   * point lies within the outer circle, so at least 5 of rim material remain
   * outside every pocket.
   */
  lemma PocketsInsideRim(p: Params, sin: real -> real)
    requires p.toothCount >= 0
    requires forall x :: sin(x) <= 1.0
    ensures var c := CalculateGearParameters(p);
            var e := InternalExtrusion(p, c, sin);
            var d := ClampInternal(p, c);
            forall i, j :: 0 <= i < |e.shape.holes| && 0 <= j < |e.shape.holes[i]| ==>
              e.shape.holes[i][j].radius <= d.outerRadius <= d.innerRadius - 5.0
  {
    var c := CalculateGearParameters(p);
    var d := ClampInternal(p, c);
    PitchInsideOuter(p);
    PocketRadiusBound(d.toothCount, d.pitchRadius, d.outerRadius, sin);
    assert InternalExtrusion(p, c, sin).shape.holes == Pockets(d.toothCount, d.toothCount, d.pitchRadius, d.outerRadius, sin);
  }
}
