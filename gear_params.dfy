/**
 * The gear parameters as read from the form, the quantities derived from them
 * (calculateGearParameters) and the clamps each generator applies before it
 * builds an outline.
 */
module GearParams {
  import opened Numbers

  /** The raw form values: tooth counts from parseInt, everything else from parseFloat. */
  datatype Params = Params(
    gearType: string,
    toothCount: int,
    outerDiameter: real,
    innerHoleDiameter: real,
    width: real,
    scaleX: real,
    scaleY: real,
    scaleZ: real,
    topToothCount: int,
    topDiameter: real,
    topWidth: real,
    topOffset: real)

  /**
   * The result of calculateGearParameters. The module, pitch diameter and tooth
   * depth are kept as numbers; the source turns them into two-decimal display
   * strings, which only the form shows.
   */
  datatype Calculated = Calculated(
    gearModule: real,
    pitchDiameter: real,
    toothDepth: real,
    pitchRadius: real,
    outerRadius: real,
    innerRadius: real)

  /** The five clamped quantities every generator starts from. */
  datatype Dims = Dims(
    toothCount: int,
    outerRadius: real,
    pitchRadius: real,
    innerRadius: real,
    width: real)

  /**
   * Derived quantities. The raw (unclamped) tooth count is used here; a count
   * of -2 would divide by zero.
   */
  function CalculateGearParameters(p: Params): (c: Calculated)
    requires p.toothCount != -2
    // the outer diameter is shared out as toothCount + 2 modules
    ensures c.gearModule * (p.toothCount + 2) as real == p.outerDiameter
    // the outer circle lies one module (the addendum) outside the pitch circle
    ensures c.pitchDiameter + 2.0 * c.gearModule == p.outerDiameter
    // a full-depth tooth: addendum of 1 module plus dedendum of 1.25 modules
    ensures c.toothDepth == 2.25 * c.gearModule
    ensures 2.0 * c.pitchRadius == c.pitchDiameter
    ensures 2.0 * c.outerRadius == p.outerDiameter
    ensures 2.0 * c.innerRadius == p.innerHoleDiameter
  {
    var gearModule := p.outerDiameter / (p.toothCount + 2) as real;
    var pitchDiameter := gearModule * p.toothCount as real;
    var toothDepth := 2.25 * gearModule;
    Calculated(gearModule, pitchDiameter, toothDepth,
               pitchDiameter / 2.0, p.outerDiameter / 2.0, p.innerHoleDiameter / 2.0)
  }

  /** Math.max(8, Math.min(100, n)): the nearest tooth count in [8, 100]. */
  function ClampToothCount(n: int): (r: int)
    ensures 8 <= r <= 100
    ensures 8 <= n <= 100 ==> r == n
    ensures n < 8 ==> r == 8
    ensures n > 100 ==> r == 100
  {
    MaxInt(8, MinInt(100, n))
  }

  /** Math.max(1, width): the extrusion depth is never below 1. */
  function ClampWidth(w: real): (r: real)
    ensures r >= 1.0
    ensures w >= 1.0 ==> r == w
    ensures w < 1.0 ==> r == 1.0
  {
    Max(1.0, w)
  }

  /** The clamps of the spur generator, repeated verbatim in the crown generator. */
  function ClampExternal(p: Params, c: Calculated): (d: Dims)
    ensures d.toothCount == ClampToothCount(p.toothCount)
    ensures d.outerRadius >= 5.0 && d.outerRadius >= c.outerRadius
    ensures d.outerRadius == c.outerRadius || d.outerRadius == 5.0
    ensures d.pitchRadius >= 3.0 && d.pitchRadius >= c.pitchRadius
    ensures d.pitchRadius == c.pitchRadius || d.pitchRadius == 3.0
    ensures 0.0 <= d.innerRadius <= d.pitchRadius - 2.0
    ensures d.innerRadius > 0.0 <==> c.innerRadius > 0.0
    ensures 0.0 <= c.innerRadius <= d.pitchRadius - 2.0 ==> d.innerRadius == c.innerRadius
    ensures c.innerRadius > d.pitchRadius - 2.0 ==> d.innerRadius == d.pitchRadius - 2.0
    ensures d.width == ClampWidth(p.width)
  {
    var pitchRadius := Max(3.0, c.pitchRadius);
    Dims(ClampToothCount(p.toothCount),
         Max(5.0, c.outerRadius),
         pitchRadius,
         Max(0.0, Min(pitchRadius - 2.0, c.innerRadius)),
         ClampWidth(p.width))
  }

  /**
   * The clamps of the internal generator: the same tooth count, radii and width,
   * but its "inner" radius is the rim, pushed outside both the pitch circle and
   * the outer circle. The hole diameter plays no part.
   */
  function ClampInternal(p: Params, c: Calculated): (d: Dims)
    ensures d.(innerRadius := 0.0) == ClampExternal(p, c).(innerRadius := 0.0)
    ensures d.innerRadius >= d.pitchRadius + 2.0
    ensures d.innerRadius >= d.outerRadius + 5.0
    ensures d.innerRadius == d.pitchRadius + 2.0 || d.innerRadius == d.outerRadius + 5.0
  {
    var outerRadius := Max(5.0, c.outerRadius);
    var pitchRadius := Max(3.0, c.pitchRadius);
    Dims(ClampToothCount(p.toothCount),
         outerRadius,
         pitchRadius,
         Max(pitchRadius + 2.0, outerRadius + 5.0),
         ClampWidth(p.width))
  }

  /**
   * The parameters of the crown's top gear: the form's top-gear values, bounded
   * by the base gear, and everything else copied from the base parameters.
   */
  function CrownTopParams(p: Params): (t: Params)
    ensures t.toothCount == ClampToothCount(p.topToothCount)
    ensures t.outerDiameter >= 10.0
    ensures t.outerDiameter >= Min(p.outerDiameter * 0.95, p.topDiameter)
    ensures t.outerDiameter <= Max(10.0, p.outerDiameter * 0.95)
    ensures t.outerDiameter <= Max(10.0, p.topDiameter)
    ensures t.width >= 1.0
    ensures t.width >= Min(ClampWidth(p.width) * 0.8, p.topWidth)
    ensures t.width <= Max(1.0, ClampWidth(p.width) * 0.8)
    ensures t.width <= Max(1.0, p.topWidth)
    ensures t.(toothCount := p.toothCount, outerDiameter := p.outerDiameter, width := p.width) == p
  {
    p.(toothCount := ClampToothCount(p.topToothCount),
       outerDiameter := Max(10.0, Min(p.outerDiameter * 0.95, p.topDiameter)),
       width := Max(1.0, Min(ClampWidth(p.width) * 0.8, p.topWidth)),
       innerHoleDiameter := p.innerHoleDiameter)
  }

  /** The axial position of the crown's top gear, a percentage of the clamped base width. */
  function CrownTopOffset(p: Params): (z: real)
    ensures z * 100.0 == ClampWidth(p.width) * p.topOffset
    ensures p.topOffset == 100.0 ==> z == ClampWidth(p.width)
    ensures p.topOffset == 0.0 ==> z == 0.0
  {
    (ClampWidth(p.width) * p.topOffset) / 100.0
  }

  /**
   * Re-clamping the crown's top parameters inside the spur generator changes
   * nothing: the top gear is built with exactly the tooth count, outer diameter
   * and width chosen for it.
   */
  lemma CrownTopClampsAreStable(p: Params)
    ensures CrownTopParams(p).toothCount != -2
    ensures var t := CrownTopParams(p);
            var d := ClampExternal(t, CalculateGearParameters(t));
            d.toothCount == t.toothCount && d.width == t.width && 2.0 * d.outerRadius == t.outerDiameter
  {
  }

  /**
   * For a non-negative tooth count the pitch circle lies strictly inside the
   * outer circle, for the external clamps and for the internal ones, whose rim
   * lies outside both.
   */
  lemma PitchInsideOuter(p: Params)
    requires p.toothCount >= 0
    ensures var c := CalculateGearParameters(p);
            var d := ClampExternal(p, c);
            d.pitchRadius < d.outerRadius
    ensures var c := CalculateGearParameters(p);
            var d := ClampInternal(p, c);
            d.pitchRadius < d.outerRadius < d.innerRadius
  {
    var c := CalculateGearParameters(p);
    ModuleSign(c.gearModule, p.toothCount as real, c.pitchDiameter, p.outerDiameter);
  }

  /**
   * With o shared out as k + 2 modules of size m (k >= 0), and p the part
   * left after two modules: a positive o gives a positive module, and a
   * non-positive o a non-positive p.
   */
  lemma ModuleSign(m: real, k: real, p: real, o: real)
    requires k >= 0.0 && m * (k + 2.0) == o && p + 2.0 * m == o
    ensures o > 0.0 ==> m > 0.0
    ensures o <= 0.0 ==> p <= 0.0
  {
    assert p == m * k;
    if m <= 0.0 {
      assert m * k <= 0.0;
    }
  }

  /**
   * A raw tooth count below -2 with a positive outer diameter gives a negative
   * module, so the derived pitch circle lies outside the derived outer circle.
   */
  lemma DerivedPitchOutsideOuter(p: Params)
    requires p.toothCount < -2 && p.outerDiameter > 0.0
    ensures var c := CalculateGearParameters(p); c.pitchRadius > c.outerRadius
  {
    var c := CalculateGearParameters(p);
    var k := (p.toothCount + 2) as real;
    assert c.gearModule * k == p.outerDiameter && k < 0.0;
    assert c.gearModule < 0.0;
  }

  /**
   * The clamps keep the inversion for a large enough diameter: with 20 mm and
   * -3 teeth the module is -20, the pitch radius 30 and the outer radius 10.
   */
  lemma NegativeToothCountPitchOutsideOuter(p: Params)
    requires p.toothCount == -3 && p.outerDiameter == 20.0
    ensures var d := ClampExternal(p, CalculateGearParameters(p));
            d.pitchRadius == 30.0 && d.outerRadius == 10.0
  {
  }

  /**
   * The values the reset button puts in the form (24 teeth, 25.58 mm, a 5 mm
   * hole, 8 mm wide): module 25.58/26 (shown as 0.98), pitch diameter 23.61...,
   * tooth depth 2.21..., and every clamp leaves the values as they are.
   */
  lemma ResetParametersDerivation(p: Params)
    requires p.toothCount == 24 && p.outerDiameter == 25.58
    requires p.innerHoleDiameter == 5.0 && p.width == 8.0
    ensures var c := CalculateGearParameters(p);
            && c.gearModule == 1279.0 / 1300.0
            && 0.98 <= c.gearModule < 0.985
            && c.pitchDiameter == 30696.0 / 1300.0
            && 23.61 <= c.pitchDiameter < 23.615
            && 2.21 <= c.toothDepth < 2.215
    ensures var d := ClampExternal(p, CalculateGearParameters(p));
            d == Dims(24, 12.79, 30696.0 / 2600.0, 2.5, 8.0)
  {
    var c := CalculateGearParameters(p);
    assert c.gearModule * 26.0 == 25.58;
  }
}
