/**
 * createGearGeometry and the five generators it dispatches to, from the
 * parameters to the BufferGeometry. ExtrudeGeometry and the trigonometry are
 * handed in as a Library: the model sees the extrusion's positions and index
 * only through the two properties stated below.
 */
module GearGeometry {
  import opened Numbers
  import opened GearParams
  import opened Meshes
  import opened Outline
  import opened VertexTransforms
  import opened CrownMerge

  datatype GearType = Spur | Helical | Bevel | Crown | Internal

  /** The calls the generators make into three.js and Math. */
  datatype Library = Library(extrude: Extrusion -> Mesh, trig: Trig)

  /** ExtrudeGeometry returns a position buffer of whole (x, y, z) vertices. */
  ghost predicate Extrudes(lib: Library) {
    forall e :: WholeVertices(lib.extrude(e).positions)
  }

  /** Without bevels, every vertex of an extrusion lies between its caps at z = 0 and z = depth. */
  ghost predicate ExtrudesBetweenCaps(lib: Library) {
    forall e, k :: 0 <= k < |lib.extrude(e).positions| && k % 3 == 2 ==>
      0.0 <= lib.extrude(e).positions[k] <= e.depth
  }

  /** The switch of createGearGeometry: five names, and a spur gear for any other. */
  function GearTypeOf(name: string): (g: GearType)
    ensures g == Helical <==> name == "helical"
    ensures g == Bevel <==> name == "bevel"
    ensures g == Crown <==> name == "crown"
    ensures g == Internal <==> name == "internal"
    ensures g == Spur <==> name !in {"helical", "bevel", "crown", "internal"}
  {
    if name == "helical" then Helical
    else if name == "bevel" then Bevel
    else if name == "crown" then Crown
    else if name == "internal" then Internal
    else Spur
  }

  // ---------------------------------------------------------------- generators

  function SpurGear(lib: Library, p: Params, c: Calculated): Mesh {
    lib.extrude(SpurExtrusion(p, c))
  }

  /** The spur mesh with each vertex twisted about the axis; the index is kept. */
  function HelicalGear(lib: Library, p: Params, c: Calculated): Mesh
    requires Extrudes(lib) && p.width != 0.0
  {
    var base := SpurGear(lib, p, c);
    Mesh(Twisted(base.positions, p.width, lib.trig), base.index)
  }

  /** The spur mesh narrowed towards its far face; the index is kept. */
  function BevelGear(lib: Library, p: Params, c: Calculated): Mesh
    requires Extrudes(lib) && p.width != 0.0
  {
    var base := SpurGear(lib, p, c);
    Mesh(Tapered(base.positions, p.width), base.index)
  }

  /** The crown's top gear, built from its own parameters and moved up the axis. */
  function CrownTop(lib: Library, p: Params): Mesh {
    var t := CrownTopParams(p);
    var top := SpurGear(lib, t, CalculateGearParameters(t));
    Mesh(Translated(top.positions, CrownTopOffset(p)), top.index)
  }

  function CrownGear(lib: Library, p: Params, c: Calculated): Mesh
    requires Extrudes(lib)
  {
    Merged(SpurGear(lib, p, c), CrownTop(lib, p))
  }

  function InternalGear(lib: Library, p: Params, c: Calculated): Mesh {
    lib.extrude(InternalExtrusion(p, c, lib.trig.sin))
  }

  /** The geometry createGearGeometry returns for the form's gear type. */
  function CreateGearGeometry(lib: Library, p: Params, c: Calculated): Mesh
    requires Extrudes(lib)
    requires GearTypeOf(p.gearType) in {Helical, Bevel} ==> p.width != 0.0
  {
    match GearTypeOf(p.gearType)
    case Spur => SpurGear(lib, p, c)
    case Helical => HelicalGear(lib, p, c)
    case Bevel => BevelGear(lib, p, c)
    case Crown => CrownGear(lib, p, c)
    case Internal => InternalGear(lib, p, c)
  }

  // ------------------------------------------------------------------- methods

  /** A Float32Array holding the given positions. */
  method PositionBuffer(positions: seq<real>) returns (vertices: array<real>)
    ensures fresh(vertices) && vertices[..] == positions
  {
    vertices := new real[|positions|](k requires 0 <= k < |positions| => positions[k]);
  }

  /** createHelicalGear: the spur mesh's position buffer rotated in place. */
  method CreateHelicalGear(lib: Library, p: Params, c: Calculated) returns (m: Mesh)
    requires Extrudes(lib) && p.width != 0.0
    ensures m == HelicalGear(lib, p, c)
  {
    var e := CreateSpurGear(p, c);
    var baseGeometry := lib.extrude(e);
    var vertices := PositionBuffer(baseGeometry.positions);
    TwistInPlace(vertices, p.width, lib.trig);
    m := Mesh(vertices[..], baseGeometry.index);
  }

  /** createBevelGear: the spur mesh's position buffer scaled in place. */
  method CreateBevelGear(lib: Library, p: Params, c: Calculated) returns (m: Mesh)
    requires Extrudes(lib) && p.width != 0.0
    ensures m == BevelGear(lib, p, c)
  {
    var e := CreateSpurGear(p, c);
    var baseGeometry := lib.extrude(e);
    var vertices := PositionBuffer(baseGeometry.positions);
    TaperInPlace(vertices, p.width);
    m := Mesh(vertices[..], baseGeometry.index);
  }

  /** createCrownGear: the base spur, the translated top spur, and their merge. */
  method CreateCrownGear(lib: Library, p: Params, c: Calculated) returns (m: Mesh)
    requires Extrudes(lib)
    ensures m == CrownGear(lib, p, c)
  {
    var baseShape := CreateSpurGear(p, c);
    var baseGear := lib.extrude(baseShape);
    var topGearParams := CrownTopParams(p);
    var topCalculated := CalculateGearParameters(topGearParams);
    var topShape := CreateSpurGear(topGearParams, topCalculated);
    var topGear := lib.extrude(topShape);
    var offsetZ := CrownTopOffset(p);
    topGear := Mesh(Translated(topGear.positions, offsetZ), topGear.index);
    m := MergeGeometries(baseGear, topGear);
  }

  /** createGearGeometry: the generator the gear type selects. */
  method CreateGearGeometryFor(lib: Library, p: Params, c: Calculated) returns (m: Mesh)
    requires Extrudes(lib)
    requires GearTypeOf(p.gearType) in {Helical, Bevel} ==> p.width != 0.0
    ensures m == CreateGearGeometry(lib, p, c)
  {
    match GearTypeOf(p.gearType)
    case Spur =>
      var e := CreateSpurGear(p, c);
      m := lib.extrude(e);
    case Helical =>
      m := CreateHelicalGear(lib, p, c);
    case Bevel =>
      m := CreateBevelGear(lib, p, c);
    case Crown =>
      m := CreateCrownGear(lib, p, c);
    case Internal =>
      var e := CreateInternalGear(p, c, lib.trig.sin);
      m := lib.extrude(e);
  }

  // ---------------------------------------------------------------- properties

  /**
   * The bevel keeps the spur's index, vertex count and every z, and scales
   * vertex t's x and y by the cone factor at its height.
   */
  lemma BevelGearVertex(lib: Library, p: Params, c: Calculated, t: nat)
    requires Extrudes(lib) && p.width != 0.0
    requires 3 * t + 2 < |SpurGear(lib, p, c).positions|
    ensures var v := SpurGear(lib, p, c);
            var r := BevelGear(lib, p, c);
            var s := TaperScale(v.positions[3 * t + 2], p.width);
            && r.index == v.index && |r.positions| == |v.positions|
            && r.positions[3 * t + 2] == v.positions[3 * t + 2]
            && r.positions[3 * t] == s * v.positions[3 * t]
            && r.positions[3 * t + 1] == s * v.positions[3 * t + 1]
  {
    TaperVertex(SpurGear(lib, p, c).positions, p.width, t);
  }

  /**
   * When the form width is at least 1 it is also the extrusion depth, so the
   * bevel leaves the base face full size and halves the far face: every
   * vertex's distance from the axis is scaled by a factor between 0.5 and 1.
   */
  lemma BevelConeBetweenHalfAndFull(lib: Library, p: Params, c: Calculated, t: nat)
    requires Extrudes(lib) && ExtrudesBetweenCaps(lib) && p.width >= 1.0
    requires 3 * t + 2 < |SpurGear(lib, p, c).positions|
    ensures var v := SpurGear(lib, p, c).positions;
            var r := BevelGear(lib, p, c).positions;
            0.25 * SquaredRadius(v, t) <= SquaredRadius(r, t) <= SquaredRadius(v, t)
  {
    var v := SpurGear(lib, p, c).positions;
    assert BevelGear(lib, p, c).positions == Tapered(v, p.width);
    SpurVertexBetweenCaps(lib, p, c, t);
    TaperedRadiusBetweenHalfAndFull(v, p.width, t);
  }

  /** Every vertex of the spur mesh lies between z = 0 and the clamped width. */
  lemma SpurVertexBetweenCaps(lib: Library, p: Params, c: Calculated, t: nat)
    requires ExtrudesBetweenCaps(lib) && 3 * t + 2 < |SpurGear(lib, p, c).positions|
    ensures 0.0 <= SpurGear(lib, p, c).positions[3 * t + 2] <= ClampWidth(p.width)
  {
    assert SpurExtrusion(p, c).depth == ClampWidth(p.width);
    assert (3 * t + 2) % 3 == 2;
  }

  /**
   * Under cos² + sin² = 1 the helical pass keeps the spur's index, vertex
   * count, every z and every vertex's distance from the axis.
   */
  lemma HelicalGearVertex(lib: Library, p: Params, c: Calculated, t: nat)
    requires Extrudes(lib) && p.width != 0.0 && Pythagorean(lib.trig)
    requires 3 * t + 2 < |SpurGear(lib, p, c).positions|
    ensures var v := SpurGear(lib, p, c);
            var r := HelicalGear(lib, p, c);
            && r.index == v.index && |r.positions| == |v.positions|
            && r.positions[3 * t + 2] == v.positions[3 * t + 2]
            && SquaredRadius(r.positions, t) == SquaredRadius(v.positions, t)
  {
    var v := SpurGear(lib, p, c).positions;
    var r := HelicalGear(lib, p, c).positions;
    assert r == Twisted(v, p.width, lib.trig);
    TwistVertex(v, p.width, lib.trig, t);
  }

  /**
   * The crown holds the base spur's positions followed by the top spur's,
   * each of the latter moved along z by the top offset and nothing else.
   */
  lemma CrownGearLayout(lib: Library, p: Params, c: Calculated)
    requires Extrudes(lib)
    ensures var base := SpurGear(lib, p, c).positions;
            var t := CrownTopParams(p);
            var top := SpurGear(lib, t, CalculateGearParameters(t)).positions;
            var m := CrownGear(lib, p, c).positions;
            && |m| == |base| + |top|
            && m[..|base|] == base
            && (forall k :: 0 <= k < |top| && k % 3 == 2 ==> m[|base| + k] == top[k] + CrownTopOffset(p))
            && (forall k :: 0 <= k < |top| && k % 3 != 2 ==> m[|base| + k] == top[k])
  {
    var t := CrownTopParams(p);
    var top := SpurGear(lib, t, CalculateGearParameters(t));
    MergedTranslatedTop(SpurGear(lib, p, c), top.positions, top.index, CrownTopOffset(p));
  }

  /**
   * At a top offset of 100 % the top gear stands on the base gear's far face:
   * the base occupies z from 0 to the base width, the top from there up by the
   * top width, which is never more than the base width.
   */
  lemma CrownTopSitsOnBase(lib: Library, p: Params, c: Calculated)
    requires Extrudes(lib) && ExtrudesBetweenCaps(lib) && p.topOffset == 100.0
    ensures var w := ClampWidth(p.width);
            var tw := CrownTopParams(p).width;
            var base := SpurGear(lib, p, c).positions;
            var m := CrownGear(lib, p, c).positions;
            && 1.0 <= tw <= w
            && (forall k :: 0 <= k < |base| && k % 3 == 2 ==> 0.0 <= m[k] <= w)
            && (forall k :: |base| <= k < |m| && k % 3 == 2 ==> w <= m[k] <= w + tw)
  {
    var w := ClampWidth(p.width);
    var t := CrownTopParams(p);
    var base := SpurGear(lib, p, c);
    var top := SpurGear(lib, t, CalculateGearParameters(t));
    CrownTopClampsAreStable(p);
    assert SpurExtrusion(p, c).depth == w;
    assert SpurExtrusion(t, CalculateGearParameters(t)).depth == t.width;
    MergedAxialRange(base, top.positions, top.index, CrownTopOffset(p), w, t.width);
  }
}
