/**
 * exportSTL: validation of the position buffer, the enumeration of triangles
 * (through the index when there is one, nine floats at a time otherwise), the
 * ASCII STL text and the triangle count.
 *
 * The position buffer is a Float32Array, so an element may be NaN or infinite;
 * once validation has passed, every element is a finite number and the rest of
 * the export works on reals. Vector normalisation and toFixed(6) are handed in
 * as functions.
 */
module StlExport {
  import opened Meshes

  /** A float of the position buffer. */
  datatype Float = Finite(value: real) | NaN | Infinity(negative: bool)

  datatype Vec3 = Vec3(x: real, y: real, z: real)

  /** A normal as normalize() returns it: a component may come back NaN. */
  datatype Normal = Normal(nx: Float, ny: Float, nz: Float)

  /** One facet record: its normal and its three corners. */
  datatype Facet = Facet(normal: Normal, v1: Vec3, v2: Vec3, v3: Vec3)

  /** The two alerts that end the export without a file. */
  datatype Failure = InvalidGeometry | EmptyGeometry

  datatype Export = Exported(stl: string, triangleCount: nat) | Failed(failure: Failure)

  const Header: string := "solid gear\n"
  const Footer: string := "endsolid gear\n"
  /** Triangles whose cross product is shorter than this are skipped. */
  const MinArea: real := 0.0001
  /** The normal written in place of one with a NaN component. */
  const DefaultNormal: Normal := Normal(Finite(0.0), Finite(0.0), Finite(1.0))

  // ------------------------------------------------------------ vector algebra

  function Sub(a: Vec3, b: Vec3): Vec3 {
    Vec3(a.x - b.x, a.y - b.y, a.z - b.z)
  }

  function Cross(a: Vec3, b: Vec3): Vec3 {
    Vec3(a.y * b.z - a.z * b.y, a.z * b.x - a.x * b.z, a.x * b.y - a.y * b.x)
  }

  function Dot(a: Vec3, b: Vec3): real {
    a.x * b.x + a.y * b.y + a.z * b.z
  }

  /** The cross product of the two edges leaving v1. */
  function EdgeCross(v1: Vec3, v2: Vec3, v3: Vec3): Vec3 {
    Cross(Sub(v2, v1), Sub(v3, v1))
  }

  /**
   * The length of the edge cross product is below MinArea. Both sides are
   * non-negative, so comparing squares is the same test without the square
   * root (DegenerateIsShortCross). Two coincident corners always fail it.
   */
  predicate Degenerate(v1: Vec3, v2: Vec3, v3: Vec3)
    ensures v1 == v2 || v1 == v3 || v2 == v3 ==> Degenerate(v1, v2, v3)
  {
    var c := EdgeCross(v1, v2, v3);
    Dot(c, c) < MinArea * MinArea
  }

  predicate HasNaN(n: Normal) {
    n.nx.NaN? || n.ny.NaN? || n.nz.NaN?
  }

  /** The NaN guard after normalize(). */
  function SafeNormal(n: Normal): (r: Normal)
    ensures !HasNaN(r)
    ensures !HasNaN(n) ==> r == n
    ensures HasNaN(n) ==> r == DefaultNormal
  {
    if HasNaN(n) then DefaultNormal else n
  }

  function FaceNormal(v1: Vec3, v2: Vec3, v3: Vec3, normalize: Vec3 -> Normal): Normal {
    SafeNormal(normalize(EdgeCross(v1, v2, v3)))
  }

  // ---------------------------------------------------------------- validation

  /** Every element passes isFinite (which also rejects NaN). */
  predicate AllFinite(vs: seq<Float>) {
    forall k :: 0 <= k < |vs| ==> vs[k].Finite?
  }

  /** The numbers of a validated buffer. */
  function Values(vs: seq<Float>): (r: seq<real>)
    requires AllFinite(vs)
    ensures |r| == |vs|
  {
    seq(|vs|, k requires 0 <= k < |vs| => vs[k].value)
  }

  // --------------------------------------------------------- vertex addressing

  /** vertices[k]: past the end it is undefined, and Vector3 then uses its default 0. */
  function Component(vs: seq<real>, k: nat): (r: real)
    ensures k < |vs| ==> r == vs[k]
    ensures |vs| <= k ==> r == 0.0
  {
    if k < |vs| then vs[k] else 0.0
  }

  /** new Vector3(vertices[o], vertices[o + 1], vertices[o + 2]). */
  function VertexAt(vs: seq<real>, o: nat): (v: Vec3)
    ensures o + 2 < |vs| ==> v == Vec3(vs[o], vs[o + 1], vs[o + 2])
    ensures |vs| <= o ==> v == Vec3(0.0, 0.0, 0.0)
  {
    Vec3(Component(vs, o), Component(vs, o + 1), Component(vs, o + 2))
  }

  /**
   * indices[k] * 3: past the end of the index the product is NaN, written None.
   */
  function Offset(ix: seq<nat>, k: nat): (o: Option<nat>)
    ensures o.Some? <==> k < |ix|
    ensures o.Some? ==> o.value % 3 == 0 && o.value / 3 == ix[k]
  {
    if k < |ix| then Some(ix[k] * 3) else None
  }

  /**
   * The corner at an offset. At a NaN offset every component is undefined, so
   * Vector3 takes its defaults and the corner is the origin.
   */
  function Corner(vs: seq<real>, o: Option<nat>): (v: Vec3)
    ensures o.None? ==> v == Vec3(0.0, 0.0, 0.0)
    ensures o.Some? && o.value + 2 < |vs| ==> v == Vec3(vs[o.value], vs[o.value + 1], vs[o.value + 2])
  {
    if o.Some? then VertexAt(vs, o.value) else Vec3(0.0, 0.0, 0.0)
  }

  /**
   * offset >= vertices.length; a NaN offset compares false. In a buffer of
   * whole vertices an offset of a whole vertex that passes the test has all
   * three of its components in the buffer.
   */
  predicate OutOfRange(o: Option<nat>, length: nat)
    ensures o.None? ==> !OutOfRange(o, length)
    ensures o.Some? && o.value % 3 == 0 && length % 3 == 0 && !OutOfRange(o, length) ==> o.value + 2 < length
  {
    o.Some? && o.value >= length
  }

  // -------------------------------------------------------------- indexed path

  /** Number of passes of the indexed loop: i = 0, 3, 6, ... while i < indices.length. */
  function TriangleSlots(ix: seq<nat>): (n: nat)
    ensures |ix| <= 3 * n
    ensures n > 0 ==> 3 * (n - 1) < |ix|
  {
    (|ix| + 2) / 3
  }

  function Corners(vs: seq<real>, ix: seq<nat>, t: nat): (Vec3, Vec3, Vec3) {
    (Corner(vs, Offset(ix, 3 * t)), Corner(vs, Offset(ix, 3 * t + 1)), Corner(vs, Offset(ix, 3 * t + 2)))
  }

  /** One of the offsets of triangle t is at or past the end of the positions. */
  predicate BadIndex(vs: seq<real>, ix: seq<nat>, t: nat) {
    || OutOfRange(Offset(ix, 3 * t), |vs|)
    || OutOfRange(Offset(ix, 3 * t + 1), |vs|)
    || OutOfRange(Offset(ix, 3 * t + 2), |vs|)
  }

  /** Triangle t is skipped: an offset out of range, or too small an area. */
  predicate Skipped(vs: seq<real>, ix: seq<nat>, t: nat) {
    || BadIndex(vs, ix, t)
    || var (v1, v2, v3) := Corners(vs, ix, t); Degenerate(v1, v2, v3)
  }

  function IndexedFacet(vs: seq<real>, ix: seq<nat>, t: nat, normalize: Vec3 -> Normal): Facet {
    var (v1, v2, v3) := Corners(vs, ix, t);
    Facet(FaceNormal(v1, v2, v3, normalize), v1, v2, v3)
  }

  /** Whether the indexed loop writes triangle t. */
  function KeepIndexed(vs: seq<real>, ix: seq<nat>): nat -> bool {
    (t: nat) => !Skipped(vs, ix, t)
  }

  /** The facet the indexed loop writes for triangle t. */
  function IndexedFacetAt(vs: seq<real>, ix: seq<nat>, normalize: Vec3 -> Normal): nat -> Facet {
    (t: nat) => IndexedFacet(vs, ix, t, normalize)
  }

  /** The candidates among 0 .. count - 1 that a filtering loop keeps, in order. */
  function KeptSlots(keep: nat -> bool, count: nat): seq<nat> {
    if count == 0 then []
    else if keep(count - 1) then KeptSlots(keep, count - 1) + [count - 1]
    else KeptSlots(keep, count - 1)
  }

  /** The facets a filtering loop writes in its first `count` passes. */
  function Kept(keep: nat -> bool, facet: nat -> Facet, count: nat): seq<Facet> {
    if count == 0 then []
    else if keep(count - 1) then Kept(keep, facet, count - 1) + [facet(count - 1)]
    else Kept(keep, facet, count - 1)
  }

  /** The facets of the first `count` index triples, skipped ones left out. */
  function IndexedFacets(vs: seq<real>, ix: seq<nat>, normalize: Vec3 -> Normal, count: nat): seq<Facet> {
    Kept(KeepIndexed(vs, ix), IndexedFacetAt(vs, ix, normalize), count)
  }

  // ---------------------------------------------------------- non-indexed path

  /** Triangle t of a plain triangle list: floats 9t to 9t + 8. */
  function ListFacet(vs: seq<real>, t: nat, normalize: Vec3 -> Normal): Facet {
    var v1 := VertexAt(vs, 9 * t);
    var v2 := VertexAt(vs, 9 * t + 3);
    var v3 := VertexAt(vs, 9 * t + 6);
    Facet(FaceNormal(v1, v2, v3, normalize), v1, v2, v3)
  }

  function ListFacets(vs: seq<real>, normalize: Vec3 -> Normal, count: nat): seq<Facet> {
    if count == 0 then [] else ListFacets(vs, normalize, count - 1) + [ListFacet(vs, count - 1, normalize)]
  }

  /** The facets the export writes, for either kind of geometry. */
  function Facets(vs: seq<real>, index: Option<seq<nat>>, normalize: Vec3 -> Normal): seq<Facet> {
    if index.Some? then IndexedFacets(vs, index.value, normalize, TriangleSlots(index.value))
    else ListFacets(vs, normalize, |vs| / 9)
  }

  // ---------------------------------------------------------------------- text

  function VectorText(x: Float, y: Float, z: Float, toFixed: Float -> string): string {
    toFixed(x) + " " + toFixed(y) + " " + toFixed(z)
  }

  function VertexLine(v: Vec3, toFixed: Float -> string): string {
    "      vertex " + VectorText(Finite(v.x), Finite(v.y), Finite(v.z), toFixed) + "\n"
  }

  /** The seven lines of one ASCII STL facet record. */
  function FacetLines(f: Facet, toFixed: Float -> string): (lines: seq<string>)
    ensures |lines| == 7
  {
    ["  facet normal " + VectorText(f.normal.nx, f.normal.ny, f.normal.nz, toFixed) + "\n",
     "    outer loop\n",
     VertexLine(f.v1, toFixed),
     VertexLine(f.v2, toFixed),
     VertexLine(f.v3, toFixed),
     "    endloop\n",
     "  endfacet\n"]
  }

  /** Lines written one after the other. */
  function Join(lines: seq<string>): string {
    if |lines| == 0 then "" else Join(lines[..|lines| - 1]) + lines[|lines| - 1]
  }

  function FacetText(f: Facet, toFixed: Float -> string): string {
    Join(FacetLines(f, toFixed))
  }

  function Render(fs: seq<Facet>, toFixed: Float -> string): string {
    if |fs| == 0 then "" else Render(fs[..|fs| - 1], toFixed) + FacetText(fs[|fs| - 1], toFixed)
  }

  /** Appending a facet record appends its text. */
  lemma RenderSnoc(fs: seq<Facet>, f: Facet, toFixed: Float -> string)
    ensures Render(fs + [f], toFixed) == Render(fs, toFixed) + FacetText(f, toFixed)
  {
    assert (fs + [f])[..|fs|] == fs;
  }

  lemma AppendAssoc(a: string, b: string, c: string)
    ensures (a + b) + c == a + (b + c)
  {
  }

  /** One pass of a filtering loop: the candidate's text and one to the count exactly when it is kept. */
  lemma KeptPass(prefix: string, out: string, n: nat, keep: nat -> bool, facet: nat -> Facet,
                 toFixed: Float -> string, t: nat, kept: bool, f: Facet)
    requires out == prefix + Render(Kept(keep, facet, t), toFixed) && n == |Kept(keep, facet, t)|
    requires kept == keep(t) && (kept ==> f == facet(t))
    ensures var out' := if kept then out + FacetText(f, toFixed) else out;
            var n' := if kept then n + 1 else n;
            out' == prefix + Render(Kept(keep, facet, t + 1), toFixed) && n' == |Kept(keep, facet, t + 1)|
  {
    if kept {
      RenderSnoc(Kept(keep, facet, t), f, toFixed);
      AppendAssoc(prefix, Render(Kept(keep, facet, t), toFixed), FacetText(f, toFixed));
    }
  }

  lemma ListStep(vs: seq<real>, normalize: Vec3 -> Normal, toFixed: Float -> string, t: nat, f: Facet)
    requires f == ListFacet(vs, t, normalize)
    ensures Render(ListFacets(vs, normalize, t + 1), toFixed) == Render(ListFacets(vs, normalize, t), toFixed) + FacetText(f, toFixed)
  {
    RenderSnoc(ListFacets(vs, normalize, t), f, toFixed);
  }

  /**
   * The non-indexed export writes one facet per whole group of nine floats,
   * facet t taking its corners from floats 9t to 9t + 8.
   */
  lemma {:induction false} ListFacetsLayout(vs: seq<real>, normalize: Vec3 -> Normal, count: nat)
    requires 9 * count <= |vs|
    ensures var fs := ListFacets(vs, normalize, count);
            && |fs| == count
            && forall t :: 0 <= t < count ==>
                 && fs[t].v1 == Vec3(vs[9 * t], vs[9 * t + 1], vs[9 * t + 2])
                 && fs[t].v2 == Vec3(vs[9 * t + 3], vs[9 * t + 4], vs[9 * t + 5])
                 && fs[t].v3 == Vec3(vs[9 * t + 6], vs[9 * t + 7], vs[9 * t + 8])
                 && fs[t].normal == FaceNormal(fs[t].v1, fs[t].v2, fs[t].v3, normalize)
  {
    if count > 0 {
      ListFacetsLayout(vs, normalize, count - 1);
    }
  }

  /** What exportSTL produces: the failure it alerts, or the file text and triangle count. */
  function Serialize(vertices: seq<Float>, index: Option<seq<nat>>,
                     normalize: Vec3 -> Normal, toFixed: Float -> string): Export
  {
    if !AllFinite(vertices) then Failed(InvalidGeometry)
    else
      var fs := Facets(Values(vertices), index, normalize);
      if |fs| == 0 then Failed(EmptyGeometry)
      else Exported(Header + Render(fs, toFixed) + Footer, |fs|)
  }

  // ------------------------------------------------------------------- methods

  /** The validation loop: true when every element passes isFinite. */
  method ValidateVertices(vertices: seq<Float>) returns (valid: bool)
    ensures valid == AllFinite(vertices)
  {
    var i := 0;
    while i < |vertices|
      invariant 0 <= i <= |vertices|
      invariant forall k :: 0 <= k < i ==> vertices[k].Finite?
    {
      if !vertices[i].Finite? {
        return false;
      }
      i := i + 1;
    }
    return true;
  }

  /**
   * One pass of the indexed loop up to the facet text: the two `continue`
   * tests, then the corners and the guarded normal.
   */
  method ReadIndexedTriangle(vs: seq<real>, ix: seq<nat>, i: nat, ghost t: nat, normalize: Vec3 -> Normal)
    returns (skip: bool, f: Facet)
    requires i == 3 * t
    ensures skip == !KeepIndexed(vs, ix)(t)
    ensures !skip ==> f == IndexedFacetAt(vs, ix, normalize)(t)
  {
    var i1 := Offset(ix, i);
    var i2 := Offset(ix, i + 1);
    var i3 := Offset(ix, i + 2);
    f := Facet(DefaultNormal, Vec3(0.0, 0.0, 0.0), Vec3(0.0, 0.0, 0.0), Vec3(0.0, 0.0, 0.0));
    if OutOfRange(i1, |vs|) || OutOfRange(i2, |vs|) || OutOfRange(i3, |vs|) {
      return true, f;
    }
    var v1 := Corner(vs, i1);
    var v2 := Corner(vs, i2);
    var v3 := Corner(vs, i3);
    var area := EdgeCross(v1, v2, v3);
    if Dot(area, area) < MinArea * MinArea {
      return true, f;
    }
    var normal := normalize(EdgeCross(v1, v2, v3));
    if HasNaN(normal) {
      normal := DefaultNormal;
    }
    return false, Facet(normal, v1, v2, v3);
  }

  /** One pass of the indexed loop: the facet text and one more triangle, unless the triple is skipped. */
  method IndexedPass(stlString: string, out: string, triangleCount: nat, vs: seq<real>, ix: seq<nat>,
                     i: nat, ghost t: nat, normalize: Vec3 -> Normal, toFixed: Float -> string)
    returns (out': string, triangleCount': nat)
    requires i == 3 * t
    requires var fs := IndexedFacets(vs, ix, normalize, t);
             out == stlString + Render(fs, toFixed) && triangleCount == |fs|
    ensures var fs := IndexedFacets(vs, ix, normalize, t + 1);
            out' == stlString + Render(fs, toFixed) && triangleCount' == |fs|
  {
    var skip, f := ReadIndexedTriangle(vs, ix, i, t, normalize);
    KeptPass(stlString, out, triangleCount, KeepIndexed(vs, ix), IndexedFacetAt(vs, ix, normalize), toFixed, t, !skip, f);
    if skip {
      return out, triangleCount;
    }
    return out + FacetText(f, toFixed), triangleCount + 1;
  }

  /** The indexed loop: appends a facet per kept index triple and counts them. */
  method AppendIndexed(stlString: string, vs: seq<real>, ix: seq<nat>,
                       normalize: Vec3 -> Normal, toFixed: Float -> string)
    returns (out: string, triangleCount: nat)
    ensures var fs := IndexedFacets(vs, ix, normalize, TriangleSlots(ix));
            out == stlString + Render(fs, toFixed) && triangleCount == |fs|
  {
    out := stlString;
    triangleCount := 0;
    var i := 0;
    ghost var t := 0;
    while i < |ix|
      invariant i == 3 * t && 3 * t <= |ix| + 2
      invariant var fs := IndexedFacets(vs, ix, normalize, t);
                out == stlString + Render(fs, toFixed) && triangleCount == |fs|
    {
      out, triangleCount := IndexedPass(stlString, out, triangleCount, vs, ix, i, t, normalize, toFixed);
      i, t := i + 3, t + 1;
    }
    assert t == TriangleSlots(ix);
  }

  /** The corners and the guarded normal of the facet read from floats i to i + 8. */
  method ListFacetAt(vs: seq<real>, i: nat, ghost t: nat, normalize: Vec3 -> Normal) returns (f: Facet)
    requires i == 9 * t
    ensures f == ListFacet(vs, t, normalize)
  {
    var v1 := VertexAt(vs, i);
    var v2 := VertexAt(vs, i + 3);
    var v3 := VertexAt(vs, i + 6);
    var normal := normalize(EdgeCross(v1, v2, v3));
    if HasNaN(normal) {
      normal := DefaultNormal;
    }
    f := Facet(normal, v1, v2, v3);
  }

  /** One pass of the non-indexed loop: the facet of floats 9t to 9t + 8. */
  method ListPass(stlString: string, out: string, vs: seq<real>, i: nat, ghost t: nat,
                  normalize: Vec3 -> Normal, toFixed: Float -> string)
    returns (out': string)
    requires i == 9 * t
    requires out == stlString + Render(ListFacets(vs, normalize, t), toFixed)
    ensures out' == stlString + Render(ListFacets(vs, normalize, t + 1), toFixed)
  {
    var f := ListFacetAt(vs, i, t, normalize);
    ListStep(vs, normalize, toFixed, t, f);
    AppendAssoc(stlString, Render(ListFacets(vs, normalize, t), toFixed), FacetText(f, toFixed));
    out' := out + FacetText(f, toFixed);
  }

  /** The non-indexed loop: nine floats per facet, a trailing partial triangle dropped. */
  method AppendList(stlString: string, vs: seq<real>, normalize: Vec3 -> Normal, toFixed: Float -> string)
    returns (out: string, triangleCount: nat)
    ensures var fs := ListFacets(vs, normalize, |vs| / 9);
            out == stlString + Render(fs, toFixed) && triangleCount == |fs|
  {
    out := stlString;
    triangleCount := 0;
    var i := 0;
    ghost var t := 0;
    while i < |vs|
      invariant i == 9 * t && t <= |vs| / 9
      invariant out == stlString + Render(ListFacets(vs, normalize, t), toFixed)
      invariant triangleCount == t
    {
      if i + 8 >= |vs| {
        break;
      }
      out := ListPass(stlString, out, vs, i, t, normalize, toFixed);
      triangleCount := triangleCount + 1;
      i, t := i + 9, t + 1;
    }
    assert t == |vs| / 9;
    ListFacetsLayout(vs, normalize, t);
  }

  /** exportSTL from the validation loop to the zero-count check. */
  method ExportStl(vertices: seq<Float>, indices: Option<seq<nat>>,
                   normalize: Vec3 -> Normal, toFixed: Float -> string) returns (result: Export)
    ensures result == Serialize(vertices, indices, normalize, toFixed)
  {
    var valid := ValidateVertices(vertices);
    if !valid {
      return Failed(InvalidGeometry);
    }
    var vs := Values(vertices);
    var stlString := Header;
    var triangleCount: nat;
    if indices.Some? {
      stlString, triangleCount := AppendIndexed(stlString, vs, indices.value, normalize, toFixed);
    } else {
      stlString, triangleCount := AppendList(stlString, vs, normalize, toFixed);
    }
    stlString := stlString + Footer;
    if triangleCount == 0 {
      return Failed(EmptyGeometry);
    }
    return Exported(stlString, triangleCount);
  }

  // ---------------------------------------------------------------- properties

  /** A filtering loop keeps exactly the candidates below count that keep accepts, in increasing order. */
  lemma {:induction false} KeptSlotsExact(keep: nat -> bool, count: nat)
    ensures var s := KeptSlots(keep, count);
            && (forall t: nat :: t in s <==> t < count && keep(t))
            && (forall j, k :: 0 <= j < k < |s| ==> s[j] < s[k])
  {
    if count > 0 {
      KeptSlotsExact(keep, count - 1);
      var prev := KeptSlots(keep, count - 1);
      if keep(count - 1) {
        var s := prev + [count - 1];
        assert forall j :: 0 <= j < |prev| ==> prev[j] in prev;
        assert forall j, k :: 0 <= j < k < |s| ==> s[j] < s[k] by {
          forall j, k | 0 <= j < k < |s| ensures s[j] < s[k] {
            if k < |prev| {
              assert s[j] == prev[j] && s[k] == prev[k];
            } else {
              assert s[j] == prev[j] && prev[j] in prev;
            }
          }
        }
      }
    }
  }

  /** Facet j a filtering loop writes is the facet of its j-th kept candidate. */
  lemma {:induction false} KeptLayout(keep: nat -> bool, facet: nat -> Facet, count: nat)
    ensures var s := KeptSlots(keep, count);
            var fs := Kept(keep, facet, count);
            |fs| == |s| && forall j :: 0 <= j < |fs| ==> fs[j] == facet(s[j])
  {
    if count > 0 {
      KeptLayout(keep, facet, count - 1);
    }
  }

  /** A loop that keeps no candidate writes nothing. */
  lemma {:induction false} KeptNone(keep: nat -> bool, facet: nat -> Facet, count: nat)
    requires forall t: nat :: t < count ==> !keep(t)
    ensures Kept(keep, facet, count) == []
  {
    if count > 0 {
      KeptNone(keep, facet, count - 1);
    }
  }

  /**
   * The indexed export writes, in index order, the facet of every triangle
   * that is not skipped, and of no other.
   */
  lemma IndexedFacetsExact(vs: seq<real>, ix: seq<nat>, normalize: Vec3 -> Normal, count: nat)
    ensures var s := KeptSlots(KeepIndexed(vs, ix), count);
            var fs := IndexedFacets(vs, ix, normalize, count);
            && |fs| == |s|
            && (forall t: nat :: t in s <==> t < count && !Skipped(vs, ix, t))
            && (forall j, k :: 0 <= j < k < |s| ==> s[j] < s[k])
            && (forall j :: 0 <= j < |fs| ==> fs[j] == IndexedFacet(vs, ix, s[j], normalize))
  {
    KeptSlotsExact(KeepIndexed(vs, ix), count);
    KeptLayout(KeepIndexed(vs, ix), IndexedFacetAt(vs, ix, normalize), count);
  }

  /** Every facet the indexed export writes has a NaN-free normal and an area of at least MinArea. */
  lemma IndexedFacetsWellFormed(vs: seq<real>, ix: seq<nat>, normalize: Vec3 -> Normal, count: nat)
    ensures forall f :: f in IndexedFacets(vs, ix, normalize, count) ==>
              !HasNaN(f.normal) && !Degenerate(f.v1, f.v2, f.v3)
  {
    var s := KeptSlots(KeepIndexed(vs, ix), count);
    var fs := IndexedFacets(vs, ix, normalize, count);
    IndexedFacetsExact(vs, ix, normalize, count);
    forall f | f in fs
      ensures !HasNaN(f.normal) && !Degenerate(f.v1, f.v2, f.v3)
    {
      var j :| 0 <= j < |fs| && fs[j] == f;
      assert s[j] in s;
      assert !Skipped(vs, ix, s[j]);
    }
  }

  /**
   * The three outcomes of the export: the invalid-geometry alert exactly when a
   * position is not finite, the empty alert exactly when no facet survives,
   * otherwise a file framed by the solid header and footer that counts its facets.
   */
  lemma ExportOutcome(vertices: seq<Float>, index: Option<seq<nat>>,
                      normalize: Vec3 -> Normal, toFixed: Float -> string)
    ensures var r := Serialize(vertices, index, normalize, toFixed);
            && (r == Failed(InvalidGeometry) <==> !AllFinite(vertices))
            && (r == Failed(EmptyGeometry) <==>
                  AllFinite(vertices) && |Facets(Values(vertices), index, normalize)| == 0)
            && (r.Exported? ==>
                  && AllFinite(vertices)
                  && r.triangleCount == |Facets(Values(vertices), index, normalize)| > 0
                  && |r.stl| >= |Header| + |Footer|
                  && r.stl[..|Header|] == Header
                  && r.stl[|r.stl| - |Footer|..] == Footer)
  {
  }

  /** Every component of every position is zero. */
  predicate AllZero(vertices: seq<Float>) {
    forall k :: 0 <= k < |vertices| ==> vertices[k] == Finite(0.0)
  }

  /** In an all-zero buffer every corner is the origin, whether its offset is in range or not. */
  lemma ZeroCorner(vs: seq<real>, o: Option<nat>)
    requires forall k :: 0 <= k < |vs| ==> vs[k] == 0.0
    ensures Corner(vs, o) == Vec3(0.0, 0.0, 0.0)
  {
    if o.Some? {
      assert Component(vs, o.value) == 0.0;
      assert Component(vs, o.value + 1) == 0.0;
      assert Component(vs, o.value + 2) == 0.0;
    }
  }

  /** In an all-zero buffer every triangle has zero area, so the indexed loop skips it. */
  lemma ZeroTriangleSkipped(vs: seq<real>, ix: seq<nat>, t: nat)
    requires forall k :: 0 <= k < |vs| ==> vs[k] == 0.0
    ensures Skipped(vs, ix, t)
  {
    var origin := Vec3(0.0, 0.0, 0.0);
    ZeroCorner(vs, Offset(ix, 3 * t));
    ZeroCorner(vs, Offset(ix, 3 * t + 1));
    ZeroCorner(vs, Offset(ix, 3 * t + 2));
    assert Corners(vs, ix, t) == (origin, origin, origin);
    assert EdgeCross(origin, origin, origin) == origin;
  }

  /**
   * The squared test of Degenerate is the source's test on the length of the
   * cross product: for the non-negative len with len * len == |c|², the
   * triangle is degenerate exactly when len < MinArea.
   */
  lemma DegenerateIsShortCross(v1: Vec3, v2: Vec3, v3: Vec3, len: real)
    requires var c := EdgeCross(v1, v2, v3); len >= 0.0 && len * len == Dot(c, c)
    ensures Degenerate(v1, v2, v3) <==> len < MinArea
  {
    if len < MinArea {
      assert len * len <= len * MinArea < MinArea * MinArea;
    } else {
      assert len * len >= len * MinArea >= MinArea * MinArea;
    }
  }

  /**
   * One index left over after the last whole triple: the two missing corners
   * are the origin, so the triangle passes the range test but has no area and
   * is skipped.
   */
  lemma SingleLeftoverIndexSkipped(vs: seq<real>, ix: seq<nat>)
    requires |ix| % 3 == 1
    ensures var t := |ix| / 3; t < TriangleSlots(ix) && Skipped(vs, ix, t)
  {
    var t := |ix| / 3;
    assert 3 * t + 1 == |ix|;
    var (v1, v2, v3) := Corners(vs, ix, t);
    assert v2 == v3;
  }

  /**
   * Two indices left over: the third offset is NaN, so it passes the range
   * test and its corner is the origin; the triangle is skipped exactly when
   * one of the two real offsets is out of range or the triangle they span
   * with the origin is too small.
   */
  lemma LeftoverPairDecidedByArea(vs: seq<real>, ix: seq<nat>)
    requires |ix| % 3 == 2
    ensures var t := |ix| / 3;
            var (v1, v2, v3) := Corners(vs, ix, t);
            && t < TriangleSlots(ix)
            && v3 == Vec3(0.0, 0.0, 0.0)
            && (Skipped(vs, ix, t) <==>
                  || ix[3 * t] * 3 >= |vs|
                  || ix[3 * t + 1] * 3 >= |vs|
                  || Degenerate(v1, v2, Vec3(0.0, 0.0, 0.0)))
  {
    var t := |ix| / 3;
    assert 3 * t + 2 == |ix|;
    assert Offset(ix, 3 * t) == Some(ix[3 * t] * 3);
    assert Offset(ix, 3 * t + 1) == Some(ix[3 * t + 1] * 3);
    assert Offset(ix, 3 * t + 2).None?;
  }

  /** With an index, a buffer whose positions are all zero exports nothing: every triangle is skipped. */
  lemma CollapsedIndexedMeshIsEmpty(vertices: seq<Float>, ix: seq<nat>,
                                    normalize: Vec3 -> Normal, toFixed: Float -> string)
    requires AllZero(vertices)
    ensures Serialize(vertices, Some(ix), normalize, toFixed) == Failed(EmptyGeometry)
  {
    var vs := Values(vertices);
    var keep := KeepIndexed(vs, ix);
    forall t: nat | t < TriangleSlots(ix)
      ensures !keep(t)
    {
      ZeroTriangleSkipped(vs, ix, t);
    }
    KeptNone(keep, IndexedFacetAt(vs, ix, normalize), TriangleSlots(ix));
    assert Facets(vs, Some(ix), normalize) == [];
  }

  /**
   * Without an index the same all-zero buffer is exported: one facet per
   * whole group of nine floats, since that path has no area test.
   */
  lemma CollapsedTriangleListIsExported(vertices: seq<Float>, normalize: Vec3 -> Normal, toFixed: Float -> string)
    requires AllZero(vertices) && |vertices| >= 9
    ensures var r := Serialize(vertices, None, normalize, toFixed);
            r.Exported? && r.triangleCount == |vertices| / 9
  {
    ListFacetsLayout(Values(vertices), normalize, |vertices| / 9);
  }
}
