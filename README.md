# Gear generator kernel in Dafny

A model of the gear kernel of the browser gear generator (`GearGenerator` in
`script.js`). The kernel is the part that runs between the form and the
three.js scene:

- the derived quantities of a gear (`calculateGearParameters`);
- the clamps each generator applies to the form values;
- the 2-D outlines of the spur and internal generators, handed to
  `ExtrudeGeometry`;
- the in-place vertex passes of the bevel and helical generators;
- the crown generator's top-gear parameters, translation and buffer merge;
- the `createGearGeometry` switch;
- the `exportSTL` pipeline: validation, triangle enumeration, facet text,
  triangle count and the two failure alerts.

Modules, one per file:

| file | module | what it holds |
|---|---|---|
| `numbers.dfy` | `Numbers` | `Math.PI`, `Math.max`/`Math.min`, cos/sin as a `Trig` value |
| `gear_params.dfy` | `GearParams` | form values, derived quantities, clamps, crown top parameters |
| `outline.dfy` | `Outline` | polar outline points, the spur and internal builders (loop methods) and their specification functions |
| `meshes.dfy` | `Meshes` | a BufferGeometry as a position sequence and an optional index; the z translation |
| `vertex_transforms.dfy` | `VertexTransforms` | the bevel and helical passes over an `array<real>`, against `Tapered`/`Twisted` |
| `crown_merge.dfy` | `CrownMerge` | `positions.set` and the index concatenation of the crown merge |
| `gear_geometry.dfy` | `GearGeometry` | the five generators and the type switch, over an extrusion library |
| `stl_export.dfy` | `StlExport` | `exportSTL` from validation to the zero-count check |

## How the model is set up

- Numbers are reals. Tooth counts are integers, because they come from
  `parseInt`. No float32 or double rounding is modelled.
- An outline point is kept in polar form (angle, radius). The source builds
  every `Vector2` as `(cos(angle)·r, sin(angle)·r)`. The generator decides
  the angle and the radius; cos and sin are the library's.
- `ExtrudeGeometry` is a function parameter, in a `Library` together with
  cos and sin. Two properties state what the model assumes of it:
  - `Extrudes`: the position buffer holds whole (x, y, z) vertices;
  - `ExtrudesBetweenCaps`: with bevels disabled, every z lies between 0 and
    the depth.
  Only the lemmas that need these properties require them.
- The loops of the source are loop methods, each proved equal to a
  specification function:
  - the outline builders (`CreateSpurGear`, `CreateInternalGear`,
    `TraceCircle`, `TracePocket`);
  - the in-place array passes (`TaperInPlace`, `TwistInPlace`);
  - the typed-array `set` (`SetAt`);
  - the export loops (`AppendIndexed`, `AppendList`, `ValidateVertices`).
- The export reads a `Float32Array`, so a buffer element is a `Float`: a
  finite number, NaN or ±Infinity. `normalize()` and `toFixed(6)` are
  function parameters.
- A `Vector3` built from an undefined component takes its default 0. This
  models reading past the end of the buffer, and an `indices[k]` past the
  end of the index, whose offset `indices[k] * 3` is NaN. A NaN offset
  passes the range test, because it fails every `>=`. The missing corners
  are the origin, and the area test then decides. One leftover index gives
  two corners at the origin, so the triangle is always skipped
  (`SingleLeftoverIndexSkipped`). A leftover pair gives one corner at the
  origin, and the triangle is written when the two real corners are in range
  and span enough area with it (`LeftoverPairDecidedByArea`).
- The length test `|cross| < 0.0001` is stated on squares
  (`Dot(c, c) < 0.00000001`), which is equivalent for non-negative lengths.

Behaviour of the code worth knowing:

- The pitch radius comes from the raw tooth count, not the clamped one.
  Below −2 teeth, with a positive outer diameter, the derived pitch radius
  exceeds the derived outer radius (`DerivedPitchOutsideOuter`). After the
  clamps it still does when the diameter is large enough: −3 teeth at 20 mm
  give 30 against 10 (`NegativeToothCountPitchOutsideOuter`).
- The module of the reset values is 25.58 / 26 = 0.9838…, displayed as
  "0.98" (`ResetParametersDerivation`).
- The bevel and helical passes divide by the raw form width, while the
  extrusion depth is the clamped width. A form width of 0.5 pulls the far
  face of a bevel onto the axis (`RawWidthCollapsesFarFace`).
- The crown merge sets an index when only one side has one. It sets none
  when the concatenation is empty.
- The non-indexed export has no area test. An all-zero triangle list is
  exported, while the same zeros behind an index are all skipped and
  rejected as empty (`CollapsedTriangleListIsExported`,
  `CollapsedIndexedMeshIsEmpty`).

## Model

| member | source | states |
|---|---|---|
| GearParams.CalculateGearParameters | script.js:127-140 | the outer diameter is toothCount + 2 modules; the pitch diameter is two modules inside it; the tooth depth is 2.25 modules; the three radii are half the diameters |
| GearParams.ClampToothCount | script.js:166 | the clamped count lies in [8, 100], equals the input inside that range and the nearer bound outside it |
| GearParams.ClampWidth | script.js:170 | the extrusion depth is at least 1 and equals the width when the width is at least 1 |
| GearParams.ClampExternal | script.js:166-170 | outer radius ≥ 5 and pitch radius ≥ 3, each the derived value or the floor; the inner radius is the derived value inside [0, pitch − 2], pitch − 2 above it and 0 below it; a hole exactly when the derived inner radius is positive |
| GearParams.ClampInternal | script.js:305-309 | same count, radii and width as the external clamps; the rim radius is at least pitch + 2 and at least outer + 5, and equals one of them |
| GearParams.CrownTopParams | script.js:249-255 | top count clamped to [8, 100]; top diameter ≥ 10 and between the bounds of max(10, min(0.95·outer, topDiameter)); top width ≥ 1 within max(1, min(0.8·clamped width, topWidth)); every other field copied |
| GearParams.CrownTopOffset | script.js:259-261 | the offset is topOffset percent of the clamped base width: 100 % is the full width, 0 % is 0 |
| GearParams.CrownTopClampsAreStable | script.js:249-257 | the spur clamps leave the top gear's count, width and outer diameter exactly as chosen |
| GearParams.PitchInsideOuter | script.js:128-136 | for a non-negative count the clamped pitch radius is below the outer radius, and the internal rim lies outside both |
| GearParams.DerivedPitchOutsideOuter | script.js:128-136 | below −2 teeth with a positive outer diameter, the derived pitch radius exceeds the derived outer radius |
| GearParams.NegativeToothCountPitchOutsideOuter | script.js:128-136 | with −3 teeth and 20 mm the pitch radius is 30 and the outer radius 10 |
| GearParams.ResetParametersDerivation | script.js:384-387 | the reset values give module 25.58/26 (0.98…), pitch diameter 23.61…, tooth depth 2.21…, and the clamps change nothing |
| Outline.AngleStepTurn | script.js:173 | the angle step is positive and toothCount steps make one full turn |
| Outline.ToothCentreStep | script.js:176 | the centre of tooth i + 1 is one step past that of tooth i, and never negative |
| Outline.ToothPointsSpan | script.js:176-187 | the four corners of a tooth run root1, tip1, tip2, root2 counter-clockwise, within 0.2 steps of the tooth centre |
| Outline.PushTooth | script.js:176-187 | one pass of the tooth loop appends exactly the four corners of tooth i |
| Outline.CreateSpurGear | script.js:165-201 | the builder's outline, optional hole and depth are those of SpurExtrusion |
| Outline.ToothOutlineLayout | script.js:175-188 | the outline has 4 points per tooth; point k is corner k mod 4 of tooth k div 4 |
| Outline.ToothOutlineBounds | script.js:175-188 | every angle lies between 0.2 steps before tooth 0 and 0.2 steps past the last tooth |
| Outline.ToothOutlineSorted | script.js:175-188 | the toothed outline runs strictly counter-clockwise |
| Outline.ToothOutlineShape | script.js:172-188 | 4·n points, roots on the pitch radius and tips on the outer radius, counter-clockwise, closing in less than a full turn |
| Outline.OutlineGap | script.js:173-182 | from the first root of tooth 0 to the last root of tooth n − 1 is less than a full turn |
| Outline.SpurOutlineShape | script.js:165-201 | the extruded spur outline has 4 points per clamped tooth, root and tip radii as clamped, counter-clockwise, depth the clamped width |
| Outline.TraceCircle | script.js:193-197 | the circle loop produces the circle path of `segments` points |
| Outline.CirclePathLayout | script.js:194-197 | point k of the circle path is at angle 2π·k/segments on the radius |
| Outline.CircleShape | script.js:194-197 | a full circle path has its points on the radius, from angle 0, counter-clockwise, within one turn |
| Outline.SpurHoleShape | script.js:192-199 | exactly one 32-point counter-clockwise hole at the clamped inner radius when the derived inner radius is positive, none otherwise; the hole is at least 2 inside the roots |
| Outline.TracePocket | script.js:327-333 | the inner loop produces the 8 samples of pocket i |
| Outline.CreateInternalGear | script.js:304-337 | the builder's rim, pockets and depth are those of InternalExtrusion |
| Outline.PocketPathLayout | script.js:329-333 | a pocket path has one point per sample, sample j being PocketPoint j |
| Outline.PocketsLayout | script.js:323-335 | hole i is the complete 8-point pocket of tooth i |
| Outline.PocketPointsOrdered | script.js:330 | a later pocket sample has a strictly larger angle |
| Outline.SweepStrict | script.js:330 | the sweep angle base − w/2 + (j/m)·w grows strictly with j |
| Outline.PocketSweep | script.js:329-333 | a pocket runs counter-clockwise from 0.2 steps before to 0.2 steps after its tooth centre |
| Outline.InternalShape | script.js:311-337 | a 64-point counter-clockwise rim at the clamped rim radius, one 8-point hole per clamped tooth, depth the clamped width |
| Outline.PocketRadiusBound | script.js:331 | while sin never exceeds 1, no pocket point lies beyond the outer radius |
| Outline.PocketsInsideRim | script.js:306-308 | with a non-negative count, every pocket point lies inside the outer radius, itself at least 5 inside the rim |
| Meshes.ZSlot | script.js:210 | the z slot of component k is in the same vertex, at most 2 further on |
| Meshes.VertexwiseEqual | script.js:209 | two equally long buffers of whole vertices that agree vertex by vertex are equal |
| Meshes.Translated | script.js:260-263 | the translation keeps the buffer length |
| Meshes.TranslatedInverse | script.js:260-263 | translating by −dz undoes translating by dz |
| Meshes.TranslatedCompose | script.js:260-263 | translations by a and then b are one translation by a + b |
| Meshes.TranslatedAxialRange | script.js:260-263 | a solid between z = 0 and depth lies between dz and dz + depth afterwards, x and y unchanged |
| VertexTransforms.Tapered | script.js:227-232 | the bevel keeps the buffer length |
| VertexTransforms.TaperedXY | script.js:228-231 | x and y of vertex t are multiplied by 1 − (z/width)·0.5 for the vertex's own z |
| VertexTransforms.TaperedAtVertex | script.js:228-231 | Tapered scales every vertex by the factor at its own height and keeps z |
| VertexTransforms.TaperedUnique | script.js:227-232 | any buffer that scales every vertex so is Tapered |
| VertexTransforms.TaperTarget | script.js:227-232 | a buffer with every vertex tapered exists |
| VertexTransforms.TaperInPlace | script.js:227-232 | the loop leaves the array equal to Tapered of its old contents |
| VertexTransforms.TaperVertex | script.js:227-232 | the bevel keeps z; x and y scale by the factor, and the squared distance from the axis by its square |
| VertexTransforms.TaperedKeepsZ | script.js:227-232 | the bevel writes no z component |
| VertexTransforms.TaperedInverse | script.js:229-231 | where no factor is 0, dividing back restores the spur buffer, so the pass loses nothing |
| VertexTransforms.TaperedInverseAtVertex | script.js:229-231 | dividing back restores vertex t |
| VertexTransforms.UntaperedAtVertex | script.js:229-231 | the reverse pass divides vertex t by the factor at its own height |
| VertexTransforms.TaperScaleBetweenFaces | script.js:229 | between z = 0 and z = width the factor falls from 1 to 0.5 |
| VertexTransforms.TaperedRadiusBetweenHalfAndFull | script.js:229-231 | between the faces, the bevel scales the distance from the axis by a factor between 0.5 and 1 |
| VertexTransforms.ScaledVertexRadius | script.js:229-231 | the same bound for any buffer holding the tapered vertex |
| VertexTransforms.RawWidthCollapsesFarFace | script.js:170 | a form width of 0.5 gives depth 1 but factor 0 on the far face, pulling its vertices onto the axis |
| VertexTransforms.Twisted | script.js:209-216 | the helical pass keeps the buffer length |
| VertexTransforms.TwistedX | script.js:214 | x of vertex t becomes x·cos a − y·sin a, with a = (z/width)·0.3 |
| VertexTransforms.TwistedY | script.js:215 | y of vertex t becomes x·sin a + y·cos a, from the old x and y |
| VertexTransforms.TwistedAtVertex | script.js:210-215 | Twisted rotates every vertex by the angle at its own height and keeps z |
| VertexTransforms.TwistedUnique | script.js:209-216 | any buffer that rotates every vertex so is Twisted |
| VertexTransforms.TwistTarget | script.js:209-216 | a buffer with every vertex rotated exists |
| VertexTransforms.TwistVertexInPlace | script.js:210-215 | one pass rotates components i and i + 1 by the angle from the old z, from the old x and y, and changes nothing else |
| VertexTransforms.TwistInPlace | script.js:209-216 | the loop leaves the array equal to Twisted of its old contents |
| VertexTransforms.TwistedInverse | script.js:211-215 | under cos² + sin² = 1, rotating back restores the spur buffer |
| VertexTransforms.RotatedBackVertex | script.js:214-215 | rotating vertex t forward and back restores it |
| VertexTransforms.UntwistedAtVertex | script.js:214-215 | the reverse pass rotates vertex t back by the angle at its own height |
| VertexTransforms.TwistVertex | script.js:211-215 | the helical pass keeps z and, under cos² + sin² = 1, the squared distance from the axis |
| VertexTransforms.TwistFixesBaseFace | script.js:211-215 | a vertex at z = 0 is not moved when cos 0 = 1 and sin 0 = 0 |
| CrownMerge.OffsetIndices | script.js:286 | each top index is shifted by the base vertex count, one for one |
| CrownMerge.SetAt | script.js:273-274 | `set` copies the source into the target from the offset on and leaves the rest of the target unchanged |
| CrownMerge.MergeGeometries | script.js:266-292 | the merge section produces Merged(base, top) |
| CrownMerge.MergedPositions | script.js:271-274 | the merged buffer is the base followed by the top, and whole vertices stay whole |
| CrownMerge.MergedIndexLayout | script.js:279-292 | base indices verbatim then top indices + base vertex count; no index exactly when both contribute nothing |
| CrownMerge.MergedIndexInRange | script.js:280-291 | when each side indexes only its own vertices, every merged index names a merged vertex |
| CrownMerge.MergedTopVertex | script.js:274-286 | top vertex v is merged vertex v + baseVertexCount, component for component |
| CrownMerge.MergedTranslatedTop | script.js:261-274 | the merge holds the base, then the top with z moved by the offset and x, y unchanged |
| CrownMerge.MergedAxialRange | script.js:261-274 | a base between 0 and its depth and a translated top give merged parts in [0, baseDepth] and [dz, dz + topDepth] |
| CrownMerge.StackedAxialRange | script.js:273-274 | the same range statement for any buffer that stacks the two parts |
| GearGeometry.GearTypeOf | script.js:149-162 | each of the four names selects its generator, and any other string selects the spur |
| GearGeometry.CreateHelicalGear | script.js:204-220 | the spur's buffer twisted in place, index kept: HelicalGear |
| GearGeometry.CreateBevelGear | script.js:222-236 | the spur's buffer tapered in place, index kept: BevelGear |
| GearGeometry.CreateCrownGear | script.js:238-302 | base spur plus translated top spur, merged: CrownGear |
| GearGeometry.CreateGearGeometryFor | script.js:148-163 | the switch returns the geometry of the generator the type selects |
| GearGeometry.BevelGearVertex | script.js:222-232 | the bevel gear keeps the spur's index, length and every z, and scales x, y of each vertex by the cone factor |
| GearGeometry.SpurVertexBetweenCaps | script.js:201 | every spur vertex lies between z = 0 and the clamped width |
| GearGeometry.BevelConeBetweenHalfAndFull | script.js:227-232 | for a form width of at least 1, every bevel vertex keeps between half and all of its distance from the axis |
| GearGeometry.HelicalGearVertex | script.js:204-216 | the helical gear keeps the spur's index, length, every z and, under cos² + sin² = 1, every distance from the axis |
| GearGeometry.CrownGearLayout | script.js:246-274 | the crown buffer is the base spur, then the top spur moved up by the offset |
| GearGeometry.CrownTopSitsOnBase | script.js:249-274 | at 100 % the base spans z in [0, w] and the top spans [w, w + tw], with 1 ≤ tw ≤ w |
| StlExport.SafeNormal | script.js:462-465 | a normal with a NaN component becomes (0, 0, 1); any other is kept; the result has no NaN |
| StlExport.Values | script.js:423-428 | a validated buffer gives one number per element |
| StlExport.ValidateVertices | script.js:423-428 | validation passes exactly when every element is finite |
| StlExport.FacetLines | script.js:467-473 | a facet record is seven lines |
| StlExport.RenderSnoc | script.js:467-473 | appending a facet appends its record text |
| StlExport.KeptPass | script.js:441-474 | one pass of a filtering loop adds the text and one to the count exactly when the candidate is kept |
| StlExport.TriangleSlots | script.js:435 | the number of loop passes, ⌈len/3⌉: every index position is covered, and the last pass starts inside the index |
| StlExport.Offset | script.js:436-438 | `indices[k] * 3` is a whole-vertex offset equal to three times the index when k is inside the index; past its end the offset is NaN (None) |
| StlExport.Component | script.js:445-447 | a buffer read inside the buffer gives that element; past its end, the default 0 |
| StlExport.VertexAt | script.js:445-447 | the three components at an offset inside the buffer; the origin at an offset past its end |
| StlExport.Corner | script.js:445-447 | a NaN offset gives the origin; an in-range offset the three components stored there |
| StlExport.OutOfRange | script.js:441 | a NaN offset never fails the range test; a whole-vertex offset that passes it has all three components in a whole-vertex buffer |
| StlExport.Degenerate | script.js:450-455 | two coincident corners always make a triangle degenerate |
| StlExport.DegenerateIsShortCross | script.js:450-455 | the squared test is the length test: degenerate exactly when the cross product's length is below 0.0001 |
| StlExport.SingleLeftoverIndexSkipped | script.js:435-455 | with one index left over, the last pass has two corners at the origin and is skipped |
| StlExport.LeftoverPairDecidedByArea | script.js:435-455 | with two indices left over, the third corner is the origin, and the last triangle is skipped exactly when a real offset is out of range or the area is too small |
| StlExport.ReadIndexedTriangle | script.js:436-465 | the two `continue` tests skip exactly the triangles Skipped names; otherwise the corners and guarded normal are those of IndexedFacet |
| StlExport.IndexedPass | script.js:435-475 | one pass keeps the text and the count equal to those of the kept facets so far |
| StlExport.AppendIndexed | script.js:433-475 | the indexed loop appends the kept facets' text, and the count is their number |
| StlExport.ListFacetAt | script.js:481-492 | floats 9t to 9t + 8 give the corners of facet t, with the guarded normal |
| StlExport.ListStep | script.js:494-501 | the text of t + 1 list facets is that of t facets plus facet t's record |
| StlExport.ListPass | script.js:478-502 | one pass appends the record of facet t |
| StlExport.AppendList | script.js:476-503 | the non-indexed loop writes ⌊len/9⌋ facets and counts them |
| StlExport.ListFacetsLayout | script.js:478-492 | list facet t has its corners at floats 9t to 9t + 8 and the guarded normal, with no area test |
| StlExport.ExportStl | script.js:419-510 | the export is Serialize: invalid-geometry failure, empty failure, or framed text with its count |
| StlExport.KeptSlotsExact | script.js:435-455 | a filtering loop keeps exactly the accepted candidates, in increasing order |
| StlExport.KeptLayout | script.js:435-474 | facet j written is the facet of the j-th kept candidate |
| StlExport.KeptNone | script.js:435-455 | a loop that keeps nothing writes nothing |
| StlExport.IndexedFacetsExact | script.js:435-475 | the indexed export writes, in index order, the facet of every triangle not skipped and of no other |
| StlExport.IndexedFacetsWellFormed | script.js:441-465 | every facet written through an index has a NaN-free normal and an edge cross product of length at least 0.0001 |
| StlExport.ExportOutcome | script.js:423-510 | invalid-geometry failure iff a non-finite element; empty failure iff no facet survives; otherwise text starting "solid gear" and ending "endsolid gear" with a positive count equal to the facets written |
| StlExport.ZeroCorner | script.js:445-447 | in an all-zero buffer every corner is the origin, in range or not |
| StlExport.ZeroTriangleSkipped | script.js:450-455 | in an all-zero buffer every indexed triangle has zero area and is skipped |
| StlExport.CollapsedIndexedMeshIsEmpty | script.js:433-510 | an all-zero indexed buffer ends in the empty-geometry failure |
| StlExport.CollapsedTriangleListIsExported | script.js:476-510 | the same zeros without an index export ⌊len/9⌋ facets |

## Left out

- The three.js scene, camera, renderer, lights, controls, resize handler and
  animation loop are rendering glue with nothing to state.
- The DOM is left out: event wiring, debounce timers, `getParameters`,
  `updateCalculatedValues`, the form writes of `resetParameters`, and the
  `toFixed(2)` display strings of `calculateGearParameters`. The form values
  are the fields of `Params`, and the reset values appear only in
  `ResetParametersDerivation`.
- `parseInt`/`parseFloat` of empty or non-numeric fields (NaN form values)
  are not modelled: every form value is a number.
- `ExtrudeGeometry`'s triangulation is left out. Its output is the
  `Library.extrude` parameter, constrained only by `Extrudes` and
  `ExtrudesBetweenCaps`.
- `computeVertexNormals` and `dispose()` change nothing the kernel reads.
  `center()`, `clone()` and the export `scale()` move or copy the buffer
  after the generators have built it. The export is modelled on whatever
  buffer it is given, so these steps are not.
- Math.cos and Math.sin are the `Trig` parameter. Properties that need
  trigonometry require cos² + sin² = 1 (`Pythagorean`), or sin ≤ 1, as
  hypotheses.
- Vector normalisation (a square root) and `toFixed(6)` are function
  parameters of the export.
- Float32 storage and double rounding are not modelled: every number is an
  exact real.
- The export's guards for a missing gear and a missing position attribute,
  the Blob download, `console.log`, the alerts' wording and the `try/catch`
  are I/O.
- GearParams.CalculateGearParameters: requires a raw tooth count other than
  −2. There the source divides the outer diameter by zero. For a positive
  diameter the module is +Infinity and the pitch diameter −Infinity. The
  clamps absorb that, since `Math.max(3, -Infinity)` is 3, so an ordinary
  gear is built. For a negative diameter the module is −Infinity and the
  pitch diameter +Infinity. `Math.max(3, Infinity)` stays infinite, so the
  root points are infinite and no ordinary gear comes out. A zero diameter
  gives NaN. The model's reals cannot hold an infinity or NaN, so this count
  is excluded.
- GearGeometry.CreateHelicalGear: requires a form width other than 0. The
  source divides by 0 there and writes NaN into the buffer, which the export
  then rejects.
- GearGeometry.CreateBevelGear: requires a form width other than 0, for the
  same reason.
- VertexTransforms.TwistInPlace: requires a width other than 0, for the same
  reason.
- VertexTransforms.TaperInPlace: requires a width other than 0, for the same
  reason.
- GearGeometry.CreateGearGeometryFor: requires a form width other than 0
  for the helical and bevel types, for the same reason.
- GearGeometry.BevelConeBetweenHalfAndFull: stated only for a form width of
  at least 1, where the raw width equals the extrusion depth.
- Outline.PocketsInsideRim: stated for a non-negative raw tooth count and a
  sine never above 1.
- GearGeometry.HelicalGearVertex: keeps the distance from the axis only for
  trigonometry with cos² + sin² = 1. The float results of Math.cos and
  Math.sin satisfy this only approximately.
