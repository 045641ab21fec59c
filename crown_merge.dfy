/**
 * The merge at the end of createCrownGear: the base and the translated top
 * gear are concatenated into one BufferGeometry, with no boolean union.
 */
module CrownMerge {
  import opened Meshes

  /** topIndices.map(index => index + baseVertexCount). */
  function OffsetIndices(ix: seq<nat>, offset: nat): (r: seq<nat>)
    ensures |r| == |ix|
  {
    seq(|ix|, k requires 0 <= k < |ix| => ix[k] + offset)
  }

  /** The index list built from whichever sides have an index; setIndex only when it is non-empty. */
  function MergedIndex(base: Option<seq<nat>>, top: Option<seq<nat>>, baseVertexCount: nat): Option<seq<nat>> {
    var fromBase := if base.Some? then base.value else [];
    var fromTop := if top.Some? then OffsetIndices(top.value, baseVertexCount) else [];
    var indices := fromBase + fromTop;
    if |indices| > 0 then Some(indices) else None
  }

  /** The merged geometry: base positions then top positions, and the merged index. */
  function Merged(base: Mesh, top: Mesh): Mesh
    requires WholeVertices(base.positions)
  {
    Mesh(base.positions + top.positions,
         MergedIndex(base.index, top.index, |base.positions| / 3))
  }

  /** TypedArray.prototype.set: src copied into target from offset on, the rest untouched. */
  method SetAt(target: array<real>, src: seq<real>, offset: nat)
    requires offset + |src| <= target.Length
    modifies target
    ensures target[..] == old(target[..offset]) + src + old(target[offset + |src|..])
  {
    ghost var before := target[..];
    var k := 0;
    while k < |src|
      invariant 0 <= k <= |src|
      invariant forall j :: 0 <= j < k ==> target[offset + j] == src[j]
      invariant forall j :: 0 <= j < target.Length && !(offset <= j < offset + k) ==> target[j] == before[j]
    {
      target[offset + k] := src[k];
      k := k + 1;
    }
    forall j | 0 <= j < target.Length
      ensures target[j] == (before[..offset] + src + before[offset + |src|..])[j]
    {
      if offset <= j < offset + |src| {
        assert target[offset + (j - offset)] == src[j - offset];
      }
    }
  }

  /**
   * The merge section of createCrownGear: a fresh position buffer of the total
   * length filled by two set calls, then the index list by concatenation.
   */
  method MergeGeometries(base: Mesh, top: Mesh) returns (merged: Mesh)
    requires WholeVertices(base.positions)
    ensures merged == Merged(base, top)
  {
    var basePositions := base.positions;
    var topPositions := top.positions;
    var totalVertices := |basePositions| + |topPositions|;
    var positions := new real[totalVertices];
    SetAt(positions, basePositions, 0);
    assert positions[..|basePositions|] == basePositions;
    SetAt(positions, topPositions, |basePositions|);
    assert positions[..] == basePositions + topPositions;

    var indices: seq<nat> := [];
    if base.index.Some? {
      indices := indices + base.index.value;
    }
    if top.index.Some? {
      var topIndices := top.index.value;
      var baseVertexCount := |basePositions| / 3;
      var offsetTopIndices := seq(|topIndices|, j requires 0 <= j < |topIndices| => topIndices[j] + baseVertexCount);
      assert offsetTopIndices == OffsetIndices(topIndices, baseVertexCount);
      indices := indices + offsetTopIndices;
    }
    assert indices == (if base.index.Some? then base.index.value else [])
                    + (if top.index.Some? then OffsetIndices(top.index.value, |basePositions| / 3) else []);
    var index: Option<seq<nat>> := None;
    if |indices| > 0 {
      index := Some(indices);
    }
    merged := Mesh(positions[..], index);
  }

  /** The merged positions split back into the base and the top, unchanged. */
  lemma MergedPositions(base: Mesh, top: Mesh)
    requires WholeVertices(base.positions)
    ensures var m := Merged(base, top).positions;
            && |m| == |base.positions| + |top.positions|
            && m[..|base.positions|] == base.positions
            && m[|base.positions|..] == top.positions
            && (WholeVertices(top.positions) ==> WholeVertices(m))
  {
    var b, t := base.positions, top.positions;
    var m := Merged(base, top).positions;
    assert m == b + t;
    assert m[..|b|] == b;
    assert m[|b|..] == t;
    if WholeVertices(t) {
      assert |m| == 3 * (|b| / 3) + 3 * (|t| / 3);
    }
  }

  /**
   * The merged index: the base indices verbatim followed by every top index
   * shifted past the base vertices; no index at all when neither side has a
   * non-empty one.
   */
  lemma MergedIndexLayout(base: Mesh, top: Mesh)
    requires WholeVertices(base.positions)
    ensures var b := if base.index.Some? then base.index.value else [];
            var t := if top.index.Some? then top.index.value else [];
            var m := Merged(base, top).index;
            var nb := |base.positions| / 3;
            && (m.None? <==> |b| + |t| == 0)
            && (m.Some? ==>
                  && |m.value| == |b| + |t|
                  && m.value[..|b|] == b
                  && forall j :: 0 <= j < |t| ==> m.value[|b| + j] == t[j] + nb)
  {
  }

  /** When both sides only index their own vertices, every merged index names a merged vertex. */
  lemma MergedIndexInRange(base: Mesh, top: Mesh)
    requires WholeVertices(base.positions) && WholeVertices(top.positions)
    requires base.index.Some? ==> forall j :: 0 <= j < |base.index.value| ==> 3 * base.index.value[j] < |base.positions|
    requires top.index.Some? ==> forall j :: 0 <= j < |top.index.value| ==> 3 * top.index.value[j] < |top.positions|
    ensures var m := Merged(base, top);
            m.index.Some? ==> forall j :: 0 <= j < |m.index.value| ==> 3 * m.index.value[j] < |m.positions|
  {
    var m := Merged(base, top);
    var nb := |base.positions| / 3;
    var lb := if base.index.Some? then |base.index.value| else 0;
    assert 3 * nb == |base.positions|;
    MergedIndexLayout(base, top);
    if m.index.Some? {
      forall j | 0 <= j < |m.index.value| ensures 3 * m.index.value[j] < |m.positions| {
        if j < lb {
          assert m.index.value[j] == base.index.value[j];
        } else {
          var t := top.index.value[j - lb];
          assert m.index.value[j] == t + nb;
          assert 3 * (t + nb) == 3 * t + |base.positions|;
        }
      }
    }
  }

  /**
   * Top vertex v is merged vertex v + |base| / 3: the shifted top indices name
   * the same corners they named before the merge.
   */
  lemma MergedTopVertex(base: Mesh, top: Mesh, v: nat, c: nat)
    requires WholeVertices(base.positions)
    requires c < 3 && 3 * v + c < |top.positions|
    ensures var nb := |base.positions| / 3;
            3 * (v + nb) + c < |Merged(base, top).positions|
            && Merged(base, top).positions[3 * (v + nb) + c] == top.positions[3 * v + c]
  {
    var nb := |base.positions| / 3;
    assert 3 * (v + nb) + c == |base.positions| + (3 * v + c);
  }

  /**
   * Merging a top translated by dz: the base positions first, then each top
   * component, its z moved by dz and its x and y unchanged.
   */
  lemma MergedTranslatedTop(base: Mesh, top: seq<real>, index: Option<seq<nat>>, dz: real)
    requires WholeVertices(base.positions)
    ensures var b := base.positions;
            var m := Merged(base, Mesh(Translated(top, dz), index)).positions;
            && |m| == |b| + |top|
            && m[..|b|] == b
            && (forall k :: 0 <= k < |top| && k % 3 == 2 ==> m[|b| + k] == top[k] + dz)
            && (forall k :: 0 <= k < |top| && k % 3 != 2 ==> m[|b| + k] == top[k])
  {
    var b := base.positions;
    var shifted := Translated(top, dz);
    MergedPositions(base, Mesh(shifted, index));
    var m := Merged(base, Mesh(shifted, index)).positions;
    forall k | 0 <= k < |top| ensures m[|b| + k] == shifted[k] {
      assert m[|b| + k] == m[|b|..][k];
    }
  }

  /**
   * When the base lies between z = 0 and baseDepth and the top between z = 0
   * and topDepth, the merge with the top translated by dz has its base part
   * between 0 and baseDepth and its top part between dz and dz + topDepth.
   */
  lemma MergedAxialRange(base: Mesh, top: seq<real>, index: Option<seq<nat>>, dz: real, baseDepth: real, topDepth: real)
    requires WholeVertices(base.positions)
    requires forall k :: 0 <= k < |base.positions| && k % 3 == 2 ==> 0.0 <= base.positions[k] <= baseDepth
    requires forall k :: 0 <= k < |top| && k % 3 == 2 ==> 0.0 <= top[k] <= topDepth
    ensures var b := base.positions;
            var m := Merged(base, Mesh(Translated(top, dz), index)).positions;
            && (forall k :: 0 <= k < |b| && k % 3 == 2 ==> 0.0 <= m[k] <= baseDepth)
            && (forall k :: |b| <= k < |m| && k % 3 == 2 ==> dz <= m[k] <= dz + topDepth)
  {
    var b := base.positions;
    var m := Merged(base, Mesh(Translated(top, dz), index)).positions;
    MergedTranslatedTop(base, top, index, dz);
    StackedAxialRange(b, top, m, dz, baseDepth, topDepth);
  }

  /** The range argument above, for any m that stacks b and top shifted by dz. */
  lemma StackedAxialRange(b: seq<real>, top: seq<real>, m: seq<real>, dz: real, baseDepth: real, topDepth: real)
    requires WholeVertices(b) && |m| == |b| + |top| && m[..|b|] == b
    requires forall k :: 0 <= k < |top| && k % 3 == 2 ==> m[|b| + k] == top[k] + dz
    requires forall k :: 0 <= k < |b| && k % 3 == 2 ==> 0.0 <= b[k] <= baseDepth
    requires forall k :: 0 <= k < |top| && k % 3 == 2 ==> 0.0 <= top[k] <= topDepth
    ensures forall k :: 0 <= k < |b| && k % 3 == 2 ==> 0.0 <= m[k] <= baseDepth
    ensures forall k :: |b| <= k < |m| && k % 3 == 2 ==> dz <= m[k] <= dz + topDepth
  {
    forall k | 0 <= k < |b| && k % 3 == 2 ensures 0.0 <= m[k] <= baseDepth {
      assert m[k] == m[..|b|][k];
    }
    forall k | |b| <= k < |m| && k % 3 == 2 ensures dz <= m[k] <= dz + topDepth {
      var j := k - |b|;
      SlotAfterWholeVertices(|b|, j);
      assert m[|b| + j] == top[j] + dz;
    }
  }

  /** Past a whole number of vertices, component j keeps its slot within its vertex. */
  lemma SlotAfterWholeVertices(n: nat, j: nat)
    requires n % 3 == 0
    ensures (n + j) % 3 == j % 3
  {
    assert n == 3 * (n / 3);
  }
}
