/** The masking and control-motion part of the RBF mesh morpher
    (RBFMeshMorph.C).  The morpher moves the mesh points by interpolating
    the displacements of a few control points; a motion mask keeps the
    points of every static boundary patch in place, and the optimiser's
    normalised control parameters are mapped affinely into the motion
    bounds of each control point.

    The mesh is abstracted to its list of boundary patches and its points;
    the reading of the motion dictionary and the RBF interpolation itself are
    not modelled (the interpolated displacement is an input of MovedPoints). */
module RbfMeshMorph {
  import opened Wrappers
  import opened Vectors

  /** A boundary patch: its name, whether its type is empty or it is
      coupled, and the indices of the mesh points it covers. */
  datatype Patch = Patch(name: string, isEmpty: bool, coupled: bool, meshPoints: seq<nat>)

  /** The range of motion of one control point, from first to second. */
  datatype Bound = Bound(first: Vec, second: Vec)

  /** The fatal errors of the morpher. */
  datatype MorphError =
    | InconsistentSizes(controlPoints: nat, motionBounds: nat)
    | PatchNotFound(name: string)
    | IncorrectParameterSize(given: nat, expected: nat)

  /** The index of the first patch with the given name, or -1 when there is
      none (polyBoundaryMesh::findPatchID). */
  function FindPatchID(patches: seq<Patch>, name: string): (r: int)
    ensures -1 <= r < |patches|
    ensures r >= 0 ==> patches[r].name == name && forall j :: 0 <= j < r ==> patches[j].name != name
    ensures r == -1 <==> forall j :: 0 <= j < |patches| ==> patches[j].name != name
  {
    if |patches| == 0 then -1
    else if patches[0].name == name then 0
    else
      var r := FindPatchID(patches[1..], name);
      if r < 0 then -1 else r + 1
  }

  /** Every moving-patch name names a boundary patch. */
  predicate AllFound(moving: seq<string>, patches: seq<Patch>)
  {
    forall i :: 0 <= i < |moving| ==> FindPatchID(patches, moving[i]) >= 0
  }

  /** moving[i] is the first moving-patch name that names no patch. */
  predicate FirstMissingAt(moving: seq<string>, patches: seq<Patch>, i: int)
  {
    0 <= i < |moving| && FindPatchID(patches, moving[i]) < 0 &&
    forall j :: 0 <= j < i ==> FindPatchID(patches, moving[j]) >= 0
  }

  /** A patch moves with the interpolation if it is listed as moving, or it
      is empty or coupled. */
  predicate IsMoving(p: Patch, moving: seq<string>)
  {
    p.name in moving || p.isEmpty || p.coupled
  }

  /** Every point index of every patch is a point of the mesh. */
  predicate PointsInRange(patches: seq<Patch>, nPoints: nat)
  {
    forall p, i :: 0 <= p < |patches| && 0 <= i < |patches[p].meshPoints| ==> patches[p].meshPoints[i] < nPoints
  }

  /** The first n entries of a point list, as a set. */
  function PointsOf(pts: seq<nat>, n: nat): set<nat>
    requires n <= |pts|
  {
    if n == 0 then {} else PointsOf(pts, n - 1) + {pts[n - 1]}
  }

  /** The points of the static patches among the first n patches. */
  function StaticPoints(patches: seq<Patch>, moving: seq<string>, n: nat): set<nat>
    requires n <= |patches|
  {
    if n == 0 then {}
    else
      StaticPoints(patches, moving, n - 1) +
      (if IsMoving(patches[n - 1], moving) then {} else PointsOf(patches[n - 1].meshPoints, |patches[n - 1].meshPoints|))
  }

  /** The number of marks made on the first n patches: the length of the point
      list of every static patch, a point shared by two patches counted twice. */
  function MarkedCount(patches: seq<Patch>, moving: seq<string>, n: nat): nat
    requires n <= |patches|
  {
    if n == 0 then 0
    else MarkedCount(patches, moving, n - 1) + (if IsMoving(patches[n - 1], moving) then 0 else |patches[n - 1].meshPoints|)
  }

  lemma {:induction false} PointsOfMeans(pts: seq<nat>, n: nat, q: nat)
    requires n <= |pts|
    ensures q in PointsOf(pts, n) <==> q in pts[..n]
    ensures |PointsOf(pts, n)| <= n
  {
    if n > 0 {
      PointsOfMeans(pts, n - 1, q);
      assert pts[..n] == pts[..n - 1] + [pts[n - 1]];
    }
  }

  /** A point is marked exactly when some static patch lists it. */
  lemma {:induction false} StaticPointsMeans(patches: seq<Patch>, moving: seq<string>, n: nat, q: nat)
    requires n <= |patches|
    ensures q in StaticPoints(patches, moving, n) <==>
            exists p :: 0 <= p < n && !IsMoving(patches[p], moving) && q in patches[p].meshPoints
  {
    if n > 0 {
      StaticPointsMeans(patches, moving, n - 1, q);
      var pts := patches[n - 1].meshPoints;
      PointsOfMeans(pts, |pts|, q);
      assert pts[..|pts|] == pts;
    }
  }

  /** The count never falls below the number of distinct marked points. */
  lemma {:induction false} MarkedCountBoundsStaticPoints(patches: seq<Patch>, moving: seq<string>, n: nat)
    requires n <= |patches|
    ensures |StaticPoints(patches, moving, n)| <= MarkedCount(patches, moving, n)
  {
    if n > 0 {
      MarkedCountBoundsStaticPoints(patches, moving, n - 1);
      var pts := patches[n - 1].meshPoints;
      PointsOfMeans(pts, |pts|, 0);
    }
  }

  // ---------------------------------------------------------------------
  // Mapping a control parameter into its bounds.

  /** The scalar overload: one parameter t for all three components. */
  function ScalarLerp(b: Bound, t: real): Vec
  {
    Add(b.first, Scale(t, Sub(b.second, b.first)))
  }

  /** The vector overload: one parameter per component. */
  function VectorLerp(b: Bound, t: Vec): Vec
  {
    Add(b.first, CmptMultiply(t, Sub(b.second, b.first)))
  }

  /** Parameter 0 gives the first bound, 1 the second. */
  lemma ScalarLerpEndpoints(b: Bound)
    ensures ScalarLerp(b, 0.0) == b.first && ScalarLerp(b, 1.0) == b.second
  {}

  lemma VectorLerpEndpoints(b: Bound)
    ensures VectorLerp(b, Zero) == b.first && VectorLerp(b, Vec(1.0, 1.0, 1.0)) == b.second
  {}

  /** The vector overload with equal components is the scalar overload. */
  lemma VectorLerpOfUniform(b: Bound, t: real)
    ensures VectorLerp(b, Vec(t, t, t)) == ScalarLerp(b, t)
  {}

  predicate Between(v: real, lo: real, hi: real)
  {
    (lo <= v <= hi) || (hi <= v <= lo)
  }

  lemma LerpBetween(lo: real, hi: real, t: real)
    requires 0.0 <= t <= 1.0
    ensures Between(lo + t * (hi - lo), lo, hi)
  {
    if lo <= hi {
      assert t * (hi - lo) <= 1.0 * (hi - lo);
    } else {
      assert t * (lo - hi) <= 1.0 * (lo - hi);
    }
  }

  /** A parameter in [0, 1] keeps every component between the two bounds. */
  lemma VectorLerpInBounds(b: Bound, t: Vec)
    requires 0.0 <= t.x <= 1.0 && 0.0 <= t.y <= 1.0 && 0.0 <= t.z <= 1.0
    ensures Between(VectorLerp(b, t).x, b.first.x, b.second.x)
    ensures Between(VectorLerp(b, t).y, b.first.y, b.second.y)
    ensures Between(VectorLerp(b, t).z, b.first.z, b.second.z)
  {
    LerpBetween(b.first.x, b.second.x, t.x);
    LerpBetween(b.first.y, b.second.y, t.y);
    LerpBetween(b.first.z, b.second.z, t.z);
  }

  /** In every component where the two bounds differ, the parameter can be
      read back from the motion: the map is one-to-one. */
  lemma ScalarLerpInvertible(b: Bound, t: real)
    ensures b.first.x != b.second.x ==> (ScalarLerp(b, t).x - b.first.x) / (b.second.x - b.first.x) == t
    ensures b.first.y != b.second.y ==> (ScalarLerp(b, t).y - b.first.y) / (b.second.y - b.first.y) == t
    ensures b.first.z != b.second.z ==> (ScalarLerp(b, t).z - b.first.z) / (b.second.z - b.first.z) == t
  {
    var ex, ey, ez := b.second.x - b.first.x, b.second.y - b.first.y, b.second.z - b.first.z;
    assert ScalarLerp(b, t).x - b.first.x == t * ex;
    assert ScalarLerp(b, t).y - b.first.y == t * ey;
    assert ScalarLerp(b, t).z - b.first.z == t * ez;
  }

  /** The new point positions: each reference point plus its mask times the
      interpolated displacement. */
  function MovedPoints(reference: seq<Vec>, mask: seq<real>, displacement: seq<Vec>): (r: seq<Vec>)
    requires |mask| == |reference| && |displacement| == |reference|
    ensures |r| == |reference|
    ensures forall p :: 0 <= p < |r| && mask[p] == 0.0 ==> r[p] == reference[p]
    ensures forall p :: 0 <= p < |r| && mask[p] == 1.0 ==> r[p] == Add(reference[p], displacement[p])
  {
    seq(|reference|, p requires 0 <= p < |reference| => Add(reference[p], Scale(mask[p], displacement[p])))
  }

  class MeshMorph {
    const patches: seq<Patch>
    const movingPatches: seq<string>
    const controlPoints: seq<Vec>
    const motionBounds: seq<Bound>
    const referencePoints: seq<Vec>
    const motionMask: array<real>

    predicate Valid()
      reads this
    {
      motionMask.Length == |referencePoints| && PointsInRange(patches, |referencePoints|)
    }

    /** The member initialisation: the mask starts at 1 for every point. */
    constructor (patches: seq<Patch>, movingPatches: seq<string>, controlPoints: seq<Vec>,
                 motionBounds: seq<Bound>, points: seq<Vec>)
      requires PointsInRange(patches, |points|)
      ensures Valid() && fresh(motionMask)
      ensures this.patches == patches && this.movingPatches == movingPatches
      ensures this.controlPoints == controlPoints && this.motionBounds == motionBounds
      ensures referencePoints == points
      ensures forall q :: 0 <= q < motionMask.Length ==> motionMask[q] == 1.0
    {
      this.patches := patches;
      this.movingPatches := movingPatches;
      this.controlPoints := controlPoints;
      this.motionBounds := motionBounds;
      referencePoints := points;
      motionMask := new real[|points|](_ => 1.0);
    }

    /** Check the moving-patch names, then zero the mask on every point of
        every static patch; on success the result is the number of marks. */
    method MakeControlMasks() returns (r: Result<nat, MorphError>)
      requires Valid()
      modifies motionMask
      ensures r.Failure? <==> !AllFound(movingPatches, patches)
      ensures r.Failure? ==>
                motionMask[..] == old(motionMask[..]) &&
                exists i :: FirstMissingAt(movingPatches, patches, i) && r.error == PatchNotFound(movingPatches[i])
      ensures r.Success? ==> r.value == MarkedCount(patches, movingPatches, |patches|)
      ensures r.Success? ==> forall q :: 0 <= q < motionMask.Length ==>
                motionMask[q] == if q in StaticPoints(patches, movingPatches, |patches|) then 0.0 else old(motionMask[q])
    {
      for patchI := 0 to |movingPatches|
        invariant forall j :: 0 <= j < patchI ==> FindPatchID(patches, movingPatches[j]) >= 0
      {
        var patchIndex := FindPatchID(patches, movingPatches[patchI]);
        if patchIndex < 0 {
          assert FirstMissingAt(movingPatches, patches, patchI);
          return Failure(PatchNotFound(movingPatches[patchI]));
        }
      }
      var nMarkedPoints := 0;
      for patchI := 0 to |patches|
        modifies motionMask
        invariant nMarkedPoints == MarkedCount(patches, movingPatches, patchI)
        invariant forall q :: 0 <= q < motionMask.Length ==>
                    motionMask[q] == if q in StaticPoints(patches, movingPatches, patchI) then 0.0 else old(motionMask[q])
      {
        var patchName := patches[patchI].name;
        var moving := false;
        for mpI := 0 to |movingPatches|
          invariant !moving && forall m :: 0 <= m < mpI ==> movingPatches[m] != patchName
        {
          if movingPatches[mpI] == patchName {
            moving := true;
            break;
          }
        }
        assert moving <==> patchName in movingPatches;
        if patches[patchI].isEmpty || patches[patchI].coupled {
          moving := true;
        }
        if !moving {
          var mp := patches[patchI].meshPoints;
          for i := 0 to |mp|
            modifies motionMask
            invariant nMarkedPoints == MarkedCount(patches, movingPatches, patchI) + i
            invariant forall q :: 0 <= q < motionMask.Length ==>
                        motionMask[q] == if q in StaticPoints(patches, movingPatches, patchI) + PointsOf(mp, i) then 0.0 else old(motionMask[q])
          {
            motionMask[mp[i]] := 0.0;
            nMarkedPoints := nMarkedPoints + 1;
          }
        }
      }
      return Success(nMarkedPoints);
    }

    /** The morpher as its constructor builds it: size check, then masks.
        The mask ends at 0 on the static points and 1 on all others. */
    static method Create(patches: seq<Patch>, movingPatches: seq<string>, controlPoints: seq<Vec>,
                         motionBounds: seq<Bound>, points: seq<Vec>) returns (r: Result<MeshMorph, MorphError>)
      requires PointsInRange(patches, |points|)
      ensures r.Success? <==> |controlPoints| == |motionBounds| && AllFound(movingPatches, patches)
      ensures |controlPoints| != |motionBounds| ==> r == Failure(InconsistentSizes(|controlPoints|, |motionBounds|))
      ensures |controlPoints| == |motionBounds| && !AllFound(movingPatches, patches) ==>
                exists i :: FirstMissingAt(movingPatches, patches, i) && r == Failure(PatchNotFound(movingPatches[i]))
      ensures r.Success? ==> fresh(r.value) && fresh(r.value.motionMask) && r.value.Valid()
      ensures r.Success? ==>
                r.value.patches == patches && r.value.movingPatches == movingPatches &&
                r.value.controlPoints == controlPoints && r.value.motionBounds == motionBounds &&
                r.value.referencePoints == points
      ensures r.Success? ==> forall q :: 0 <= q < |points| ==>
                r.value.motionMask[q] == if q in StaticPoints(patches, movingPatches, |patches|) then 0.0 else 1.0
    {
      var m := new MeshMorph(patches, movingPatches, controlPoints, motionBounds, points);
      if |controlPoints| != |motionBounds| {
        return Failure(InconsistentSizes(|controlPoints|, |motionBounds|));
      }
      var masks := m.MakeControlMasks();
      if masks.Failure? {
        return Failure(masks.error);
      }
      return Success(m);
    }

    /** The control motion for one scalar parameter per control point. */
    method ScalarMotion(cpm: seq<real>) returns (r: Result<seq<Vec>, MorphError>)
      ensures r.Failure? <==> |cpm| != |motionBounds|
      ensures r.Failure? ==> r.error == IncorrectParameterSize(|cpm|, |motionBounds|)
      ensures r.Success? ==>
                |r.value| == |motionBounds| &&
                forall i :: 0 <= i < |motionBounds| ==> r.value[i] == ScalarLerp(motionBounds[i], cpm[i])
    {
      if |cpm| != |motionBounds| {
        return Failure(IncorrectParameterSize(|cpm|, |motionBounds|));
      }
      var controlMotion := new Vec[|motionBounds|](_ => Zero);
      for pointI := 0 to controlMotion.Length
        invariant forall i :: 0 <= i < pointI ==> controlMotion[i] == ScalarLerp(motionBounds[i], cpm[i])
      {
        var b := motionBounds[pointI];
        controlMotion[pointI] := Add(b.first, Scale(cpm[pointI], Sub(b.second, b.first)));
      }
      return Success(controlMotion[..]);
    }

    /** The control motion for one parameter vector per control point. */
    method VectorMotion(cpm: seq<Vec>) returns (r: Result<seq<Vec>, MorphError>)
      ensures r.Failure? <==> |cpm| != |motionBounds|
      ensures r.Failure? ==> r.error == IncorrectParameterSize(|cpm|, |motionBounds|)
      ensures r.Success? ==>
                |r.value| == |motionBounds| &&
                forall i :: 0 <= i < |motionBounds| ==> r.value[i] == VectorLerp(motionBounds[i], cpm[i])
    {
      if |cpm| != |motionBounds| {
        return Failure(IncorrectParameterSize(|cpm|, |motionBounds|));
      }
      var controlMotion := new Vec[|motionBounds|](_ => Zero);
      for pointI := 0 to controlMotion.Length
        invariant forall i :: 0 <= i < pointI ==> controlMotion[i] == VectorLerp(motionBounds[i], cpm[i])
      {
        var b := motionBounds[pointI];
        controlMotion[pointI] := Add(b.first, CmptMultiply(cpm[pointI], Sub(b.second, b.first)));
      }
      return Success(controlMotion[..]);
    }
  }
}
