/** The far/near velocity utility (setFarVelocityField.C): every cell whose
    centre lies farther than minDist from the nearest face centre of the
    wall patch gets the far-field velocity, every other cell the near-field
    one.

    The mesh is abstracted to the cell centres and the face centres of the
    wall patch; the vector magnitude is a parameter `mag`, so nothing below
    depends on how distances are measured.  The time loop, the mesh update
    and the writing of the field are not modelled. */
module SetFarVelocityField {
  import opened Vectors
  import opened FoamConstants

  /** The starting value of the running minimum, 1 / VSMALL. */
  const Sentinel: real := 1.0 / VSmall

  /** The distance from c to face centre j. */
  function FaceDist(c: Vec, cf: seq<Vec>, mag: Vec -> real, j: nat): real
    requires j < |cf|
  {
    mag(Sub(c, cf[j]))
  }

  /** The running minimum after the first n faces, with the strict test of
      the loop: a later face replaces it only when strictly nearer. */
  function MinDistUpTo(c: Vec, cf: seq<Vec>, mag: Vec -> real, n: nat): real
    requires n <= |cf|
  {
    if n == 0 then Sentinel
    else
      var d := MinDistUpTo(c, cf, mag, n - 1);
      if FaceDist(c, cf, mag, n - 1) < d then FaceDist(c, cf, mag, n - 1) else d
  }

  /** The running minimum is a lower bound of the sentinel and of every face
      seen, and is either the sentinel or the distance of the first face
      that attains it; every earlier face is strictly farther. */
  lemma {:induction false} MinDistUpToIsFirstMinimum(c: Vec, cf: seq<Vec>, mag: Vec -> real, n: nat)
    requires n <= |cf|
    ensures MinDistUpTo(c, cf, mag, n) <= Sentinel
    ensures forall j :: 0 <= j < n ==> MinDistUpTo(c, cf, mag, n) <= FaceDist(c, cf, mag, j)
    ensures MinDistUpTo(c, cf, mag, n) == Sentinel ||
            exists j :: 0 <= j < n && MinDistUpTo(c, cf, mag, n) == FaceDist(c, cf, mag, j) &&
              forall i :: 0 <= i < j ==> FaceDist(c, cf, mag, i) > MinDistUpTo(c, cf, mag, n)
  {
    if n > 0 {
      MinDistUpToIsFirstMinimum(c, cf, mag, n - 1);
      var d := MinDistUpTo(c, cf, mag, n - 1);
      if FaceDist(c, cf, mag, n - 1) < d {
        assert forall i :: 0 <= i < n - 1 ==> FaceDist(c, cf, mag, i) > FaceDist(c, cf, mag, n - 1);
      }
    }
  }

  /** With no faces the result is the sentinel; when some face is nearer
      than the sentinel, the result is the distance of a face. */
  lemma MinDistCases(c: Vec, cf: seq<Vec>, mag: Vec -> real)
    ensures |cf| == 0 ==> MinDistUpTo(c, cf, mag, |cf|) == Sentinel
    ensures (exists j :: 0 <= j < |cf| && FaceDist(c, cf, mag, j) < Sentinel) ==>
            exists j :: 0 <= j < |cf| && MinDistUpTo(c, cf, mag, |cf|) == FaceDist(c, cf, mag, j)
  {
    MinDistUpToIsFirstMinimum(c, cf, mag, |cf|);
  }

  /** minPatchDist: the distance from c to the nearest face centre. */
  method MinPatchDist(c: Vec, cf: seq<Vec>, mag: Vec -> real) returns (dist: real)
    ensures dist == MinDistUpTo(c, cf, mag, |cf|)
    ensures dist <= Sentinel && forall j :: 0 <= j < |cf| ==> dist <= FaceDist(c, cf, mag, j)
  {
    dist := Sentinel;
    for i := 0 to |cf|
      invariant dist == MinDistUpTo(c, cf, mag, i)
    {
      var cDist := mag(Sub(c, cf[i]));
      if cDist < dist {
        dist := cDist;
      }
    }
    MinDistUpToIsFirstMinimum(c, cf, mag, |cf|);
  }

  /** The velocity the loop gives a cell centred at c. */
  function CellVelocity(c: Vec, cf: seq<Vec>, mag: Vec -> real, minDist: real, uFar: Vec, uNear: Vec): Vec
  {
    if MinDistUpTo(c, cf, mag, |cf|) > minDist then uFar else uNear
  }

  /** A cell is far exactly when every wall face centre, and the sentinel,
      lies beyond minDist. */
  lemma FarExactlyWhenAllFacesBeyond(c: Vec, cf: seq<Vec>, mag: Vec -> real, minDist: real)
    ensures MinDistUpTo(c, cf, mag, |cf|) > minDist <==>
            Sentinel > minDist && forall j :: 0 <= j < |cf| ==> FaceDist(c, cf, mag, j) > minDist
  {
    MinDistUpToIsFirstMinimum(c, cf, mag, |cf|);
  }

  /** The cell loop of the utility: each cell gets Ufar or Unear. */
  method SetFarVelocity(U: array<Vec>, cellCentres: seq<Vec>, cf: seq<Vec>, mag: Vec -> real,
                        minDist: real, uFar: Vec, uNear: Vec)
    requires U.Length == |cellCentres|
    modifies U
    ensures forall i :: 0 <= i < U.Length ==> U[i] == CellVelocity(cellCentres[i], cf, mag, minDist, uFar, uNear)
  {
    for i := 0 to |cellCentres|
      invariant forall m :: 0 <= m < i ==> U[m] == CellVelocity(cellCentres[m], cf, mag, minDist, uFar, uNear)
    {
      var dist := MinPatchDist(cellCentres[i], cf, mag);
      if dist > minDist {
        U[i] := uFar;
      } else {
        U[i] := uNear;
      }
    }
  }
}
