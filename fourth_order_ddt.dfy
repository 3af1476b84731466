/** The history buffer of the fourth-order backward time derivative
    (fourthOrderDdt.C).  The object keeps four step sizes, and four
    snapshots of the field and of the cell volumes.  On each new time level
    it moves the snapshots down one slot, updates the step sizes, rebuilds
    from them the four distances and the four weights, and fills the
    diagonal and source of the time derivative matrix cell by cell.

    The loop of advanceInTime that updates the step sizes runs downward and
    overwrites each slot before the next copy reads it, so it does not shift
    them: the class runs that loop as written (OverwrittenSteps).  Beside it
    stands the intended shift (Shifted, as the snapshots are moved), which
    keeps the step sizes matched to the times of the stored levels
    (TracksLevels).  Only under that match are the distances the true
    distances back to the stored levels.

    The mesh and the run time are not modelled: the current time, the
    current deltaT, the field values psi and the cell volumes V are passed
    in by every call that reads them. */
module FourthOrderDdtScheme {
  import opened FourthOrderWeights

  /** Sum of a sequence of step sizes. */
  function Sum(s: seq<real>): real
  {
    if |s| == 0 then 0.0 else s[0] + Sum(s[1..])
  }

  lemma SumStep(s: seq<real>, i: nat)
    requires i < |s|
    ensures Sum(s[i..]) == s[i] + Sum(s[i + 1..])
  {
    assert s[i..][1..] == s[i + 1..];
  }

  predicate AllPositive(s: seq<real>)
  {
    forall i :: 0 <= i < |s| ==> s[i] > 0.0
  }

  /** Positive step sizes give positive, strictly decreasing distances, and so
      non-zero denominators for all four weights. */
  lemma SuffixSumsDecrease(dt: seq<real>)
    requires |dt| == 4 && AllPositive(dt)
    ensures Sum(dt[3..]) == dt[3] && Sum(dt[3..]) > 0.0
    ensures forall i :: 0 <= i < 3 ==> Sum(dt[i..]) == dt[i] + Sum(dt[i + 1..]) && Sum(dt[i..]) > Sum(dt[i + 1..])
    ensures Separated(Sum(dt[0..]), Sum(dt[1..]), Sum(dt[2..]), Sum(dt[3..]))
  {
    SumStep(dt, 0);
    SumStep(dt, 1);
    SumStep(dt, 2);
    SumStep(dt, 3);
    assert dt[4..] == [];
  }

  // ---------------------------------------------------------------------
  // What advanceInTime does to the step sizes, the time and a history of
  // snapshots, as functions of the state before the call.

  /** The current time after the guard: it only moves forward. */
  function AdvancedTime(cTime: real, time: real): (r: real)
    ensures r >= cTime && (r == cTime || r == time)
  {
    if time <= cTime then cTime else time
  }

  /** The step sizes as the downward copy loop of the code leaves them: each
      copy after the first reads a slot the one before it overwrote, so the first three
      all receive the previous last step, and the last one the new deltaT. */
  function OverwrittenSteps(dt: seq<real>, cTime: real, time: real, deltaT: real): (r: seq<real>)
    requires |dt| == 4
    ensures |r| == 4
  {
    if time <= cTime then dt else [dt[3], dt[3], dt[3], deltaT]
  }

  /** Four slots after an advance: unless time has not moved, the oldest is
      dropped and x appended.  This is what advanceInTime does to the
      snapshots, and the intended update of the step sizes. */
  function Shifted<T>(h: seq<T>, cTime: real, time: real, x: T): (r: seq<T>)
    requires |h| == 4
    ensures |r| == 4
  {
    if time <= cTime then h else h[1..] + [x]
  }

  /** The guard makes a second advance at the same time a no-op, for the
      step sizes as written and for the shifted slots. */
  lemma AdvanceIdempotent<T>(dt: seq<real>, h: seq<T>, cTime: real, time: real, deltaT: real, x: T)
    requires |dt| == 4 && |h| == 4
    ensures AdvancedTime(AdvancedTime(cTime, time), time) == AdvancedTime(cTime, time)
    ensures OverwrittenSteps(OverwrittenSteps(dt, cTime, time, deltaT), AdvancedTime(cTime, time), time, deltaT)
         == OverwrittenSteps(dt, cTime, time, deltaT)
    ensures Shifted(Shifted(h, cTime, time, x), AdvancedTime(cTime, time), time, x)
         == Shifted(h, cTime, time, x)
  {}

  /** Advancing keeps the step sizes positive when the new deltaT is, both
      as written and with the intended shift. */
  lemma AdvancePreservesPositive(dt: seq<real>, cTime: real, time: real, deltaT: real)
    requires |dt| == 4 && AllPositive(dt) && deltaT > 0.0
    ensures AllPositive(OverwrittenSteps(dt, cTime, time, deltaT))
    ensures AllPositive(Shifted(dt, cTime, time, deltaT))
  {}

  /** The step sizes as written agree with the shift exactly when the three
      newest old steps were already equal; otherwise the first three are
      all set to the previous last step. */
  lemma OverwriteShiftsOnlyEqualSteps(dt: seq<real>, cTime: real, time: real, deltaT: real)
    requires |dt| == 4 && time > cTime
    ensures OverwrittenSteps(dt, cTime, time, deltaT) == Shifted(dt, cTime, time, deltaT)
            <==> dt[1] == dt[3] && dt[2] == dt[3]
  {
    var w, s := OverwrittenSteps(dt, cTime, time, deltaT), Shifted(dt, cTime, time, deltaT);
    if w == s {
      assert w[0] == s[0] && w[1] == s[1];
    }
    if dt[1] == dt[3] && dt[2] == dt[3] {
      assert forall i :: 0 <= i < 4 ==> w[i] == s[i];
    }
  }

  /** An advance moves slots 1..3 down to 0..2 and puts x in slot 3. */
  lemma AdvanceShiftsHistory<T>(h: seq<T>, cTime: real, time: real, x: T)
    requires |h| == 4 && time > cTime
    ensures forall i :: 0 <= i < 3 ==> Shifted(h, cTime, time, x)[i] == h[i + 1]
    ensures Shifted(h, cTime, time, x)[3] == x
  {}

  // ---------------------------------------------------------------------
  // Step sizes against the times of the stored levels.

  /** The step sizes match the times levels[0..3] of the four stored
      snapshots at the current time cTime: the newest level lies dt[3]
      before cTime, and each older one dt[j] before the next. */
  predicate TracksLevels(dt: seq<real>, levels: seq<real>, cTime: real)
  {
    |dt| == 4 && |levels| == 4 &&
    levels[3] == cTime - dt[3] &&
    forall j :: 0 <= j < 3 ==> levels[j] == levels[j + 1] - dt[j]
  }

  /** Matched step sizes have as suffix sums the true distances from cTime
      back to the stored levels. */
  lemma TrackedDistances(dt: seq<real>, levels: seq<real>, cTime: real)
    requires TracksLevels(dt, levels, cTime)
    ensures forall j :: 0 <= j < 4 ==> Sum(dt[j..]) == cTime - levels[j]
  {
    SumStep(dt, 0);
    SumStep(dt, 1);
    SumStep(dt, 2);
    SumStep(dt, 3);
    assert dt[4..] == [];
  }

  /** The intended advance keeps the match when the run time has moved on
      by exactly deltaT: the snapshot stored in slot 3 is the field at the
      previous time cTime. */
  lemma AdvanceKeepsLevels(dt: seq<real>, levels: seq<real>, cTime: real, time: real, deltaT: real)
    requires TracksLevels(dt, levels, cTime) && time > cTime && deltaT == time - cTime
    ensures TracksLevels(Shifted(dt, cTime, time, deltaT), levels[1..] + [cTime], AdvancedTime(cTime, time))
  {}

  /** The loop as written loses the match.  Steps 1, 2, 3, 4 for levels at
      times 0, 1, 3 and 6 with cTime 10, advanced at 11 by 1, become 4, 4, 4,
      1, so the level at time 3 seems 9 back instead of 8. */
  lemma OverwrittenStepsLoseLevels()
    ensures TracksLevels([1.0, 2.0, 3.0, 4.0], [0.0, 1.0, 3.0, 6.0], 10.0)
    ensures OverwrittenSteps([1.0, 2.0, 3.0, 4.0], 10.0, 11.0, 1.0) == [4.0, 4.0, 4.0, 1.0]
    ensures Sum(OverwrittenSteps([1.0, 2.0, 3.0, 4.0], 10.0, 11.0, 1.0)[1..]) == 9.0
    ensures Sum(Shifted([1.0, 2.0, 3.0, 4.0], 10.0, 11.0, 1.0)[1..]) == 8.0
    ensures !TracksLevels(OverwrittenSteps([1.0, 2.0, 3.0, 4.0], 10.0, 11.0, 1.0), [1.0, 3.0, 6.0, 10.0], 11.0)
    ensures TracksLevels(Shifted([1.0, 2.0, 3.0, 4.0], 10.0, 11.0, 1.0), [1.0, 3.0, 6.0, 10.0], 11.0)
  {
    assert [4.0, 4.0, 4.0, 1.0][1..] == [4.0, 4.0, 1.0];
    assert [4.0, 4.0, 1.0][1..] == [4.0, 1.0];
    assert [4.0, 1.0][1..] == [1.0];
    assert [1.0][1..] == [];
    assert [2.0, 3.0, 4.0, 1.0][1..] == [3.0, 4.0, 1.0];
    assert [3.0, 4.0, 1.0][1..] == [4.0, 1.0];
  }

  /** The loop as written keeps the step sizes matched to the levels over an
      advance by deltaT exactly when the last three steps are equal. */
  lemma OverwrittenKeepsLevelsOnlyIfEqual(dt: seq<real>, levels: seq<real>, cTime: real, time: real, deltaT: real)
    requires TracksLevels(dt, levels, cTime) && time > cTime && deltaT == time - cTime
    ensures TracksLevels(OverwrittenSteps(dt, cTime, time, deltaT), levels[1..] + [cTime], AdvancedTime(cTime, time))
        <==> dt[1] == dt[3] && dt[2] == dt[3]
  {
    var w, l := OverwrittenSteps(dt, cTime, time, deltaT), levels[1..] + [cTime];
    assert l[0] == levels[1] && l[1] == levels[2] && l[2] == levels[3] && l[3] == cTime;
    assert levels[1] == levels[2] - dt[1] && levels[2] == levels[3] - dt[2];
    if dt[1] == dt[3] && dt[2] == dt[3] {
      OverwriteShiftsOnlyEqualSteps(dt, cTime, time, deltaT);
      AdvanceKeepsLevels(dt, levels, cTime, time, deltaT);
    }
  }

  // ---------------------------------------------------------------------
  // The matrix coefficients.

  /** The slots of a history that cover cell i. */
  predicate CoversCell(hv: seq<seq<real>>, hp: seq<seq<real>>, i: nat, n: nat)
  {
    n <= |hv| && n <= |hp| && forall j :: 0 <= j < n ==> i < |hv[j]| && i < |hp[j]|
  }

  /** The history term of cell i over the first n stored levels: the sum of
      weight times volume times field value. */
  function HistoryTerm(w: seq<real>, hv: seq<seq<real>>, hp: seq<seq<real>>, i: nat, n: nat): real
    requires n <= |w| && CoversCell(hv, hp, i, n)
  {
    if n == 0 then 0.0 else HistoryTerm(w, hv, hp, i, n - 1) + w[n - 1] * hv[n - 1][i] * hp[n - 1][i]
  }

  /** The diagonal entry of a cell with volume v: minus the sum of the four
      weights times v. */
  function DiagEntry(w: seq<real>, v: real): real
    requires |w| == 4
  {
    -(w[0] + w[1] + w[2] + w[3]) * v
  }

  function WeightSum(w: seq<real>, n: nat): real
    requires n <= |w|
  {
    if n == 0 then 0.0 else WeightSum(w, n - 1) + w[n - 1]
  }

  /** A history whose levels all hold the volume v and the value p has the
      history term (sum of the weights) * v * p. */
  lemma {:induction false} ConstantHistoryTerm(w: seq<real>, hv: seq<seq<real>>, hp: seq<seq<real>>, i: nat, n: nat, v: real, p: real)
    requires n <= |w| && CoversCell(hv, hp, i, n)
    requires forall j :: 0 <= j < n ==> hv[j][i] == v && hp[j][i] == p
    ensures HistoryTerm(w, hv, hp, i, n) == WeightSum(w, n) * v * p
  {
    if n > 0 {
      ConstantHistoryTerm(w, hv, hp, i, n - 1, v, p);
      var s, t := WeightSum(w, n - 1), w[n - 1];
      assert (s + t) * v * p == s * v * p + t * v * p;
    }
  }

  /** A field and volume that stayed constant over the four stored levels
      balance the matrix row: diag * psi == source, so the derivative is 0. */
  lemma ConstantHistoryBalances(w: seq<real>, hv: seq<seq<real>>, hp: seq<seq<real>>, i: nat, v: real, p: real)
    requires |w| == 4 && CoversCell(hv, hp, i, 4)
    requires forall j :: 0 <= j < 4 ==> hv[j][i] == v && hp[j][i] == p
    ensures DiagEntry(w, v) * p == -HistoryTerm(w, hv, hp, i, 4)
  {
    ConstantHistoryTerm(w, hv, hp, i, 4, v, p);
    assert WeightSum(w, 1) == w[0];
    assert WeightSum(w, 2) == w[0] + w[1];
    assert WeightSum(w, 3) == w[0] + w[1] + w[2];
  }

  /** The history term of a cell whose volume stayed v and whose stored
      values are p0 .. p3. */
  lemma ConstantVolumeHistory(w: seq<real>, hv: seq<seq<real>>, hp: seq<seq<real>>, i: nat,
                              v: real, p0: real, p1: real, p2: real, p3: real)
    requires |w| == 4 && CoversCell(hv, hp, i, 4)
    requires forall j :: 0 <= j < 4 ==> hv[j][i] == v
    requires hp[0][i] == p0 && hp[1][i] == p1 && hp[2][i] == p2 && hp[3][i] == p3
    ensures HistoryTerm(w, hv, hp, i, 4) == w[0] * v * p0 + w[1] * v * p1 + w[2] * v * p2 + w[3] * v * p3
  {
    assert HistoryTerm(w, hv, hp, i, 1) == w[0] * v * p0;
    assert HistoryTerm(w, hv, hp, i, 2) == w[0] * v * p0 + w[1] * v * p1;
    assert HistoryTerm(w, hv, hp, i, 3) == w[0] * v * p0 + w[1] * v * p1 + w[2] * v * p2;
  }

  /** The row of a cell whose volume stayed v, applied to the present value
      z, is v times the weighted changes of the stored values p_j. */
  lemma RowOfWeightedChanges(w: seq<real>, hv: seq<seq<real>>, hp: seq<seq<real>>, i: nat,
                             v: real, p0: real, p1: real, p2: real, p3: real, z: real, s: real)
    requires |w| == 4 && CoversCell(hv, hp, i, 4)
    requires forall j :: 0 <= j < 4 ==> hv[j][i] == v
    requires hp[0][i] == p0 && hp[1][i] == p1 && hp[2][i] == p2 && hp[3][i] == p3
    requires w[0] * (p0 - z) + w[1] * (p1 - z) + w[2] * (p2 - z) + w[3] * (p3 - z) == s
    ensures DiagEntry(w, v) * z + HistoryTerm(w, hv, hp, i, |w|) == v * s
  {
    ConstantVolumeHistory(w, hv, hp, i, v, p0, p1, p2, p3);
    var k0, k1, k2, k3 := w[0], w[1], w[2], w[3];
    assert k0 * v * p0 - k0 * v * z == v * (k0 * (p0 - z));
    assert k1 * v * p1 - k1 * v * z == v * (k1 * (p1 - z));
    assert k2 * v * p2 - k2 * v * z == v * (k2 * (p2 - z));
    assert k3 * v * p3 - k3 * v * z == v * (k3 * (p3 - z));
  }

  /** Weights meeting the moment conditions for the distances d0 .. d3,
      applied to a constant-volume history sampled from a quartic q at the
      distances d_j back, give v times the slope of q at the new level. */
  lemma QuarticRow(w: seq<real>, hv: seq<seq<real>>, hp: seq<seq<real>>, i: nat,
                   d0: real, d1: real, d2: real, d3: real, v: real, q: Quartic)
    requires |w| == 4 && CoversCell(hv, hp, i, 4)
    requires MomentConditions(d0, d1, d2, d3, w[0], w[1], w[2], w[3])
    requires forall j :: 0 <= j < 4 ==> hv[j][i] == v
    requires hp[0][i] == Past(q, d0) && hp[1][i] == Past(q, d1) && hp[2][i] == Past(q, d2) && hp[3][i] == Past(q, d3)
    ensures DiagEntry(w, v) * Eval(q, 0.0) + HistoryTerm(w, hv, hp, i, |w|) == v * q.c1
  {
    ExactOnQuartics(d0, d1, d2, d3, w[0], w[1], w[2], w[3], q);
    RowOfWeightedChanges(w, hv, hp, i, v, Past(q, d0), Past(q, d1), Past(q, d2), Past(q, d3), Eval(q, 0.0), q.c1);
  }

  /** The same in the volume-weighted form the code is written in: when the
      products volume times value of the stored levels are a quartic q
      sampled at the distances d_j back, and the present volume v and value z
      have v z == q(0), the row gives the slope q'(0) of V psi, whatever the
      volumes are on their own. */
  lemma ContentQuarticRow(w: seq<real>, hv: seq<seq<real>>, hp: seq<seq<real>>, i: nat,
                          d0: real, d1: real, d2: real, d3: real, v: real, z: real, q: Quartic)
    requires |w| == 4 && CoversCell(hv, hp, i, 4)
    requires MomentConditions(d0, d1, d2, d3, w[0], w[1], w[2], w[3])
    requires hv[0][i] * hp[0][i] == Past(q, d0) && hv[1][i] * hp[1][i] == Past(q, d1)
    requires hv[2][i] * hp[2][i] == Past(q, d2) && hv[3][i] * hp[3][i] == Past(q, d3)
    requires v * z == Eval(q, 0.0)
    ensures DiagEntry(w, v) * z + HistoryTerm(w, hv, hp, i, |w|) == q.c1
  {
    ExactOnQuartics(d0, d1, d2, d3, w[0], w[1], w[2], w[3], q);
    var p0, p1, p2, p3 := Past(q, d0), Past(q, d1), Past(q, d2), Past(q, d3);
    HistoryOfContents(w, hv, hp, i, p0, p1, p2, p3);
    ContentChanges(w[0], w[1], w[2], w[3], p0, p1, p2, p3, Eval(q, 0.0), v, z, q.c1);
    assert DiagEntry(w, v) * z == -(w[0] + w[1] + w[2] + w[3]) * v * z;
  }

  /** The history term of a cell whose products volume times value are
      p0 .. p3 is the weighted sum of those contents. */
  lemma HistoryOfContents(w: seq<real>, hv: seq<seq<real>>, hp: seq<seq<real>>, i: nat,
                          p0: real, p1: real, p2: real, p3: real)
    requires |w| == 4 && CoversCell(hv, hp, i, 4)
    requires hv[0][i] * hp[0][i] == p0 && hv[1][i] * hp[1][i] == p1
    requires hv[2][i] * hp[2][i] == p2 && hv[3][i] * hp[3][i] == p3
    ensures HistoryTerm(w, hv, hp, i, 4) == w[0] * p0 + w[1] * p1 + w[2] * p2 + w[3] * p3
  {
    ScaledContent(w[0], hv[0][i], hp[0][i], p0);
    ScaledContent(w[1], hv[1][i], hp[1][i], p1);
    ScaledContent(w[2], hv[2][i], hp[2][i], p2);
    ScaledContent(w[3], hv[3][i], hp[3][i], p3);
    assert HistoryTerm(w, hv, hp, i, 1) == w[0] * p0;
    assert HistoryTerm(w, hv, hp, i, 2) == w[0] * p0 + w[1] * p1;
    assert HistoryTerm(w, hv, hp, i, 3) == w[0] * p0 + w[1] * p1 + w[2] * p2;
  }

  /** One history term, weight times volume times value, is the weight times
      the content. */
  lemma ScaledContent(k: real, a: real, b: real, p: real)
    requires a * b == p
    ensures k * a * b == k * p
  {}

  /** The diagonal applied to a present content e plus the weighted contents
      p_j is the sum of the weighted changes from e. */
  lemma ContentChanges(k0: real, k1: real, k2: real, k3: real, p0: real, p1: real, p2: real, p3: real,
                       e: real, v: real, z: real, c: real)
    requires v * z == e
    requires k0 * (p0 - e) + k1 * (p1 - e) + k2 * (p2 - e) + k3 * (p3 - e) == c
    ensures -(k0 + k1 + k2 + k3) * v * z + (k0 * p0 + k1 * p1 + k2 * p2 + k3 * p3) == c
  {
    assert -(k0 + k1 + k2 + k3) * v * z == -(k0 + k1 + k2 + k3) * e;
  }

  /** A step change, as the code runs it.  Constructed at time 0 with step
      2 and advanced at 2, 4 (step 2) and at 5, 6 (step 1), with psi = t in
      one cell of volume v, the slots end up holding psi at the times 0, 2,
      4 and 5, which lie 6, 4, 2 and 1 before 6.  The overwritten step sizes
      give the distances 4, 3, 2 and 1 instead, and a row of 11/6 v where
      the slope 1 of psi calls for v. */
  lemma OverwrittenStepsMissSlope(v: real)
    ensures OverwrittenSteps(OverwrittenSteps(OverwrittenSteps(OverwrittenSteps(
              [2.0, 2.0, 2.0, 2.0], 0.0, 2.0, 2.0), 2.0, 4.0, 2.0), 4.0, 5.0, 1.0), 5.0, 6.0, 1.0)
         == [1.0, 1.0, 1.0, 1.0]
    ensures Shifted(Shifted(Shifted(Shifted(
              [[0.0], [0.0], [0.0], [0.0]], 0.0, 2.0, [0.0]), 2.0, 4.0, [2.0]), 4.0, 5.0, [4.0]), 5.0, 6.0, [5.0])
         == [[0.0], [2.0], [4.0], [5.0]]
    ensures Sum([1.0, 1.0, 1.0, 1.0]) == 4.0 && Sum([1.0, 1.0, 1.0]) == 3.0 && Sum([1.0, 1.0]) == 2.0 && Sum([1.0]) == 1.0
    ensures [K0(4.0, 3.0, 2.0, 1.0), K1(4.0, 3.0, 2.0, 1.0), K2(4.0, 3.0, 2.0, 1.0), K3(4.0, 3.0, 2.0, 1.0)]
         == [1.0 / 4.0, -4.0 / 3.0, 3.0, -4.0]
    ensures DiagEntry([1.0 / 4.0, -4.0 / 3.0, 3.0, -4.0], v) * 6.0 +
            HistoryTerm([1.0 / 4.0, -4.0 / 3.0, 3.0, -4.0], [[v], [v], [v], [v]], [[0.0], [2.0], [4.0], [5.0]], 0, 4)
         == v * (11.0 / 6.0)
  {
    var h0: seq<seq<real>> := [[0.0], [0.0], [0.0], [0.0]];
    var h1 := Shifted(h0, 0.0, 2.0, [0.0]);
    assert h1 == h0[1..] + [[0.0]] == h0;
    var h2 := Shifted(h1, 2.0, 4.0, [2.0]);
    assert h2 == h0[1..] + [[2.0]] == [[0.0], [0.0], [0.0], [2.0]];
    var h3 := Shifted(h2, 4.0, 5.0, [4.0]);
    assert h3 == h2[1..] + [[4.0]] == [[0.0], [0.0], [2.0], [4.0]];
    var h4 := Shifted(h3, 5.0, 6.0, [5.0]);
    assert h4 == h3[1..] + [[5.0]] == [[0.0], [2.0], [4.0], [5.0]];
    assert [1.0, 1.0, 1.0, 1.0][1..] == [1.0, 1.0, 1.0];
    assert [1.0, 1.0, 1.0][1..] == [1.0, 1.0];
    assert [1.0, 1.0][1..] == [1.0];
    assert [1.0][1..] == [];
    ConstantVolumeHistory([1.0 / 4.0, -4.0 / 3.0, 3.0, -4.0], [[v], [v], [v], [v]], [[0.0], [2.0], [4.0], [5.0]], 0,
                          v, 0.0, 2.0, 4.0, 5.0);
  }

  /** The same run with the intended shift: the step sizes 2, 2, 1, 1 give
      the true distances 6, 4, 2 and 1, and the row is v, v times the slope. */
  lemma ShiftedStepsKeepSlope(v: real)
    ensures Shifted(Shifted(Shifted(Shifted(
              [2.0, 2.0, 2.0, 2.0], 0.0, 2.0, 2.0), 2.0, 4.0, 2.0), 4.0, 5.0, 1.0), 5.0, 6.0, 1.0)
         == [2.0, 2.0, 1.0, 1.0]
    ensures Sum([2.0, 2.0, 1.0, 1.0]) == 6.0 && Sum([2.0, 1.0, 1.0]) == 4.0 && Sum([1.0, 1.0]) == 2.0 && Sum([1.0]) == 1.0
    ensures [K0(6.0, 4.0, 2.0, 1.0), K1(6.0, 4.0, 2.0, 1.0), K2(6.0, 4.0, 2.0, 1.0), K3(6.0, 4.0, 2.0, 1.0)]
         == [1.0 / 30.0, -1.0 / 4.0, 3.0 / 2.0, -16.0 / 5.0]
    ensures DiagEntry([1.0 / 30.0, -1.0 / 4.0, 3.0 / 2.0, -16.0 / 5.0], v) * 6.0 +
            HistoryTerm([1.0 / 30.0, -1.0 / 4.0, 3.0 / 2.0, -16.0 / 5.0], [[v], [v], [v], [v]], [[0.0], [2.0], [4.0], [5.0]], 0, 4)
         == v * 1.0
  {
    assert [2.0, 2.0, 2.0, 2.0][1..] + [2.0] == [2.0, 2.0, 2.0, 2.0];
    assert [2.0, 2.0, 2.0, 2.0][1..] + [1.0] == [2.0, 2.0, 2.0, 1.0];
    assert [2.0, 2.0, 2.0, 1.0][1..] + [1.0] == [2.0, 2.0, 1.0, 1.0];
    assert [2.0, 2.0, 1.0, 1.0][1..] == [2.0, 1.0, 1.0];
    assert [2.0, 1.0, 1.0][1..] == [1.0, 1.0];
    assert [1.0, 1.0][1..] == [1.0];
    assert [1.0][1..] == [];
    ConstantVolumeHistory([1.0 / 30.0, -1.0 / 4.0, 3.0 / 2.0, -16.0 / 5.0], [[v], [v], [v], [v]], [[0.0], [2.0], [4.0], [5.0]], 0,
                          v, 0.0, 2.0, 4.0, 5.0);
  }

  class FourthOrderDdt {
    var cTime: real
    const nCells: nat
    const dt: array<real>
    const delta: array<real>
    const k: array<real>
    const oldPsi: array<seq<real>>
    const oldV: array<seq<real>>

    predicate Valid()
      reads this, dt, delta, k, oldPsi, oldV
    {
      dt.Length == 4 && delta.Length == 4 && k.Length == 4 &&
      oldPsi.Length == 4 && oldV.Length == 4 &&
      dt != delta && dt != k && delta != k && oldPsi != oldV &&
      AllPositive(dt[..]) &&
      (forall j :: 0 <= j < 4 ==> |oldPsi[j]| == nCells && |oldV[j]| == nCells)
    }

    /** delta and k hold what makeCoeffs computes from dt. */
    predicate CoeffsMade()
      requires Valid()
      reads this, dt, delta, k, oldPsi, oldV
    {
      (forall i :: 0 <= i < 4 ==> delta[i] == Sum(dt[i..])) &&
      Separated(delta[0], delta[1], delta[2], delta[3]) &&
      k[0] == K0(delta[0], delta[1], delta[2], delta[3]) &&
      k[1] == K1(delta[0], delta[1], delta[2], delta[3]) &&
      k[2] == K2(delta[0], delta[1], delta[2], delta[3]) &&
      k[3] == K3(delta[0], delta[1], delta[2], delta[3])
    }

    /** The weights makeCoeffs leaves in k meet the moment conditions. */
    lemma CoeffsAreExact()
      requires Valid() && CoeffsMade()
      ensures MomentConditions(delta[0], delta[1], delta[2], delta[3], k[0], k[1], k[2], k[3])
    {
      WeightMoments(delta[0], delta[1], delta[2], delta[3], k[0], k[1], k[2], k[3]);
    }

    /** For a cell whose volume stayed v and whose stored values are a
        quartic q sampled at the distances delta[j] (q(-delta[j]) at level
        j), the matrix row applied to q(0) gives v times the slope q'(0):
        diag * psi minus source is exactly v * dpsi/dt. */
    lemma QuarticHistoryGivesDerivative(i: nat, v: real, q: Quartic)
      requires Valid() && CoeffsMade() && i < nCells
      requires forall j :: 0 <= j < 4 ==> oldV[j][i] == v && oldPsi[j][i] == Past(q, delta[j])
      ensures CoversCell(oldV[..], oldPsi[..], i, 4)
      ensures DiagEntry(k[..], v) * Eval(q, 0.0) + HistoryTerm(k[..], oldV[..], oldPsi[..], i, 4) == v * q.c1
    {
      CoeffsAreExact();
      var w := k[..];
      assert |w| == 4 && w[0] == k[0] && w[1] == k[1] && w[2] == k[2] && w[3] == k[3];
      QuarticRow(w, oldV[..], oldPsi[..], i, delta[0], delta[1], delta[2], delta[3], v, q);
    }

    /** For any cell, whatever its volumes: when the products oldV_j *
        oldPsi_j are a quartic q sampled at the distances delta[j], and the
        present volume v and value z have v z == q(0), the matrix row gives
        the slope q'(0) of V psi, that is diag * psi - source == d(V psi)/dt. */
    lemma QuarticContentGivesDerivative(i: nat, v: real, z: real, q: Quartic)
      requires Valid() && CoeffsMade() && i < nCells
      requires forall j :: 0 <= j < 4 ==> oldV[j][i] * oldPsi[j][i] == Past(q, delta[j])
      requires v * z == Eval(q, 0.0)
      ensures CoversCell(oldV[..], oldPsi[..], i, 4)
      ensures DiagEntry(k[..], v) * z + HistoryTerm(k[..], oldV[..], oldPsi[..], i, 4) == q.c1
    {
      CoeffsAreExact();
      var w := k[..];
      assert |w| == 4 && w[0] == k[0] && w[1] == k[1] && w[2] == k[2] && w[3] == k[3];
      ContentQuarticRow(w, oldV[..], oldPsi[..], i, delta[0], delta[1], delta[2], delta[3], v, z, q);
    }

    /** When the step sizes match the times of the stored levels, the same
        holds for a quartic sampled at those times: q(levels[j] - cTime) at
        level j gives a row of v times the slope q'(0) at cTime. */
    lemma TrueLevelsGiveDerivative(levels: seq<real>, i: nat, v: real, q: Quartic)
      requires Valid() && CoeffsMade() && i < nCells
      requires TracksLevels(dt[..], levels, cTime)
      requires forall j :: 0 <= j < 4 ==> oldV[j][i] == v && oldPsi[j][i] == Past(q, cTime - levels[j])
      ensures CoversCell(oldV[..], oldPsi[..], i, 4)
      ensures DiagEntry(k[..], v) * Eval(q, 0.0) + HistoryTerm(k[..], oldV[..], oldPsi[..], i, 4) == v * q.c1
    {
      TrackedDistances(dt[..], levels, cTime);
      assert forall j :: 0 <= j < 4 ==> dt[..][j..] == dt[j..];
      assert forall j :: 0 <= j < 4 ==> delta[j] == cTime - levels[j];
      QuarticHistoryGivesDerivative(i, v, q);
    }

    /** Construction at the time `time` with step deltaT: every stored level
        is the present one, and the advance inside is a no-op. */
    constructor (time: real, deltaT: real, psi: seq<real>, V: seq<real>)
      requires deltaT > 0.0 && |V| == |psi|
      ensures Valid() && CoeffsMade()
      ensures nCells == |psi| && cTime == time
      ensures dt[..] == [deltaT, deltaT, deltaT, deltaT]
      ensures oldPsi[..] == [psi, psi, psi, psi] && oldV[..] == [V, V, V, V]
    {
      cTime := time;
      nCells := |psi|;
      dt := new real[4](_ => deltaT);
      oldPsi := new seq<real>[4](_ => psi);
      oldV := new seq<real>[4](_ => V);
      delta := new real[4];
      k := new real[4];
      new;
      assert dt[..] == [deltaT, deltaT, deltaT, deltaT];
      assert oldPsi[..] == [psi, psi, psi, psi] && oldV[..] == [V, V, V, V];
      AdvanceInTime(time, deltaT, psi, V);
      MakeCoeffs();
    }

    /** Store the present level, unless time has not moved past cTime.  The
        step sizes are updated by the downward loop of the code, which sets
        the first three to the previous last one (OverwrittenSteps). */
    method AdvanceInTime(time: real, deltaT: real, psi: seq<real>, V: seq<real>)
      requires Valid() && deltaT > 0.0 && |psi| == nCells && |V| == nCells
      modifies this, dt, oldPsi, oldV
      ensures Valid()
      ensures cTime == AdvancedTime(old(cTime), time)
      ensures dt[..] == OverwrittenSteps(old(dt[..]), old(cTime), time, deltaT)
      ensures time > old(cTime) ==> dt[0] == dt[1] == dt[2] == old(dt[3]) && dt[3] == deltaT
      ensures oldPsi[..] == Shifted(old(oldPsi[..]), old(cTime), time, psi)
      ensures oldV[..] == Shifted(old(oldV[..]), old(cTime), time, V)
    {
      if time <= cTime {
        return;
      }
      cTime := time;
      ghost var dt0 := dt[..];
      var ti := 2;
      while ti >= 0
        modifies dt
        invariant -1 <= ti <= 2
        invariant forall m :: ti < m < 4 ==> dt[m] == dt0[3]
        invariant forall m :: 0 <= m <= ti ==> dt[m] == dt0[m]
      {
        dt[ti] := dt[ti + 1];
        ti := ti - 1;
      }
      dt[3] := deltaT;
      ghost var psi0, v0 := oldPsi[..], oldV[..];
      ti := 0;
      while ti <= 2
        modifies oldPsi, oldV
        invariant 0 <= ti <= 3
        invariant forall m :: 0 <= m < ti ==> oldPsi[m] == psi0[m + 1] && oldV[m] == v0[m + 1]
        invariant forall m :: ti <= m < 4 ==> oldPsi[m] == psi0[m] && oldV[m] == v0[m]
      {
        oldPsi[ti] := oldPsi[ti + 1];
        oldV[ti] := oldV[ti + 1];
        ti := ti + 1;
      }
      oldPsi[3] := psi;
      oldV[3] := V;
    }

    /** The distances back to the stored levels and the four weights. */
    method MakeCoeffs()
      requires Valid()
      modifies delta, k
      ensures Valid() && CoeffsMade()
    {
      for i := 0 to 4
        modifies delta
        invariant forall m :: 0 <= m < i ==> delta[m] == Sum(dt[m..])
      {
        delta[i] := 0.0;
        var j := 3;
        while j >= i
          modifies delta
          invariant i - 1 <= j <= 3
          invariant delta[i] == Sum(dt[j + 1..])
          invariant forall m :: 0 <= m < i ==> delta[m] == Sum(dt[m..])
        {
          SumStep(dt[..], j);
          assert dt[..][j..] == dt[j..] && dt[..][j + 1..] == dt[j + 1..];
          delta[i] := delta[i] + dt[j];
          j := j - 1;
        }
      }
      SuffixSumsDecrease(dt[..]);
      assert forall m :: 0 <= m < 4 ==> dt[..][m..] == dt[m..];
      var d0, d1, d2, d3 := delta[0], delta[1], delta[2], delta[3];
      var k0, k1, k2, k3 := K0(d0, d1, d2, d3), K1(d0, d1, d2, d3), K2(d0, d1, d2, d3), K3(d0, d1, d2, d3);
      k[0], k[1], k[2], k[3] := k0, k1, k2, k3;
    }

    /** The implicit time derivative of psi: advance, rebuild the weights and
        assemble the matrix. */
    method Ddt(time: real, deltaT: real, psi: seq<real>, V: seq<real>) returns (diag: array<real>, source: array<real>)
      requires Valid() && deltaT > 0.0 && |psi| == nCells && |V| == nCells
      modifies this, dt, delta, k, oldPsi, oldV
      ensures Valid() && CoeffsMade()
      ensures cTime == AdvancedTime(old(cTime), time)
      ensures dt[..] == OverwrittenSteps(old(dt[..]), old(cTime), time, deltaT)
      ensures oldPsi[..] == Shifted(old(oldPsi[..]), old(cTime), time, psi)
      ensures oldV[..] == Shifted(old(oldV[..]), old(cTime), time, V)
      ensures fresh(diag) && fresh(source) && diag.Length == nCells && source.Length == nCells
      ensures forall i :: 0 <= i < nCells ==> diag[i] == DiagEntry(k[..], V[i])
      ensures forall i :: 0 <= i < nCells ==>
                CoversCell(oldV[..], oldPsi[..], i, 4) && source[i] == -HistoryTerm(k[..], oldV[..], oldPsi[..], i, 4)
    {
      AdvanceInTime(time, deltaT, psi, V);
      MakeCoeffs();
      diag, source := Assemble(V);
    }

    /** The matrix rows of all cells from the current weights and history:
        the diagonal from the present volumes, the source, starting from
        zero, from the stored levels. */
    method Assemble(V: seq<real>) returns (diag: array<real>, source: array<real>)
      requires Valid() && |V| == nCells
      ensures fresh(diag) && fresh(source) && diag.Length == nCells && source.Length == nCells
      ensures forall i :: 0 <= i < nCells ==> diag[i] == DiagEntry(k[..], V[i])
      ensures forall i :: 0 <= i < nCells ==>
                CoversCell(oldV[..], oldPsi[..], i, 4) && source[i] == -HistoryTerm(k[..], oldV[..], oldPsi[..], i, 4)
    {
      diag := new real[nCells](_ => 0.0);
      source := new real[nCells](_ => 0.0);
      var kSum := k[0] + k[1] + k[2] + k[3];
      for i := 0 to nCells
        invariant forall m :: i <= m < nCells ==> source[m] == 0.0
        invariant forall m :: 0 <= m < i ==> diag[m] == DiagEntry(k[..], V[m])
        invariant forall m :: 0 <= m < i ==>
                    CoversCell(oldV[..], oldPsi[..], m, 4) && source[m] == -HistoryTerm(k[..], oldV[..], oldPsi[..], m, 4)
      {
        diag[i] := -kSum * V[i];
        SubtractHistory(source, i);
      }
    }

    /** The inner loop of the cell loop: subtract from source[i] the weighted
        stored volume times value of every level, leaving the other cells. */
    method SubtractHistory(source: array<real>, i: nat)
      requires Valid() && i < nCells && source.Length == nCells
      requires source != dt && source != delta && source != k
      modifies source
      ensures CoversCell(oldV[..], oldPsi[..], i, 4)
      ensures source[i] == old(source[i]) - HistoryTerm(k[..], oldV[..], oldPsi[..], i, 4)
      ensures forall m :: 0 <= m < nCells && m != i ==> source[m] == old(source[m])
    {
      ghost var w, hv, hp := k[..], oldV[..], oldPsi[..];
      for j := 0 to 4
        invariant forall m :: 0 <= m < nCells && m != i ==> source[m] == old(source[m])
        invariant CoversCell(hv, hp, i, j) && source[i] == old(source[i]) - HistoryTerm(w, hv, hp, i, j)
      {
        var kj, vj, pj := k[j], oldV[j][i], oldPsi[j][i];
        assert HistoryTerm(w, hv, hp, i, j + 1) == HistoryTerm(w, hv, hp, i, j) + kj * vj * pj;
        source[i] := source[i] - kj * vj * pj;
      }
    }
  }
}
