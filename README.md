# Sequential components of the two-day OpenFOAM programming course

This project models, in Dafny, the self-contained sequential parts of the
course repository's OpenFOAM code and proves what they promise. Every OpenFOAM
`scalar` is an exact `real`. The mesh and the run time enter as plain inputs:
the current time, deltaT, cell values, cell volumes, face centres and patch
point lists.

- **Fourth-order time derivative** (`fourthOrderDdt`; modules
  `FourthOrderWeights` and `FourthOrderDdtScheme`). The class
  `FourthOrderDdt` keeps four step sizes, and four snapshots of the field
  and of the cell volumes, in arrays.
  - `AdvanceInTime` moves the snapshots down one slot in place when time
    has moved. It updates the step sizes by the downward loop as written
    (`OverwrittenSteps`), which does not shift them (see Findings).
  - `MakeCoeffs` builds the four distances `delta` (suffix sums of the step
    sizes) and the four weights.
  - `Ddt` fills the diagonal and source of the matrix cell by cell.
  - The weights are proved to meet the four moment conditions for the
    distances `delta[j]`. So they differentiate exactly every quartic
    sampled at those distances.
  - The `delta[j]` are the true distances back to the stored time levels
    only while the step sizes match the times of those levels
    (`TracksLevels`). The intended shift keeps the match from one time step
    to the next (`AdvanceKeepsLevels`). The loop as written keeps it exactly
    when the last three steps are equal (`OverwrittenKeepsLevelsOnlyIfEqual`).
  - At class level, a cell whose volume stayed V at every stored level and
    whose stored values lie on a quartic at the distances `delta[j]` gets
    `diag * psi - source == V * dpsi/dt`. Under the match, the same holds at
    the true level times (`TrueLevelsGiveDerivative`). For a cell whose
    volume changes, the row is `d(V psi)/dt` when the products
    `oldV_j * oldPsi_j` lie on a quartic (`QuarticContentGivesDerivative`). A cell whose history is constant gets
    `diag * psi == source`.
- **RBF mesh morpher: masks and control motion** (`RBFMeshMorph`; module
  `RbfMeshMorph`).
  - Moving-patch names are checked against the boundary.
  - The motion mask is zeroed on every point of every static patch, and
    the marks are counted.
  - The normalised control parameters are mapped affinely into the motion
    bounds.
  - Every fatal error is a `Failure` of a `Result`.
- **Far/near velocity utility** (`setFarVelocityField`; module
  `SetFarVelocityField`). `MinPatchDist` computes the running minimum
  distance to the wall face centres, starting from the sentinel
  `1/VSMALL`. `SetFarVelocity` assigns `Ufar` or `Unear` to every cell.
- **Tutorials**. `ForIfWhile` models the for, do-while, if, switch and forAll
  demo. `FigShapes` models `Shape` and the `Circle` value class.
  `SpecialTypes` models the array-filling loop.

Shared modules: `Wrappers` (`Result`), `Vectors` (the 3-vector and
its arithmetic) and `FoamConstants` (`VSMALL`, `M_PI`).

The `dt_` loop of `advanceInTime` runs downward and overwrites each slot
before it is read. So an advance leaves `dt_[0..2]` all equal to the
previous `dt_[3]` instead of shifting them. The class runs
this loop as written, and its contract is `OverwrittenSteps`. That equals a
shift only while the last three steps are equal
(`OverwriteShiftsOnlyEqualSteps`, `OverwrittenStepsLoseLevels`). After a
change of time step, the distances it produces are wrong, and the row of
`psi = t` gives `11/6 V` instead of `V` (`OverwrittenStepsMissSlope`).
Beside it stands the intended update, the ascending shift `Shifted` that the
snapshot loop next to it performs, with its properties proved
(`AdvanceKeepsLevels`, `ShiftedStepsKeepSlope`). The Findings section
records the discrepancy.

## Model

| member | source | states |
|---|---|---|
| FourthOrderWeights.Den0Factors | RU/Files/day2_LabWork/libMyLib/fourthOrderTimeScheme/fourthOrderDdt.C:85-94 | the k_[0] denominator is d0 times the product of (d0 - dj) over the other distances |
| FourthOrderWeights.Den1Factors | RU/Files/day2_LabWork/libMyLib/fourthOrderTimeScheme/fourthOrderDdt.C:96-106 | the k_[1] denominator is minus d1 times the product of (d1 - dj) over the other distances |
| FourthOrderWeights.Den2Factors | RU/Files/day2_LabWork/libMyLib/fourthOrderTimeScheme/fourthOrderDdt.C:108-122 | the expanded k_[2] denominator factors as (d2-d3)(d0-d2)(d1-d2)d2, d2 times the node product of d2 |
| FourthOrderWeights.Den3Factors | RU/Files/day2_LabWork/libMyLib/fourthOrderTimeScheme/fourthOrderDdt.C:124-146 | the expanded k_[3] denominator factors as (d0-d3)(d1-d3)(d2-d3)d3, minus d3 times the node product of d3 |
| FourthOrderWeights.DenominatorsNonzero | RU/Files/day2_LabWork/libMyLib/fourthOrderTimeScheme/fourthOrderDdt.C:85-146 | non-zero, pairwise distinct distances make all four denominators non-zero |
| FourthOrderWeights.Weight0TimesDistance | RU/Files/day2_LabWork/libMyLib/fourthOrderTimeScheme/fourthOrderDdt.C:85-94 | k0 * d0 is d1 d2 d3 over the node product of d0 (the Lagrange cofactor) |
| FourthOrderWeights.Weight1TimesDistance | RU/Files/day2_LabWork/libMyLib/fourthOrderTimeScheme/fourthOrderDdt.C:96-106 | k1 * d1 is d0 d2 d3 over the node product of d1 |
| FourthOrderWeights.Weight2TimesDistance | RU/Files/day2_LabWork/libMyLib/fourthOrderTimeScheme/fourthOrderDdt.C:108-122 | k2 * d2 is d0 d1 d3 over the node product of d2 |
| FourthOrderWeights.Weight3TimesDistance | RU/Files/day2_LabWork/libMyLib/fourthOrderTimeScheme/fourthOrderDdt.C:124-146 | k3 * d3 is d0 d1 d2 over the node product of d3 |
| FourthOrderWeights.WeightsTimesDistance | RU/Files/day2_LabWork/libMyLib/fourthOrderTimeScheme/fourthOrderDdt.C:85-146 | all four weights are Lagrange cofactors in this sense |
| FourthOrderWeights.FirstMomentOf | RU/Files/day2_LabWork/libMyLib/fourthOrderTimeScheme/fourthOrderDdt.C:85-146 | the cofactor weights give sum k_j d_j == -1 |
| FourthOrderWeights.SecondMomentOf | RU/Files/day2_LabWork/libMyLib/fourthOrderTimeScheme/fourthOrderDdt.C:85-146 | the cofactor weights give sum k_j d_j^2 == 0 |
| FourthOrderWeights.ThirdMomentOf | RU/Files/day2_LabWork/libMyLib/fourthOrderTimeScheme/fourthOrderDdt.C:85-146 | the cofactor weights give sum k_j d_j^3 == 0 |
| FourthOrderWeights.FourthMomentOf | RU/Files/day2_LabWork/libMyLib/fourthOrderTimeScheme/fourthOrderDdt.C:85-146 | the cofactor weights give sum k_j d_j^4 == 0 |
| FourthOrderWeights.WeightMoments | RU/Files/day2_LabWork/libMyLib/fourthOrderTimeScheme/fourthOrderDdt.C:85-146 | the four weights of makeCoeffs meet all four moment conditions |
| FourthOrderWeights.ExactOnQuartics | RU/Files/day2_LabWork/libMyLib/fourthOrderTimeScheme/fourthOrderDdt.C:85-146 | weights meeting the moment conditions for d0 .. d3 turn the changes of any quartic from 0 back to those distances into its slope at 0 |
| FourthOrderDdtScheme.SuffixSumsDecrease | RU/Files/day2_LabWork/libMyLib/fourthOrderTimeScheme/fourthOrderDdt.C:76-83 | with positive steps, delta[3] == dt[3], delta[i] == dt[i] + delta[i+1], the distances are positive and strictly decreasing, so they are separated |
| FourthOrderDdtScheme.AdvancedTime | RU/Files/day2_LabWork/libMyLib/fourthOrderTimeScheme/fourthOrderDdt.C:44-49 | the stored time never decreases and is either the old one or the new one |
| FourthOrderDdtScheme.AdvanceIdempotent | RU/Files/day2_LabWork/libMyLib/fourthOrderTimeScheme/fourthOrderDdt.C:44-47 | a second advance at the same time changes neither the time, the steps (as written) nor a slot history (the shift) |
| FourthOrderDdtScheme.AdvancePreservesPositive | RU/Files/day2_LabWork/libMyLib/fourthOrderTimeScheme/fourthOrderDdt.C:52-57 | positive steps and a positive deltaT stay positive after an advance, both as written and with the intended shift |
| FourthOrderDdtScheme.OverwriteShiftsOnlyEqualSteps | RU/Files/day2_LabWork/libMyLib/fourthOrderTimeScheme/fourthOrderDdt.C:52-57 | when time has moved, the steps as written equal the shifted steps exactly when dt[1] == dt[2] == dt[3] |
| FourthOrderDdtScheme.AdvanceShiftsHistory | RU/Files/day2_LabWork/libMyLib/fourthOrderTimeScheme/fourthOrderDdt.C:60-70 | the shift moves slots 1..3 down to 0..2 and puts the present snapshot in slot 3 |
| FourthOrderDdtScheme.TrackedDistances | RU/Files/day2_LabWork/libMyLib/fourthOrderTimeScheme/fourthOrderDdt.C:76-83 | when the step sizes match the times of the stored levels, each suffix sum delta[j] is the distance from cTime back to level j |
| FourthOrderDdtScheme.AdvanceKeepsLevels | RU/Files/day2_LabWork/libMyLib/fourthOrderTimeScheme/fourthOrderDdt.C:49-70 | when time moves on by exactly deltaT, the intended shift keeps the step sizes matched to the shifted levels, the newest being the previous time |
| FourthOrderDdtScheme.OverwrittenStepsLoseLevels | RU/Files/day2_LabWork/libMyLib/fourthOrderTimeScheme/fourthOrderDdt.C:52-55 | the loop as written turns matched steps 1, 2, 3, 4 into 4, 4, 4, 1, which no longer match (the level 8 back seems 9 back), while the intended shift does |
| FourthOrderDdtScheme.OverwrittenKeepsLevelsOnlyIfEqual | RU/Files/day2_LabWork/libMyLib/fourthOrderTimeScheme/fourthOrderDdt.C:52-57 | from matched steps and an advance by exactly deltaT, the steps as written match the shifted levels if and only if dt[1] == dt[2] == dt[3] |
| FourthOrderDdtScheme.OverwrittenStepsMissSlope | RU/Files/day2_LabWork/libMyLib/fourthOrderTimeScheme/fourthOrderDdt.C:52-57 | after a step change the loop as written gives the distances 4, 3, 2, 1 for levels 6, 4, 2, 1 back, and the row of psi = t is 11/6 V instead of V |
| FourthOrderDdtScheme.ShiftedStepsKeepSlope | RU/Files/day2_LabWork/libMyLib/fourthOrderTimeScheme/fourthOrderDdt.C:52-57 | the same run with the intended shift gives the true distances 6, 4, 2, 1 and the row V |
| FourthOrderDdtScheme.ConstantHistoryTerm | RU/Files/day2_LabWork/libMyLib/fourthOrderTimeScheme/fourthOrderDdt.C:167-170 | a history of constant volume v and value p has history term (sum of weights) * v * p |
| FourthOrderDdtScheme.ConstantHistoryBalances | RU/Files/day2_LabWork/libMyLib/fourthOrderTimeScheme/fourthOrderDdt.C:164-171 | for a constant history, diag * psi == source, whatever the weights |
| FourthOrderDdtScheme.ConstantVolumeHistory | RU/Files/day2_LabWork/libMyLib/fourthOrderTimeScheme/fourthOrderDdt.C:167-170 | with constant volume v the history term is sum k_j v p_j |
| FourthOrderDdtScheme.RowOfWeightedChanges | RU/Files/day2_LabWork/libMyLib/fourthOrderTimeScheme/fourthOrderDdt.C:164-171 | with constant volume v, diag * z - source is v times the weighted changes of the stored values from z |
| FourthOrderDdtScheme.QuarticRow | RU/Files/day2_LabWork/libMyLib/fourthOrderTimeScheme/fourthOrderDdt.C:164-171 | weights meeting the moment conditions and a constant-volume history on a quartic give diag * q(0) - source == v * q'(0) |
| FourthOrderDdtScheme.ContentQuarticRow | RU/Files/day2_LabWork/libMyLib/fourthOrderTimeScheme/fourthOrderDdt.C:164-171 | weights meeting the moment conditions and a history whose products volume times value lie on a quartic give diag * psi - source == the slope of V psi, whatever the separate volumes |
| FourthOrderDdtScheme.FourthOrderDdt.CoeffsAreExact | RU/Files/day2_LabWork/libMyLib/fourthOrderTimeScheme/fourthOrderDdt.C:73-147 | the weights the object holds after makeCoeffs meet the moment conditions for its distances |
| FourthOrderDdtScheme.FourthOrderDdt.QuarticHistoryGivesDerivative | RU/Files/day2_LabWork/libMyLib/fourthOrderTimeScheme/fourthOrderDdt.C:149-171 | for a cell whose volume stayed V at every stored level and whose stored values are a quartic sampled at the distances delta[j], the matrix row gives exactly V times its time derivative at the new level |
| FourthOrderDdtScheme.FourthOrderDdt.TrueLevelsGiveDerivative | RU/Files/day2_LabWork/libMyLib/fourthOrderTimeScheme/fourthOrderDdt.C:149-171 | when the step sizes match the stored levels, a cell whose volume stayed V at every stored level and whose values are a quartic sampled at the level times gives a row of exactly V times its derivative at cTime |
| FourthOrderDdtScheme.FourthOrderDdt.QuarticContentGivesDerivative | RU/Files/day2_LabWork/libMyLib/fourthOrderTimeScheme/fourthOrderDdt.C:149-171 | for any cell, with volumes free to change: when oldV_j oldPsi_j is a quartic sampled at delta[j] and V psi is its present value, the row is exactly d(V psi)/dt |
| FourthOrderDdtScheme.FourthOrderDdt.constructor | RU/Files/day2_LabWork/libMyLib/fourthOrderTimeScheme/fourthOrderDdt.C:16-38 | cTime is the present time, all four steps equal deltaT, every slot holds the present psi and V, and the weights are made |
| FourthOrderDdtScheme.FourthOrderDdt.AdvanceInTime | RU/Files/day2_LabWork/libMyLib/fourthOrderTimeScheme/fourthOrderDdt.C:41-71 | the guard; the downward dt loop as written, leaving dt[0..2] all equal to the old dt[3] and dt[3] == deltaT; the snapshot shift and the slot-3 store |
| FourthOrderDdtScheme.FourthOrderDdt.MakeCoeffs | RU/Files/day2_LabWork/libMyLib/fourthOrderTimeScheme/fourthOrderDdt.C:73-147 | delta[i] is the sum of dt[i..3], the distances are separated and k holds the four weights |
| FourthOrderDdtScheme.FourthOrderDdt.Ddt | RU/Files/day2_LabWork/libMyLib/fourthOrderTimeScheme/fourthOrderDdt.C:149-174 | advance (steps as written by OverwrittenSteps, snapshots shifted), new weights, then diag[i] == -(k0+k1+k2+k3) V[i] and source[i] == -sum_j k_j oldV_j[i] oldPsi_j[i] for every cell |
| FourthOrderDdtScheme.FourthOrderDdt.Assemble | RU/Files/day2_LabWork/libMyLib/fourthOrderTimeScheme/fourthOrderDdt.C:164-171 | the cell loop fills every diagonal and source entry, the source starting from zero |
| FourthOrderDdtScheme.FourthOrderDdt.SubtractHistory | RU/Files/day2_LabWork/libMyLib/fourthOrderTimeScheme/fourthOrderDdt.C:167-170 | the inner loop subtracts the history term of cell i from source[i] and leaves every other entry |
| RbfMeshMorph.FindPatchID | RU/Files/day_2_Ext/ShapeOptCases/src/shapeOptimisation/RBFMeshMorph/RBFMeshMorph.C:46-49 | the index of the first patch of that name, or -1 exactly when no patch has it |
| RbfMeshMorph.PointsOfMeans | RU/Files/day_2_Ext/ShapeOptCases/src/shapeOptimisation/RBFMeshMorph/RBFMeshMorph.C:87-93 | a point is marked by a patch exactly when it is in its point list, and a list of n entries marks at most n points |
| RbfMeshMorph.StaticPointsMeans | RU/Files/day_2_Ext/ShapeOptCases/src/shapeOptimisation/RBFMeshMorph/RBFMeshMorph.C:63-95 | a point is fixed exactly when some patch that is not moving, empty or coupled lists it |
| RbfMeshMorph.MarkedCountBoundsStaticPoints | RU/Files/day_2_Ext/ShapeOptCases/src/shapeOptimisation/RBFMeshMorph/RBFMeshMorph.C:87-93 | the mark count is at least the number of distinct fixed points |
| RbfMeshMorph.ScalarLerpEndpoints | RU/Files/day_2_Ext/ShapeOptCases/src/shapeOptimisation/RBFMeshMorph/RBFMeshMorph.C:166-174 | parameter 0 gives the first bound, 1 the second |
| RbfMeshMorph.VectorLerpEndpoints | RU/Files/day_2_Ext/ShapeOptCases/src/shapeOptimisation/RBFMeshMorph/RBFMeshMorph.C:194-205 | parameter (0,0,0) gives the first bound, (1,1,1) the second |
| RbfMeshMorph.VectorLerpOfUniform | RU/Files/day_2_Ext/ShapeOptCases/src/shapeOptimisation/RBFMeshMorph/RBFMeshMorph.C:166-205 | the vector overload with equal components equals the scalar overload |
| RbfMeshMorph.LerpBetween | RU/Files/day_2_Ext/ShapeOptCases/src/shapeOptimisation/RBFMeshMorph/RBFMeshMorph.C:168-173 | a parameter in [0, 1] gives a value between the two bounds |
| RbfMeshMorph.VectorLerpInBounds | RU/Files/day_2_Ext/ShapeOptCases/src/shapeOptimisation/RBFMeshMorph/RBFMeshMorph.C:194-205 | parameters in [0, 1] keep every component of the motion between its bounds |
| RbfMeshMorph.ScalarLerpInvertible | RU/Files/day_2_Ext/ShapeOptCases/src/shapeOptimisation/RBFMeshMorph/RBFMeshMorph.C:166-174 | in each component where the two bounds differ, the parameter is recovered from that component of the motion |
| RbfMeshMorph.MovedPoints | RU/Files/day_2_Ext/ShapeOptCases/src/shapeOptimisation/RBFMeshMorph/RBFMeshMorph.C:176-177 | mask 0 keeps a reference point, mask 1 moves it by the full displacement |
| RbfMeshMorph.MeshMorph.constructor | RU/Files/day_2_Ext/ShapeOptCases/src/shapeOptimisation/RBFMeshMorph/RBFMeshMorph.C:119-124 | the members hold their inputs and the mask is 1 at every point |
| RbfMeshMorph.MeshMorph.MakeControlMasks | RU/Files/day_2_Ext/ShapeOptCases/src/shapeOptimisation/RBFMeshMorph/RBFMeshMorph.C:40-98 | fails exactly when a moving-patch name is missing, naming the first one and leaving the mask alone; otherwise zeroes exactly the static points and returns the mark count |
| RbfMeshMorph.MeshMorph.Create | RU/Files/day_2_Ext/ShapeOptCases/src/shapeOptimisation/RBFMeshMorph/RBFMeshMorph.C:103-142 | fails on a size mismatch, then on a missing patch; on success the mask is 0 on static points and 1 elsewhere |
| RbfMeshMorph.MeshMorph.ScalarMotion | RU/Files/day_2_Ext/ShapeOptCases/src/shapeOptimisation/RBFMeshMorph/RBFMeshMorph.C:156-174 | fails exactly on a size mismatch; otherwise control motion i is first + cpm[i] (second - first) |
| RbfMeshMorph.MeshMorph.VectorMotion | RU/Files/day_2_Ext/ShapeOptCases/src/shapeOptimisation/RBFMeshMorph/RBFMeshMorph.C:184-205 | fails exactly on a size mismatch; otherwise the componentwise affine map into the bounds |
| SetFarVelocityField.MinDistUpToIsFirstMinimum | RU/Files/day2_LabWork/apps/setFarVelocityField/setFarVelocityField.C:40-48 | the running minimum is at most the sentinel and every face distance, and is the sentinel or the first face attaining it |
| SetFarVelocityField.MinDistCases | RU/Files/day2_LabWork/apps/setFarVelocityField/setFarVelocityField.C:40-50 | no faces give the sentinel; a face nearer than the sentinel makes the result a face distance |
| SetFarVelocityField.MinPatchDist | RU/Files/day2_LabWork/apps/setFarVelocityField/setFarVelocityField.C:37-51 | the loop returns the running minimum, a lower bound of every face distance and of the sentinel |
| SetFarVelocityField.FarExactlyWhenAllFacesBeyond | RU/Files/day2_LabWork/apps/setFarVelocityField/setFarVelocityField.C:77-85 | a cell is far exactly when the sentinel and every face lie beyond minDist; equality gives near |
| SetFarVelocityField.SetFarVelocity | RU/Files/day2_LabWork/apps/setFarVelocityField/setFarVelocityField.C:75-86 | every cell gets Ufar when its wall distance exceeds minDist and Unear otherwise |
| ForIfWhile.TriangleStep | RU/Files/day1_CPlusPlus/forIfWhile/forIfWhileTut.C:14-19 | one more pass of the for loop adds n to n(n-1)/2 |
| ForIfWhile.ForSum | RU/Files/day1_CPlusPlus/forIfWhile/forIfWhileTut.C:14-19 | the loop leaves sum == 0 + 1 + ... + (N-1) == N(N-1)/2 |
| ForIfWhile.DoWhileUndo | RU/Files/day1_CPlusPlus/forIfWhile/forIfWhileTut.C:22-28 | from k0 >= 1 the loop makes exactly k0 passes and ends with k == 0 having taken k0(k0-1)/2 away; from k0 < 1 it makes its single pass |
| ForIfWhile.SignOf | RU/Files/day1_CPlusPlus/forIfWhile/forIfWhileTut.C:31-42 | k is 0, 1 or -1 exactly when sum is zero, positive or negative |
| ForIfWhile.SwitchValue | RU/Files/day1_CPlusPlus/forIfWhile/forIfWhileTut.C:45-66 | labels -1, 0, 1 give themselves as scalars, every other label VSMALL |
| ForIfWhile.SwitchOfSign | RU/Files/day1_CPlusPlus/forIfWhile/forIfWhileTut.C:31-66 | after the if chain the switch default is never reached and sum becomes the sign |
| ForIfWhile.FillDoubled | RU/Files/day1_CPlusPlus/forIfWhile/forIfWhileTut.C:69-73 | a new list of length N with l[i] == 2 i |
| ForIfWhile.Tutorial | RU/Files/day1_CPlusPlus/forIfWhile/forIfWhileTut.C:11-75 | the program ends with sum == 0, k == 0 and l[i] == 2 i for i < 10 |
| FigShapes.AreaNonNegative | RU/Files/day1_CPlusPlus/classes/figShapes.C:53-56 | pi r r is never negative |
| FigShapes.AreaEven | RU/Files/day1_CPlusPlus/classes/figShapes.C:53-56 | radii r and -r give the same area |
| FigShapes.AreaMonotone | RU/Files/day1_CPlusPlus/classes/figShapes.C:53-56 | a larger non-negative radius gives a larger area |
| FigShapes.Shape.Area | RU/Files/day1_CPlusPlus/classes/figShapes.C:17-20 | a plain shape has area 0 |
| FigShapes.Circle.Default | RU/Files/day1_CPlusPlus/classes/figShapes.C:22-29 | centre at the origin, radius 0, hence area 0 |
| FigShapes.Circle.constructor | RU/Files/day1_CPlusPlus/classes/figShapes.C:31-38 | the circle stores its centre and radius |
| FigShapes.Circle.Copy | RU/Files/day1_CPlusPlus/classes/figShapes.C:40-47 | the copy has the same centre and radius |
| FigShapes.Circle.Area | RU/Files/day1_CPlusPlus/classes/figShapes.C:53-56 | the area is pi r r and non-negative |
| FigShapes.Circle.SetCenterX | RU/Files/day1_CPlusPlus/classes/figShapes.C:68-71 | only x changes; centerX() returns the new x, centerY() and the area are unchanged |
| FigShapes.Circle.SetCenterY | RU/Files/day1_CPlusPlus/classes/figShapes.C:73-76 | only y changes; centerY() returns the new y, centerX() and the area are unchanged |
| FigShapes.Circle.CenterX | RU/Files/day1_CPlusPlus/classes/figShapes.C:58-61 | centerX() returns the stored x of the centre |
| FigShapes.Circle.CenterY | RU/Files/day1_CPlusPlus/classes/figShapes.C:63-66 | centerY() returns the stored y of the centre |
| SpecialTypes.Mult | RU/Files/day1_CPlusPlus/specialTypes/specialTypesTut.C:13-16 | mult(a, b) is the product a b, whatever the order of the factors |
| SpecialTypes.FillArrays | RU/Files/day1_CPlusPlus/specialTypes/specialTypesTut.C:30-37 | two new arrays of 20 scalars with da[q] == q and db[q] == mult(q, q) == q q |

## Left out

- The Nelder-Mead simplex engine (SimplexNelderMead) and its two drivers (simplexTest.C, optimiserFoam.C) are outside this model. The drivers only loop over the engine.
- The `paraboloidSin` objective is left out because it needs floating-point trigonometry.
- The CFD solvers (`icoFlow`, `tPisoPassiveTransportFoam`, `hyper1MulesFoam`) and the boundary-condition classes (conductiveHeatFlux, convectiveHeatFlux, fourier) are left out. They are layers over finite-volume and patch classes that are not part of this model.
- Dictionary reading (`rbfMotionDict`, `movingPatches`, `controlPoints`, `motionBounds`) is left out. The values it produces are constructor arguments instead.
- The RBF interpolation `interpolation_.interpolate` is foreign code. Its result is an input of `RbfMeshMorph.MovedPoints`.
- `polyBoundaryMesh::findPatchID` is not shown. `RbfMeshMorph.FindPatchID` assumes it returns the first patch of that name, or -1.
- The `Info` line with the number of static points is output. The count is returned instead.
- `FatalError` aborts the program. Each one is a `Failure` carrying the sizes or the name its message prints.
- The mesh, time and matrix objects of `fourthOrderDdt` are left out. The time, deltaT, psi and V are passed in, and `Ddt` returns the diagonal and source as two arrays rather than an `fvScalarMatrix`.
- `FourthOrderDdtScheme.FourthOrderDdt.constructor`, `AdvanceInTime` and `Ddt` require deltaT > 0. The source relies on the run time for this, and it is what keeps the weights' denominators non-zero.
- `FourthOrderDdtScheme.FourthOrderDdt.Ddt`: the matrix loop is its own method, `Assemble`, and its inner loop is `SubtractHistory`, so the loops are verified apart from the weight algebra. `Ddt` calls `Assemble` after `MakeCoeffs`.
- `FourthOrderDdtScheme.AdvanceKeepsLevels` assumes the run time moved on by exactly deltaT since the last advance, that is one `ddt` call per time step. That is a property of the caller and is not modelled.
- The constructor fills every slot with the present field while the step sizes place the levels deltaT apart. Nothing is stated about the accuracy of the first steps of a non-constant field.
- Exactness on quartics is shown by the four moment conditions and `ExactOnQuartics`. Nothing is stated about polynomials of higher degree.
- The time loop of `setFarVelocityField`, the mesh update and the field writing are I/O and are left out.
- The vector magnitude `mag` is a parameter of `SetFarVelocityField`. Nothing depends on it being the Euclidean norm.
- `Shape` and `Circle` are separate classes: inheritance, virtual dispatch, the `refCount` base and the header figShapes.H are not modelled. The getters `centerX()`/`centerY()` are field reads.
- `M_PI` is the decimal constant of the C header, not the double it rounds to.
- In specialTypesTut.C, the pointer demo (lines 21-27) and `delete` on a `new[]` array (line 38) are undefined behaviour and are left out.
- typesTut.C has no behaviour to state, only local declarations.
- Floating-point rounding is not modelled, because scalars are exact reals.

## Findings

| source | as written | input that shows it | evidently intended | confidence | as-written member | corrected member |
|---|---|---|---|---|---|---|
| RU/Files/day2_LabWork/libMyLib/fourthOrderTimeScheme/fourthOrderDdt.C:52-55 | the loop runs ti = 2, 1, 0 and copies dt_[ti+1] into dt_[ti], so each later copy reads a slot the copy before it overwrote and dt_[0..2] all receive the old dt_[3] | construct at time 0 with deltaT 2, advance at 2 and 4 (deltaT 2), then at 5 and 6 (deltaT 1): dt_ becomes (1, 1, 1, 1) and delta_ (4, 3, 2, 1), while the stored levels lie 6, 4, 2, 1 back; for psi = t the row gives 11/6 V instead of V | the ascending shift dt_[ti] = dt_[ti+1] for ti = 0, 1, 2, as the snapshot loop at lines 60-64 does it, which keeps delta_ the true distances to the stored levels | not executed; high | FourthOrderDdtScheme.OverwrittenStepsMissSlope | FourthOrderDdtScheme.AdvanceKeepsLevels |
