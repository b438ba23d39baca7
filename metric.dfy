/**
 * Trajectory metrics of random_walk/metric.py: path lengths, mean squared
 * displacement and turning angles.  A trajectory is the sequence of its rows
 * (x, y), row index = step number.  The square root of `np.linalg.norm` and
 * `np.atan2` enter as function parameters constrained by IsSqrt and IsAtan2.
 */
module Metric {
  import opened Geometry

  /** Row-wise difference of two equally long blocks of rows. */
  function RowDiff(a: seq<Vec>, b: seq<Vec>): seq<Vec>
    requires |a| == |b|
  {
    seq(|a|, i requires 0 <= i < |a| => Sub(a[i], b[i]))
  }

  /** `np.diff(path, axis=0)`: the step vectors between consecutive rows. */
  function Steps(path: seq<Vec>): (v: seq<Vec>)
    ensures |v| == if |path| == 0 then 0 else |path| - 1
    ensures forall i {:trigger v[i]} :: 0 <= i < |v| ==> v[i] == Sub(path[i + 1], path[i])
  {
    if |path| == 0 then [] else RowDiff(path[1..], path[..|path| - 1])
  }

  // Path lengths.

  /** Squared Euclidean distance from row `q` to row `p`. */
  function SquaredDistance(p: Vec, q: Vec): real
  {
    Norm2(Sub(p, q))
  }

  /** `sqrt` returns the non-negative square root of every non-negative real. */
  ghost predicate IsSqrt(sqrt: real -> real)
  {
    forall x :: 0.0 <= x ==> 0.0 <= sqrt(x) && sqrt(x) * sqrt(x) == x
  }

  /** path_lengths: the Euclidean norm of every step vector. */
  function PathLengths(path: seq<Vec>, sqrt: real -> real): (r: seq<real>)
    requires IsSqrt(sqrt)
    ensures |r| == if |path| == 0 then 0 else |path| - 1
    ensures forall i {:trigger r[i]} :: 0 <= i < |r| ==>
      0.0 <= r[i] && r[i] * r[i] == SquaredDistance(path[i + 1], path[i])
  {
    var differences := Steps(path);
    seq(|differences|, i requires 0 <= i < |differences| => Norm(differences[i], sqrt))
  }

  function Norm(v: Vec, sqrt: real -> real): (n: real)
    requires IsSqrt(sqrt)
    ensures 0.0 <= n && n * n == Norm2(v)
  {
    Norm2NonNegative(v);
    sqrt(Norm2(v))
  }

  /** A step whose squared length is `l * l`, for `l >= 0`, has path length `l`. */
  lemma PathLengthOfStep(path: seq<Vec>, sqrt: real -> real, i: int, l: real)
    requires IsSqrt(sqrt)
    requires 0 <= i < |path| - 1
    requires l >= 0.0 && SquaredDistance(path[i + 1], path[i]) == l * l
    ensures PathLengths(path, sqrt)[i] == l
  {
    var r := PathLengths(path, sqrt)[i];
    assert r >= 0.0 && r * r == l * l;
    NonNegativeRootUnique(r, l);
  }

  /** A trajectory that never moves has all path lengths zero. */
  lemma PathLengthsOfStationary(path: seq<Vec>, sqrt: real -> real)
    requires IsSqrt(sqrt)
    requires forall i :: 0 <= i < |path| ==> path[i] == path[0]
    ensures forall i :: 0 <= i < |PathLengths(path, sqrt)| ==> PathLengths(path, sqrt)[i] == 0.0
  {
    var r := PathLengths(path, sqrt);
    forall i | 0 <= i < |r|
      ensures r[i] == 0.0
    {
      StationaryStepLength(path, sqrt, i);
    }
  }

  lemma StationaryStepLength(path: seq<Vec>, sqrt: real -> real, i: int)
    requires IsSqrt(sqrt)
    requires 0 <= i < |path| - 1
    requires path[i + 1] == path[i]
    ensures PathLengths(path, sqrt)[i] == 0.0
  {
    StationaryStep(path, i);
    ZeroPathLength(path, sqrt, i);
  }

  lemma ZeroPathLength(path: seq<Vec>, sqrt: real -> real, i: int)
    requires IsSqrt(sqrt)
    requires 0 <= i < |path| - 1
    requires SquaredDistance(path[i + 1], path[i]) == 0.0
    ensures PathLengths(path, sqrt)[i] == 0.0
  {
    PathLengthOfStep(path, sqrt, i, 0.0);
  }

  lemma StationaryStep(path: seq<Vec>, i: int)
    requires 0 <= i < |path| - 1
    requires path[i + 1] == path[i]
    ensures SquaredDistance(path[i + 1], path[i]) == 0.0
  {
    SquaredDistanceSelf(path[i]);
  }

  lemma SquaredDistanceSelf(p: Vec)
    ensures SquaredDistance(p, p) == 0.0
  {
    SubSelf(p);
  }

  // Mean squared displacement.

  function Sum(s: seq<real>): real
    decreases |s|
  {
    if |s| == 0 then 0.0 else s[0] + Sum(s[1..])
  }

  /** `np.mean`: the sum divided by the count. */
  function Mean(s: seq<real>): real
    requires |s| > 0
  {
    Sum(s) / (|s| as real)
  }

  /** `path.values[d:] - path.values[:-d]`: the displacement over `d` steps from every row that has one. */
  function Displacements(path: seq<Vec>, d: int): (r: seq<Vec>)
    requires 1 <= d < |path|
    ensures |r| == |path| - d
    ensures forall i {:trigger r[i]} :: 0 <= i < |r| ==> r[i] == Sub(path[i + d], path[i])
  {
    RowDiff(path[d..], path[..|path| - d])
  }

  /** Squared distance between row i and row i + d, for each of the |path| - d pairs. */
  function SquaredDisplacements(path: seq<Vec>, d: int): (sq: seq<real>)
    requires 1 <= d < |path|
  {
    seq(|path| - d, i requires 0 <= i < |path| - d => SquaredDistance(path[i + d], path[i]))
  }

  lemma SquaredDisplacementAt(path: seq<Vec>, d: int, i: int)
    requires 1 <= d < |path|
    requires 0 <= i < |path| - d
    ensures SquaredDisplacements(path, d)[i] == SquaredDistance(path[i + d], path[i])
  {
  }

  /** The overlapping-window MSD estimator at lag d: the mean over all |path| - d pairs (i, i + d). */
  function Msd(path: seq<Vec>, d: int): real
    requires 1 <= d < |path|
  {
    Mean(SquaredDisplacements(path, d))
  }

  /**
   * One pass of the loop body: the displacements over lag `d`, every
   * component squared (`displacements **= 2`), the components of each row
   * summed (`np.sum(..., axis=1)`), then averaged (`np.mean`).
   */
  function LagMean(path: seq<Vec>, d: int): real
    requires 1 <= d < |path|
  {
    var displacements := Displacements(path, d);
    var squared := seq(|displacements|, i requires 0 <= i < |displacements| => SquareComponents(displacements[i]));
    var displacements1d := seq(|squared|, i requires 0 <= i < |squared| => RowSum(squared[i]));
    Mean(displacements1d)
  }

  /** `**= 2` on one row: each component squared. */
  function SquareComponents(v: Vec): Vec
  {
    Vec(v.x * v.x, v.y * v.y)
  }

  /** `np.sum(..., axis=1)` on one row. */
  function RowSum(v: Vec): real
  {
    v.x + v.y
  }

  /** The loop body computes the overlapping-window estimator for its lag. */
  lemma LagMeanIsMsd(path: seq<Vec>, d: int)
    requires 1 <= d < |path|
    ensures LagMean(path, d) == Msd(path, d)
  {
    var displacements := Displacements(path, d);
    var squared := seq(|displacements|, i requires 0 <= i < |displacements| => SquareComponents(displacements[i]));
    var displacements1d := seq(|squared|, i requires 0 <= i < |squared| => RowSum(squared[i]));
    var sq := SquaredDisplacements(path, d);
    forall i | 0 <= i < |displacements1d|
      ensures displacements1d[i] == sq[i]
    {
      RowSumOfSquares(displacements[i]);
    }
    assert displacements1d == sq;
  }

  /** Squaring the components of a row and summing them gives its squared length. */
  lemma RowSumOfSquares(v: Vec)
    ensures RowSum(SquareComponents(v)) == Norm2(v)
  {
  }

  /**
   * mean_squared_displacement: a zero-filled buffer of |path| - 1 entries,
   * then one pass per lag d = 1 .. |path| - 1 writing entry d - 1.
   */
  method MeanSquaredDisplacement(path: seq<Vec>) returns (msd: seq<real>)
    requires |path| >= 1
    ensures |msd| == |path| - 1
    ensures forall d :: 1 <= d < |path| ==> msd[d - 1] == Msd(path, d)
  {
    var steps := |path|;
    var results := new real[steps - 1];
    for displacement := 1 to steps
      invariant forall k {:trigger results[k]} :: 0 <= k < displacement - 1 ==> results[k] == Msd(path, k + 1)
    {
      LagMeanIsMsd(path, displacement);
      results[displacement - 1] := LagMean(path, displacement);
    }
    msd := results[..];
  }

  lemma {:induction false} SumNonNegative(s: seq<real>)
    requires forall i :: 0 <= i < |s| ==> s[i] >= 0.0
    ensures Sum(s) >= 0.0
    decreases |s|
  {
    if |s| > 0 {
      SumNonNegative(s[1..]);
    }
  }

  lemma {:induction false} SumZero(s: seq<real>)
    requires forall i :: 0 <= i < |s| ==> s[i] == 0.0
    ensures Sum(s) == 0.0
    decreases |s|
  {
    if |s| > 0 {
      SumZero(s[1..]);
    }
  }

  lemma MeanNonNegative(s: seq<real>)
    requires |s| > 0
    ensures Sum(s) >= 0.0 ==> Mean(s) >= 0.0
  {
  }

  lemma SquaredDisplacementsNonNegative(path: seq<Vec>, d: int)
    requires 1 <= d < |path|
    ensures forall i :: 0 <= i < |path| - d ==> SquaredDisplacements(path, d)[i] >= 0.0
  {
    forall i | 0 <= i < |path| - d
      ensures SquaredDisplacements(path, d)[i] >= 0.0
    {
      Norm2NonNegative(Sub(path[i + d], path[i]));
    }
  }

  /** Every MSD entry is non-negative. */
  lemma MsdNonNegative(path: seq<Vec>, d: int)
    requires 1 <= d < |path|
    ensures Msd(path, d) >= 0.0
  {
    var sq := SquaredDisplacements(path, d);
    SquaredDisplacementsNonNegative(path, d);
    SumNonNegative(sq);
    MeanNonNegative(sq);
  }

  lemma MeanZero(s: seq<real>)
    requires |s| > 0 && Sum(s) == 0.0
    ensures Mean(s) == 0.0
  {
  }

  lemma SquaredDisplacementsOfStationary(path: seq<Vec>, d: int)
    requires 1 <= d < |path|
    requires forall i :: 0 <= i < |path| ==> path[i] == path[0]
    ensures forall i :: 0 <= i < |path| - d ==> SquaredDisplacements(path, d)[i] == 0.0
  {
    forall i | 0 <= i < |path| - d
      ensures SquaredDisplacements(path, d)[i] == 0.0
    {
      StationaryPair(path, d, i);
    }
  }

  lemma StationaryPair(path: seq<Vec>, d: int, i: int)
    requires 1 <= d < |path|
    requires 0 <= i < |path| - d
    requires path[i + d] == path[i]
    ensures SquaredDisplacements(path, d)[i] == 0.0
  {
    SquaredDisplacementAt(path, d, i);
    SquaredDistanceSelf(path[i]);
  }

  /** A trajectory that never moves has MSD zero at every lag. */
  lemma MsdOfStationary(path: seq<Vec>, d: int)
    requires 1 <= d < |path|
    requires forall i :: 0 <= i < |path| ==> path[i] == path[0]
    ensures Msd(path, d) == 0.0
  {
    var sq := SquaredDisplacements(path, d);
    SquaredDisplacementsOfStationary(path, d);
    SumZero(sq);
    MeanZero(sq);
  }

  function Squared(r: real): real
  {
    r * r
  }

  /** MSD at lag 1 is the mean of the squared path lengths. */
  lemma MsdLagOne(path: seq<Vec>, sqrt: real -> real)
    requires |path| >= 2
    requires IsSqrt(sqrt)
    ensures var lengths := PathLengths(path, sqrt);
      Msd(path, 1) == Mean(seq(|lengths|, i requires 0 <= i < |lengths| => Squared(lengths[i])))
  {
    var lengths := PathLengths(path, sqrt);
    var squares := seq(|lengths|, i requires 0 <= i < |lengths| => Squared(lengths[i]));
    var sq := SquaredDisplacements(path, 1);
    forall i | 0 <= i < |squares|
      ensures squares[i] == sq[i]
    {
      SquaredPathLength(path, sqrt, i);
    }
    assert squares == sq;
  }

  lemma SquaredPathLength(path: seq<Vec>, sqrt: real -> real, i: int)
    requires |path| >= 2
    requires IsSqrt(sqrt)
    requires 0 <= i < |path| - 1
    ensures Squared(PathLengths(path, sqrt)[i]) == SquaredDisplacements(path, 1)[i]
  {
    SquaredDisplacementAt(path, 1, i);
  }

  /** MSD at the largest lag has a single pair: the squared distance from the first row to the last. */
  lemma MsdLastLag(path: seq<Vec>)
    requires |path| >= 2
    ensures Msd(path, |path| - 1) == SquaredDistance(path[|path| - 1], path[0])
  {
    var sq := SquaredDisplacements(path, |path| - 1);
    assert |sq| == 1;
    assert Sum(sq) == sq[0] + Sum(sq[1..]);
  }

  // Turning angles.

  /** One entry of `np.stack((a, b), axis=1)`: the 2x2 matrix with rows a and b. */
  datatype Mat2 = Mat2(row0: Vec, row1: Vec)

  /** `np.linalg.det` of a 2x2 matrix. */
  function Det(m: Mat2): real
  {
    m.row0.x * m.row1.y - m.row0.y * m.row1.x
  }

  /**
   * turning_angles: step vectors a = vectors[:-1] and b = vectors[1:],
   * then atan2(det([a; b]), a . b) for each adjacent pair.
   */
  function TurningAngles(path: seq<Vec>, atan2: (real, real) -> real): (r: seq<real>)
    ensures |r| == if |path| < 2 then 0 else |path| - 2
    ensures forall i {:trigger r[i]} :: 0 <= i < |r| ==>
      var a, b := Sub(path[i + 1], path[i]), Sub(path[i + 2], path[i + 1]);
      r[i] == atan2(Cross(a, b), Dot(a, b))
  {
    var vectors := Steps(path);
    if |vectors| == 0 then []
    else
      var a, b := vectors[..|vectors| - 1], vectors[1..];
      var matrices := seq(|a|, i requires 0 <= i < |a| => Mat2(a[i], b[i]));
      StackedDets(a, b, matrices);
      seq(|a|, i requires 0 <= i < |a| => atan2(Det(matrices[i]), Dot(a[i], b[i])))
  }

  lemma StackedDets(a: seq<Vec>, b: seq<Vec>, matrices: seq<Mat2>)
    requires |a| == |b| == |matrices|
    requires forall i :: 0 <= i < |a| ==> matrices[i] == Mat2(a[i], b[i])
    ensures forall i :: 0 <= i < |a| ==> Det(matrices[i]) == Cross(a[i], b[i])
  {
  }

  /**
   * The part of `np.atan2` the lemmas rely on, over exact reals (no signed
   * zeros): values in (-pi, pi], angle 0 on the positive x axis and at the
   * origin, pi on the negative x axis, pi / 2 on the positive y axis and
   * -pi / 2 on the negative y axis.
   */
  ghost predicate IsAtan2(atan2: (real, real) -> real, pi: real)
  {
    && pi > 0.0
    && (forall y, x :: -pi < atan2(y, x) <= pi)
    && (forall x :: x > 0.0 ==> atan2(0.0, x) == 0.0)
    && (forall x :: x < 0.0 ==> atan2(0.0, x) == pi)
    && (forall y :: y > 0.0 ==> atan2(y, 0.0) == pi / 2.0)
    && (forall y :: y < 0.0 ==> atan2(y, 0.0) == -pi / 2.0)
    && atan2(0.0, 0.0) == 0.0
  }

  /** Over exact reals, every turning angle lies in (-pi, pi]. */
  lemma TurningAnglesRange(path: seq<Vec>, atan2: (real, real) -> real, pi: real)
    requires IsAtan2(atan2, pi)
    ensures forall i :: 0 <= i < |TurningAngles(path, atan2)| ==>
      -pi < TurningAngles(path, atan2)[i] <= pi
  {
  }

  /** Steps that all point the same way along `u` (any positive lengths) give turning angle 0 throughout. */
  lemma StraightPathAngles(path: seq<Vec>, atan2: (real, real) -> real, pi: real, u: Vec, ks: seq<real>)
    requires IsAtan2(atan2, pi)
    requires u != Origin
    requires |path| >= 1 && |ks| == |path| - 1
    requires forall i {:trigger ks[i]} :: 0 <= i < |ks| ==> ks[i] > 0.0 && Sub(path[i + 1], path[i]) == Scale(ks[i], u)
    ensures forall i :: 0 <= i < |TurningAngles(path, atan2)| ==> TurningAngles(path, atan2)[i] == 0.0
  {
    var r := TurningAngles(path, atan2);
    forall i | 0 <= i < |r|
      ensures r[i] == 0.0
    {
      PositiveProduct(ks[i], ks[i + 1]);
      CollinearTurn(ks[i], ks[i + 1], u);
    }
  }

  /** Steps along `u` whose direction flips at every step give turning angle pi throughout. */
  lemma ReversingPathAngles(path: seq<Vec>, atan2: (real, real) -> real, pi: real, u: Vec, ks: seq<real>)
    requires IsAtan2(atan2, pi)
    requires u != Origin
    requires |path| >= 1 && |ks| == |path| - 1
    requires forall i {:trigger ks[i]} :: 0 <= i < |ks| ==> Sub(path[i + 1], path[i]) == Scale(ks[i], u)
    requires forall i :: 0 <= i < |ks| - 1 ==> ks[i] * ks[i + 1] < 0.0
    ensures forall i :: 0 <= i < |TurningAngles(path, atan2)| ==> TurningAngles(path, atan2)[i] == pi
  {
    var r := TurningAngles(path, atan2);
    forall i | 0 <= i < |r|
      ensures r[i] == pi
    {
      CollinearTurn(ks[i], ks[i + 1], u);
    }
  }

  /** A stationary step (a repeated row) on either side gives turning angle 0. */
  lemma StationaryStepAngle(path: seq<Vec>, atan2: (real, real) -> real, pi: real, i: int)
    requires IsAtan2(atan2, pi)
    requires 0 <= i < |path| - 2
    requires path[i + 1] == path[i] || path[i + 2] == path[i + 1]
    ensures TurningAngles(path, atan2)[i] == 0.0
  {
    var a, b := Sub(path[i + 1], path[i]), Sub(path[i + 2], path[i + 1]);
    assert a == Origin || b == Origin;
    assert Cross(a, b) == 0.0 && Dot(a, b) == 0.0;
  }

  function Reverse(path: seq<Vec>): (r: seq<Vec>)
    ensures |r| == |path|
  {
    seq(|path|, i requires 0 <= i < |path| => path[|path| - 1 - i])
  }

  /**
   * Walking the trajectory backwards swaps and negates every pair of steps:
   * the cross term changes sign and the dot term stays, so every turn is mirrored.
   */
  lemma ReversedPathTurns(path: seq<Vec>, atan2: (real, real) -> real, j: int)
    requires 0 <= j < |path| - 2
    ensures var n := |path|;
      var a, b := Sub(path[n - j - 2], path[n - j - 3]), Sub(path[n - j - 1], path[n - j - 2]);
      TurningAngles(Reverse(path), atan2)[j] == atan2(-Cross(a, b), Dot(a, b))
  {
    var n := |path|;
    var rev := Reverse(path);
    var a, b := Sub(path[n - j - 2], path[n - j - 3]), Sub(path[n - j - 1], path[n - j - 2]);
    var p, q := Sub(rev[j + 1], rev[j]), Sub(rev[j + 2], rev[j + 1]);
    assert p == Scale(-1.0, b) && q == Scale(-1.0, a);
    assert Cross(p, q) == -Cross(a, b);
    assert Dot(p, q) == Dot(a, b);
  }

  /**
   * The turning angle of `t` quarter turns (0 .. 3), brought into (-pi, pi]:
   * three quarter turns left read as one to the right.
   */
  function QuarterTurnAngle(t: int, pi: real): real
  {
    if t == 0 then 0.0 else if t == 1 then pi / 2.0 else if t == 2 then pi else -pi / 2.0
  }

  /** A non-zero step followed by itself turned `t` quarter turns: the turning angle is that of `t` quarter turns. */
  lemma QuarterTurnAngles(path: seq<Vec>, atan2: (real, real) -> real, pi: real, i: int, t: int)
    requires IsAtan2(atan2, pi)
    requires 0 <= i < |path| - 2
    requires 0 <= t < 4
    requires Sub(path[i + 1], path[i]) != Origin
    requires Sub(path[i + 2], path[i + 1]) == RotN(Sub(path[i + 1], path[i]), t)
    ensures TurningAngles(path, atan2)[i] == QuarterTurnAngle(t, pi)
  {
    var a := Sub(path[i + 1], path[i]);
    NonZeroNorm2(a);
    if t == 0 {
      NoTurn(a);
    } else if t == 1 {
      assert RotN(a, 1) == Rot(a);
      LeftTurn(a);
    } else if t == 2 {
      assert RotN(a, 1) == Rot(a);
      assert RotN(a, 2) == Rot(Rot(a));
      Reversal(a);
    } else {
      assert RotN(a, 1) == Rot(a);
      assert RotN(a, 2) == Rot(Rot(a));
      assert RotN(a, 3) == Rot(Rot(Rot(a)));
      RightTurn(a);
    }
  }

  /** Two perpendicular steps make a quarter turn: +pi/2 counter-clockwise, -pi/2 clockwise. */
  lemma PerpendicularTurn(path: seq<Vec>, atan2: (real, real) -> real, pi: real, i: int)
    requires IsAtan2(atan2, pi)
    requires 0 <= i < |path| - 2
    requires Dot(Sub(path[i + 1], path[i]), Sub(path[i + 2], path[i + 1])) == 0.0
    ensures Cross(Sub(path[i + 1], path[i]), Sub(path[i + 2], path[i + 1])) > 0.0 ==>
      TurningAngles(path, atan2)[i] == pi / 2.0
    ensures Cross(Sub(path[i + 1], path[i]), Sub(path[i + 2], path[i + 1])) < 0.0 ==>
      TurningAngles(path, atan2)[i] == -pi / 2.0
  {
  }

  /** A three-row trajectory, from any start, that steps one unit right and then one unit up. */
  predicate RightThenUp(path: seq<Vec>)
  {
    |path| == 3 && Sub(path[1], path[0]) == Vec(1.0, 0.0) && Sub(path[2], path[1]) == Vec(0.0, 1.0)
  }

  /**
   * The trajectory (0,0), (1,0), (1,1): path lengths [1, 1], MSD 1 at lag 1
   * and 2 at lag 2, and one turning angle of pi / 2 (a left quarter turn).
   */
  lemma QuarterTurnExample(sqrt: real -> real, atan2: (real, real) -> real, pi: real)
    requires IsSqrt(sqrt) && IsAtan2(atan2, pi)
    ensures var path := [Vec(0.0, 0.0), Vec(1.0, 0.0), Vec(1.0, 1.0)];
      && PathLengths(path, sqrt) == [1.0, 1.0]
      && Msd(path, 1) == 1.0 && Msd(path, 2) == 2.0
      && TurningAngles(path, atan2) == [pi / 2.0]
  {
    QuarterTurnExampleSteps();
    RightThenUpMetrics([Vec(0.0, 0.0), Vec(1.0, 0.0), Vec(1.0, 1.0)], sqrt, atan2, pi);
  }

  lemma QuarterTurnExampleSteps()
    ensures RightThenUp([Vec(0.0, 0.0), Vec(1.0, 0.0), Vec(1.0, 1.0)])
  {
  }

  /** The metrics of any right-then-up trajectory, wherever it starts. */
  lemma RightThenUpMetrics(path: seq<Vec>, sqrt: real -> real, atan2: (real, real) -> real, pi: real)
    requires IsSqrt(sqrt) && IsAtan2(atan2, pi)
    requires RightThenUp(path)
    ensures PathLengths(path, sqrt) == [1.0, 1.0]
    ensures Msd(path, 1) == 1.0 && Msd(path, 2) == 2.0
    ensures TurningAngles(path, atan2) == [pi / 2.0]
  {
    RightThenUpLengths(path, sqrt);
    RightThenUpMsd(path);
    RightThenUpTurn(path);
    LeftTurnAngle(path, atan2, pi);
  }

  lemma RightThenUpLengths(path: seq<Vec>, sqrt: real -> real)
    requires IsSqrt(sqrt)
    requires RightThenUp(path)
    ensures PathLengths(path, sqrt) == [1.0, 1.0]
  {
    assert Norm2(Vec(1.0, 0.0)) == 1.0 && Norm2(Vec(0.0, 1.0)) == 1.0;
    PathLengthOfStep(path, sqrt, 0, 1.0);
    PathLengthOfStep(path, sqrt, 1, 1.0);
  }

  lemma RightThenUpMsd(path: seq<Vec>)
    requires RightThenUp(path)
    ensures Msd(path, 1) == 1.0 && Msd(path, 2) == 2.0
  {
    assert Norm2(Vec(1.0, 0.0)) == 1.0 && Norm2(Vec(0.0, 1.0)) == 1.0;
    assert SquaredDisplacements(path, 1) == [1.0, 1.0];
    assert Sub(path[2], path[0]) == Vec(1.0, 1.0);
    assert SquaredDisplacements(path, 2) == [2.0];
    assert Sum([1.0, 1.0]) == 1.0 + Sum([1.0]);
    assert Sum([2.0]) == 2.0 + Sum([]);
  }

  /** Right then up is a left turn: cross term 1, dot term 0. */
  lemma RightThenUpTurn(path: seq<Vec>)
    requires RightThenUp(path)
    ensures Dot(Sub(path[1], path[0]), Sub(path[2], path[1])) == 0.0
    ensures Cross(Sub(path[1], path[0]), Sub(path[2], path[1])) == 1.0
  {
  }

  /** Three rows whose two steps are perpendicular and turn counter-clockwise have the single angle pi / 2. */
  lemma LeftTurnAngle(path: seq<Vec>, atan2: (real, real) -> real, pi: real)
    requires IsAtan2(atan2, pi)
    requires |path| == 3
    requires Dot(Sub(path[1], path[0]), Sub(path[2], path[1])) == 0.0
    requires Cross(Sub(path[1], path[0]), Sub(path[2], path[1])) > 0.0
    ensures TurningAngles(path, atan2) == [pi / 2.0]
  {
    PerpendicularTurn(path, atan2, pi, 0);
  }
}
