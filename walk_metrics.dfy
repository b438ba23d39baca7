/**
 * The generators of random_walk/walk.py seen through the metrics of
 * random_walk/metric.py: `np.diff` undoes the integration rule, the path
 * lengths of the generated trajectories are the absolute values of the step
 * lengths used to build them, and with a non-zero length the turning angles
 * of the Brownian walk give back every quarter-turn draw but the first.
 */
module WalkMetrics {
  import opened Geometry
  import opened Walk
  import opened Metric

  /** The step vectors of an integrated trajectory are the velocities it was built from. */
  lemma StepsOfIntegrate(start: Vec, velocities: seq<Vec>)
    ensures Steps(Integrate(start, velocities)) == velocities
  {
    var path := Integrate(start, velocities);
    var v := Steps(path);
    forall i | 0 <= i < |v|
      ensures v[i] == velocities[i]
    {
      assert Sub(path[i + 1], path[i]) == velocities[i];
    }
  }

  lemma {:induction false} IntegrateOfStepsPrefix(path: seq<Vec>, i: nat)
    requires i < |path|
    ensures Integrate(path[0], Steps(path))[i] == path[i]
  {
    if i > 0 {
      IntegrateOfStepsPrefix(path, i - 1);
      var q := Integrate(path[0], Steps(path));
      assert Sub(q[i], q[i - 1]) == Sub(path[i], path[i - 1]);
      AddSub(q[i], q[i - 1]);
      AddSub(path[i], path[i - 1]);
    }
  }

  /** Integrating the step vectors of a trajectory from its first row rebuilds the trajectory. */
  lemma IntegrateOfSteps(path: seq<Vec>)
    requires |path| >= 1
    ensures Integrate(path[0], Steps(path)) == path
  {
    var q := Integrate(path[0], Steps(path));
    forall i | 0 <= i < |path|
      ensures q[i] == path[i]
    {
      IntegrateOfStepsPrefix(path, i);
    }
  }

  /** A step of squared length `l * l` has path length |l|, whatever the sign of `l`. */
  lemma PathLengthOfSignedStep(path: seq<Vec>, sqrt: real -> real, i: int, l: real)
    requires IsSqrt(sqrt)
    requires 0 <= i < |path| - 1
    requires Norm2(Sub(path[i + 1], path[i])) == l * l
    ensures PathLengths(path, sqrt)[i] == Abs(l)
  {
    AbsSquare(l);
    PathLengthOfStep(path, sqrt, i, Abs(l));
  }

  lemma BrownianPathLength(steps: int, length: real, start: Vec, turns: seq<int>, sqrt: real -> real, i: int)
    requires steps >= 1 && |turns| == steps - 1
    requires forall k :: 0 <= k < |turns| ==> 0 <= turns[k] < 4
    requires IsSqrt(sqrt)
    requires 0 <= i < steps - 1
    ensures PathLengths(BrownianMotion2D(steps, length, start, turns), sqrt)[i] == Abs(length)
  {
    BrownianStepLength(steps, length, start, turns, i + 1);
    PathLengthOfSignedStep(BrownianMotion2D(steps, length, start, turns), sqrt, i, length);
  }

  /** Every path length of the uncorrelated walk is |length|. */
  lemma BrownianPathLengths(steps: int, length: real, start: Vec, turns: seq<int>, sqrt: real -> real)
    requires steps >= 1 && |turns| == steps - 1
    requires forall k :: 0 <= k < |turns| ==> 0 <= turns[k] < 4
    requires IsSqrt(sqrt)
    ensures var lengths := PathLengths(BrownianMotion2D(steps, length, start, turns), sqrt);
      |lengths| == steps - 1 && forall i :: 0 <= i < |lengths| ==> lengths[i] == Abs(length)
  {
    var path := BrownianMotion2D(steps, length, start, turns);
    forall i | 0 <= i < steps - 1
      ensures PathLengths(path, sqrt)[i] == Abs(length)
    {
      BrownianPathLength(steps, length, start, turns, sqrt, i);
    }
  }

  lemma CorrelatedPathLength(steps: int, length: real, start: Vec, turns: seq<real>, dir: real -> Vec,
                             sqrt: real -> real, i: int)
    requires steps >= 1 && |turns| == steps - 1
    requires IsUnitCircle(dir)
    requires IsSqrt(sqrt)
    requires 0 <= i < steps - 1
    ensures PathLengths(CorrelatedRandomWalk2D(steps, length, start, turns, dir), sqrt)[i] == Abs(length)
  {
    CorrelatedStepLength(steps, length, start, turns, dir, i + 1);
    PathLengthOfSignedStep(CorrelatedRandomWalk2D(steps, length, start, turns, dir), sqrt, i, length);
  }

  /** With a unit direction function, every path length of the correlated walk is |length|. */
  lemma CorrelatedPathLengths(steps: int, length: real, start: Vec, turns: seq<real>, dir: real -> Vec,
                              sqrt: real -> real)
    requires steps >= 1 && |turns| == steps - 1
    requires IsUnitCircle(dir)
    requires IsSqrt(sqrt)
    ensures var lengths := PathLengths(CorrelatedRandomWalk2D(steps, length, start, turns, dir), sqrt);
      |lengths| == steps - 1 && forall i :: 0 <= i < |lengths| ==> lengths[i] == Abs(length)
  {
    var path := CorrelatedRandomWalk2D(steps, length, start, turns, dir);
    forall i | 0 <= i < steps - 1
      ensures PathLengths(path, sqrt)[i] == Abs(length)
    {
      CorrelatedPathLength(steps, length, start, turns, dir, sqrt, i);
    }
  }

  lemma LevyPathLength(steps: int, start: Vec, turns: seq<real>, lengths: seq<real>, dir: real -> Vec,
                       sqrt: real -> real, i: int)
    requires steps >= 1 && |turns| == steps - 1 && |lengths| == steps - 1
    requires IsUnitCircle(dir)
    requires IsSqrt(sqrt)
    requires 0 <= i < steps - 1
    ensures PathLengths(LevyWalk2D(steps, start, turns, lengths, dir), sqrt)[i] == Abs(lengths[i])
  {
    LevyStepLength(steps, start, turns, lengths, dir, i + 1);
    PathLengthOfSignedStep(LevyWalk2D(steps, start, turns, lengths, dir), sqrt, i, lengths[i]);
  }

  /** With a unit direction function, path length i of the Levy walk is |lengths[i]|. */
  lemma LevyPathLengths(steps: int, start: Vec, turns: seq<real>, lengths: seq<real>, dir: real -> Vec,
                        sqrt: real -> real)
    requires steps >= 1 && |turns| == steps - 1 && |lengths| == steps - 1
    requires IsUnitCircle(dir)
    requires IsSqrt(sqrt)
    ensures var r := PathLengths(LevyWalk2D(steps, start, turns, lengths, dir), sqrt);
      |r| == steps - 1 && forall i :: 0 <= i < |r| ==> r[i] == Abs(lengths[i])
  {
    var path := LevyWalk2D(steps, start, turns, lengths, dir);
    forall i | 0 <= i < steps - 1
      ensures PathLengths(path, sqrt)[i] == Abs(lengths[i])
    {
      LevyPathLength(steps, start, turns, lengths, dir, sqrt, i);
    }
  }

  /** Steps i and i + 1 of the uncorrelated walk: the second is the first turned `turns[i + 1]` quarter turns. */
  lemma BrownianConsecutiveSteps(steps: int, length: real, start: Vec, turns: seq<int>, i: int)
    requires steps >= 1 && |turns| == steps - 1
    requires forall k :: 0 <= k < |turns| ==> 0 <= turns[k] < 4
    requires 0 <= i < steps - 2
    ensures var path := BrownianMotion2D(steps, length, start, turns);
      Sub(path[i + 2], path[i + 1]) == RotN(Sub(path[i + 1], path[i]), turns[i + 1])
  {
    var path, h := BrownianMotion2D(steps, length, start, turns), QuarterHeadings(turns);
    assert Sub(path[i + 1], path[i]) == Scale(length, AxisDir(h[i]));
    assert Sub(path[i + 2], path[i + 1]) == Scale(length, AxisDir(h[i + 1]));
    assert h[i + 1] == h[i] + turns[i + 1];
    AxisDirTurn(h[i], turns[i + 1]);
    ScaleRotN(length, AxisDir(h[i]), turns[i + 1]);
  }

  /** With a non-zero step length, no step of the uncorrelated walk is the zero vector. */
  lemma BrownianStepNonZero(steps: int, length: real, start: Vec, turns: seq<int>, i: int)
    requires steps >= 1 && |turns| == steps - 1
    requires forall k :: 0 <= k < |turns| ==> 0 <= turns[k] < 4
    requires length != 0.0
    requires 0 <= i < steps - 1
    ensures var path := BrownianMotion2D(steps, length, start, turns);
      Sub(path[i + 1], path[i]) != Origin
  {
    var path, h := BrownianMotion2D(steps, length, start, turns), QuarterHeadings(turns);
    assert Sub(path[i + 1], path[i]) == Scale(length, AxisDir(h[i]));
    AxisDirNonZero(h[i]);
    ScaleNonZero(length, AxisDir(h[i]));
  }

  /**
   * With a non-zero step length, the turning angles of the uncorrelated walk
   * give back its quarter-turn draws: angle i is draw i + 1, as an angle in (-pi, pi].
   */
  lemma BrownianTurningAngle(steps: int, length: real, start: Vec, turns: seq<int>,
                             atan2: (real, real) -> real, pi: real, i: int)
    requires steps >= 1 && |turns| == steps - 1
    requires forall k :: 0 <= k < |turns| ==> 0 <= turns[k] < 4
    requires IsAtan2(atan2, pi)
    requires length != 0.0
    requires 0 <= i < steps - 2
    ensures TurningAngles(BrownianMotion2D(steps, length, start, turns), atan2)[i] == QuarterTurnAngle(turns[i + 1], pi)
  {
    var path := BrownianMotion2D(steps, length, start, turns);
    BrownianConsecutiveSteps(steps, length, start, turns, i);
    BrownianStepNonZero(steps, length, start, turns, i);
    QuarterTurnAngles(path, atan2, pi, i, turns[i + 1]);
  }
}
