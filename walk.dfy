/**
 * Trajectory generators of random_walk/walk.py.
 *
 * All three generators share one integration rule: a running sum of the
 * heading draws gives absolute headings, each heading becomes a direction
 * vector scaled by a step length, the start point is prepended, and a
 * running sum of that vector list gives the positions.  The random draws
 * are inputs here; cos and sin enter as a function `dir` from a heading to
 * its direction vector (cos h, sin h), constrained only where a lemma needs
 * it (IsUnitCircle).  The uncorrelated walk needs no trigonometry at all:
 * its headings are whole numbers of quarter turns.
 */
module Walk {
  import opened Geometry

  /**
   * Running sum as `np.cumsum` computes it: the first entry is the first
   * element, every later entry adds the next element to the previous entry.
   */
  function CumSum<T>(s: seq<T>, plus: (T, T) -> T): (r: seq<T>)
    ensures |r| == |s|
    ensures |s| > 0 ==> r[0] == s[0]
    ensures forall i :: 0 < i < |s| ==> r[i] == plus(r[i - 1], s[i])
    decreases |s|
  {
    if |s| == 0 then []
    else
      var p := CumSum(s[..|s| - 1], plus);
      p + [if |p| == 0 then s[0] else plus(p[|p| - 1], s[|s| - 1])]
  }

  /** Vector sum of a list of steps, folded from the front. */
  function VecSum(vs: seq<Vec>): Vec
    decreases |vs|
  {
    if |vs| == 0 then Origin else Add(vs[0], VecSum(vs[1..]))
  }

  /**
   * Prepend the start point to the step vectors and take the running sum
   * (`np.vstack([start, velocities])` then `np.cumsum(..., axis=0)`).
   */
  function Integrate(start: Vec, velocities: seq<Vec>): (path: seq<Vec>)
    ensures |path| == |velocities| + 1
    ensures path[0] == start
    ensures forall i :: 0 < i < |path| ==> Sub(path[i], path[i - 1]) == velocities[i - 1]
  {
    CumSum([start] + velocities, Add)
  }

  /** Absolute headings in radians: the running sum of the turn draws. */
  function Headings(turns: seq<real>): (h: seq<real>)
    ensures |h| == |turns|
    ensures |turns| > 0 ==> h[0] == turns[0]
    ensures forall i :: 0 < i < |turns| ==> h[i] == h[i - 1] + turns[i]
  {
    CumSum(turns, (a: real, b: real) => a + b)
  }

  /** Absolute headings of the uncorrelated walk, counted in quarter turns. */
  function QuarterHeadings(turns: seq<int>): (h: seq<int>)
    ensures |h| == |turns|
    ensures |turns| > 0 ==> h[0] == turns[0]
    ensures forall i :: 0 < i < |turns| ==> h[i] == h[i - 1] + turns[i]
  {
    CumSum(turns, (a: int, b: int) => a + b)
  }

  /** cos(h * pi / 2) for a heading of `h` quarter turns. */
  function AxisCos(h: int): real
  {
    match h % 4
    case 0 => 1.0
    case 1 => 0.0
    case 2 => -1.0
    case _ => 0.0
  }

  /** sin(h * pi / 2) for a heading of `h` quarter turns. */
  function AxisSin(h: int): real
  {
    match h % 4
    case 0 => 0.0
    case 1 => 1.0
    case 2 => 0.0
    case _ => -1.0
  }

  /**
   * (cos, sin) of a heading of `h` quarter turns, that is of h * pi / 2:
   * one of the four axis unit vectors.
   */
  function AxisDir(h: int): Vec
  {
    Vec(AxisCos(h), AxisSin(h))
  }

  /** Every quarter-turn direction is an axis-aligned unit vector. */
  lemma AxisDirUnit(h: int)
    ensures Norm2(AxisDir(h)) == 1.0
    ensures AxisDir(h).x == 0.0 || AxisDir(h).y == 0.0
  {
  }

  /** One more quarter turn rotates the direction a quarter turn counter-clockwise. */
  lemma AxisDirQuarterTurn(h: int)
    ensures AxisDir(h + 1) == Rot(AxisDir(h))
  {
    var q, r := h / 4, h % 4;
    assert h == 4 * q + r;
    if r < 3 {
      assert h + 1 == 4 * q + (r + 1);
      assert (h + 1) % 4 == r + 1;
    } else {
      assert h + 1 == 4 * (q + 1);
      assert (h + 1) % 4 == 0;
    }
  }

  /** `t` more quarter turns rotate the direction `t` quarter turns counter-clockwise. */
  lemma {:induction false} AxisDirTurn(h: int, t: nat)
    ensures AxisDir(h + t) == RotN(AxisDir(h), t)
  {
    if t > 0 {
      AxisDirTurn(h, t - 1);
      AxisDirQuarterTurn(h + (t - 1));
    }
  }

  /** No quarter-turn direction is the zero vector. */
  lemma AxisDirNonZero(h: int)
    ensures AxisDir(h) != Origin
  {
  }

  /** Direction vectors of a list of headings (`np.column_stack([np.cos(h), np.sin(h)])`). */
  function Directions(headings: seq<real>, dir: real -> Vec): seq<Vec>
  {
    seq(|headings|, i requires 0 <= i < |headings| => dir(headings[i]))
  }

  /** Every direction vector scaled by the same length (`velocities *= length`). */
  function ScaleAll(length: real, dirs: seq<Vec>): seq<Vec>
  {
    seq(|dirs|, i requires 0 <= i < |dirs| => Scale(length, dirs[i]))
  }

  /** Each direction vector scaled by its own length (`velocities *= lengths.reshape(-1, 1)`). */
  function ScaleEach(lengths: seq<real>, dirs: seq<Vec>): seq<Vec>
    requires |lengths| == |dirs|
  {
    seq(|dirs|, i requires 0 <= i < |dirs| => Scale(lengths[i], dirs[i]))
  }

  /** `dir` maps every heading to a unit vector: cos^2 + sin^2 = 1. */
  ghost predicate IsUnitCircle(dir: real -> Vec)
  {
    forall h :: Norm2(dir(h)) == 1.0
  }

  lemma UnitDirection(dir: real -> Vec, h: real)
    requires IsUnitCircle(dir)
    ensures Norm2(dir(h)) == 1.0
  {
  }

  /**
   * brownian_motion_2d: `steps - 1` turns drawn from the four quarter turns
   * {0, pi/2, pi, 3 pi/2} (given as 0..3), constant step length.
   */
  function BrownianMotion2D(steps: int, length: real := 1.0, start: Vec := Origin, turns: seq<int>): (path: seq<Vec>)
    requires steps >= 1 && |turns| == steps - 1
    requires forall i :: 0 <= i < |turns| ==> 0 <= turns[i] < 4
    ensures |path| == steps && path[0] == start
    ensures forall i {:trigger Sub(path[i], path[i - 1])} :: 0 < i < steps ==>
      Sub(path[i], path[i - 1]) == Scale(length, AxisDir(QuarterHeadings(turns)[i - 1]))
  {
    var headings := QuarterHeadings(turns);
    var dirs := seq(|headings|, i requires 0 <= i < |headings| => AxisDir(headings[i]));
    Integrate(start, ScaleAll(length, dirs))
  }

  /** correlated_random_walk_2d: wrapped-Cauchy turns given as `turns`, constant step length. */
  function CorrelatedRandomWalk2D(steps: int, length: real := 1.0, start: Vec := Origin, turns: seq<real>, dir: real -> Vec)
    : (path: seq<Vec>)
    requires steps >= 1 && |turns| == steps - 1
    ensures |path| == steps && path[0] == start
    ensures forall i {:trigger Sub(path[i], path[i - 1])} :: 0 < i < steps ==>
      Sub(path[i], path[i - 1]) == Scale(length, dir(Headings(turns)[i - 1]))
  {
    Integrate(start, ScaleAll(length, Directions(Headings(turns), dir)))
  }

  /** levy_walk_2d: wrapped-Cauchy turns and stable-distributed step lengths, both given. */
  function LevyWalk2D(steps: int, start: Vec := Origin, turns: seq<real>, lengths: seq<real>, dir: real -> Vec)
    : (path: seq<Vec>)
    requires steps >= 1 && |turns| == steps - 1 && |lengths| == steps - 1
    ensures |path| == steps && path[0] == start
    ensures forall i {:trigger Sub(path[i], path[i - 1])} :: 0 < i < steps ==>
      Sub(path[i], path[i - 1]) == Scale(lengths[i - 1], dir(Headings(turns)[i - 1]))
  {
    Integrate(start, ScaleEach(lengths, Directions(Headings(turns), dir)))
  }

  // Properties of the integration rule.

  lemma {:induction false} VecSumSnoc(vs: seq<Vec>, v: Vec)
    ensures VecSum(vs + [v]) == Add(VecSum(vs), v)
    decreases |vs|
  {
    if |vs| == 0 {
      assert [] + [v] == [v];
    } else {
      assert (vs + [v])[1..] == vs[1..] + [v];
      VecSumSnoc(vs[1..], v);
    }
  }

  /** Every position is the start plus the sum of the steps taken so far. */
  lemma {:induction false} IntegrateClosedForm(start: Vec, velocities: seq<Vec>, i: nat)
    requires i <= |velocities|
    ensures Integrate(start, velocities)[i] == Add(start, VecSum(velocities[..i]))
  {
    var path := Integrate(start, velocities);
    if i == 0 {
      assert velocities[..0] == [];
    } else {
      IntegrateClosedForm(start, velocities, i - 1);
      assert velocities[..i] == velocities[..i - 1] + [velocities[i - 1]];
      VecSumSnoc(velocities[..i - 1], velocities[i - 1]);
    }
  }

  // The uncorrelated walk lives on a square lattice.

  /** The point `start + length * (a, b)`. */
  function LatticePoint(start: Vec, length: real, a: int, b: int): Vec
  {
    Vec(start.x + length * (a as real), start.y + length * (b as real))
  }

  ghost predicate OnLattice(p: Vec, start: Vec, length: real)
  {
    exists a: int, b: int :: p == LatticePoint(start, length, a, b)
  }

  lemma LatticeNeighbour(start: Vec, length: real, a: int, b: int, h: int)
    ensures Add(LatticePoint(start, length, a, b), Scale(length, AxisDir(h))) ==
      match h % 4
      case 0 => LatticePoint(start, length, a + 1, b)
      case 1 => LatticePoint(start, length, a, b + 1)
      case 2 => LatticePoint(start, length, a - 1, b)
      case _ => LatticePoint(start, length, a, b - 1)
  {
  }

  lemma {:induction false} BrownianPointOnLattice(steps: int, length: real, start: Vec, turns: seq<int>, i: int)
    requires steps >= 1 && |turns| == steps - 1
    requires forall k :: 0 <= k < |turns| ==> 0 <= turns[k] < 4
    requires 0 <= i < steps
    ensures OnLattice(BrownianMotion2D(steps, length, start, turns)[i], start, length)
  {
    var path := BrownianMotion2D(steps, length, start, turns);
    if i == 0 {
      assert path[0] == LatticePoint(start, length, 0, 0);
    } else {
      BrownianPointOnLattice(steps, length, start, turns, i - 1);
      var a: int, b: int :| path[i - 1] == LatticePoint(start, length, a, b);
      var h := QuarterHeadings(turns)[i - 1];
      assert path[i] == Add(path[i - 1], Scale(length, AxisDir(h)));
      LatticeNeighbour(start, length, a, b, h);
    }
  }

  /** Every position of the uncorrelated walk is `start + length * (a, b)` for whole numbers a, b. */
  lemma BrownianOnLattice(steps: int, length: real, start: Vec, turns: seq<int>)
    requires steps >= 1 && |turns| == steps - 1
    requires forall k :: 0 <= k < |turns| ==> 0 <= turns[k] < 4
    ensures forall i :: 0 <= i < steps ==> OnLattice(BrownianMotion2D(steps, length, start, turns)[i], start, length)
  {
    forall i | 0 <= i < steps
      ensures OnLattice(BrownianMotion2D(steps, length, start, turns)[i], start, length)
    {
      BrownianPointOnLattice(steps, length, start, turns, i);
    }
  }

  // Step lengths.

  /** Each step of the uncorrelated walk is axis-aligned and has squared length `length * length`. */
  lemma BrownianStepLength(steps: int, length: real, start: Vec, turns: seq<int>, i: int)
    requires steps >= 1 && |turns| == steps - 1
    requires forall k :: 0 <= k < |turns| ==> 0 <= turns[k] < 4
    requires 0 < i < steps
    ensures var step := Sub(BrownianMotion2D(steps, length, start, turns)[i], BrownianMotion2D(steps, length, start, turns)[i - 1]);
      (step.x == 0.0 || step.y == 0.0) && Norm2(step) == length * length
  {
    var u := AxisDir(QuarterHeadings(turns)[i - 1]);
    AxisDirUnit(QuarterHeadings(turns)[i - 1]);
    ScaleNorm2(length, u);
  }

  /**
   * With `length` and `start` left at their defaults (1.0 and the origin),
   * the uncorrelated walk starts at the origin and takes unit steps.
   */
  lemma BrownianDefaults(steps: int, turns: seq<int>, i: int)
    requires steps >= 1 && |turns| == steps - 1
    requires forall k :: 0 <= k < |turns| ==> 0 <= turns[k] < 4
    requires 0 < i < steps
    ensures var path := BrownianMotion2D(steps, turns := turns);
      path[0] == Origin && Norm2(Sub(path[i], path[i - 1])) == 1.0
  {
    BrownianStepLength(steps, 1.0, Origin, turns, i);
  }

  /** With a unit direction function, each step of the correlated walk has squared length `length * length`. */
  lemma CorrelatedStepLength(steps: int, length: real, start: Vec, turns: seq<real>, dir: real -> Vec, i: int)
    requires steps >= 1 && |turns| == steps - 1
    requires IsUnitCircle(dir)
    requires 0 < i < steps
    ensures var path := CorrelatedRandomWalk2D(steps, length, start, turns, dir);
      Norm2(Sub(path[i], path[i - 1])) == length * length
  {
    var path := CorrelatedRandomWalk2D(steps, length, start, turns, dir);
    var u := dir(Headings(turns)[i - 1]);
    UnitDirection(dir, Headings(turns)[i - 1]);
    assert Sub(path[i], path[i - 1]) == Scale(length, u);
    ScaleNorm2(length, u);
  }

  /** With a unit direction function, step i of the Levy walk has squared length `lengths[i-1]` squared. */
  lemma LevyStepLength(steps: int, start: Vec, turns: seq<real>, lengths: seq<real>, dir: real -> Vec, i: int)
    requires steps >= 1 && |turns| == steps - 1 && |lengths| == steps - 1
    requires IsUnitCircle(dir)
    requires 0 < i < steps
    ensures var path := LevyWalk2D(steps, start, turns, lengths, dir);
      Norm2(Sub(path[i], path[i - 1])) == lengths[i - 1] * lengths[i - 1]
  {
    var path := LevyWalk2D(steps, start, turns, lengths, dir);
    var u := dir(Headings(turns)[i - 1]);
    UnitDirection(dir, Headings(turns)[i - 1]);
    assert Sub(path[i], path[i - 1]) == Scale(lengths[i - 1], u);
    ScaleNorm2(lengths[i - 1], u);
  }
}
