# random_walk in Dafny

The model covers the two leaf modules of `random_walk`:

- `random_walk/walk.py` holds three generators of 2-D trajectories:
  - `brownian_motion_2d`: quarter turns, constant step length;
  - `correlated_random_walk_2d`: wrapped-Cauchy turns, constant step length;
  - `levy_walk_2d`: wrapped-Cauchy turns, stable-distributed step lengths.
- `random_walk/metric.py` holds three trajectory metrics:
  - `path_lengths`;
  - `mean_squared_displacement`: the overlapping-window estimator;
  - `turning_angles`.

All values are mathematical reals.

- A trajectory is a `seq<Vec>`. Row index = step number, `Vec(x, y)` = the "x" and "y" columns.
- The random draws are inputs:
  - quarter-turn counts 0..3 for the Brownian walk;
  - real turns and step lengths for the other two.
- `cos`/`sin`, `sqrt` and `atan2` are function parameters. Ghost predicates state what the proofs assume of them:
  - `IsUnitCircle`: cos² + sin² = 1;
  - `IsSqrt`: the non-negative root;
  - `IsAtan2`: the range (-pi, pi] over exact reals, with no signed zeros, and the values on the axes.
- The generators keep the source's defaults: `length := 1.0` and `start := Origin`.
- The Brownian walk needs no trigonometry. Its headings are whole numbers of quarter turns, and `AxisDir(h)` is (cos, sin) of `h * pi / 2`.

Modules:

- `Geometry` (`geometry.dfy`): plane vectors, dot and cross terms, quarter-turn rotation.
- `Walk` (`walk.dfy`): running sums, headings and the three generators. Each generator is one integration rule: running sum of turns, direction times length, prepend start, running sum of rows.
- `Metric` (`metric.dfy`): the three metrics. `MeanSquaredDisplacement` is an imperative method that fills a buffer in a loop, as the source does.
- `WalkMetrics` (`walk_metrics.dfy`): how the metrics see the generated walks.
  - `np.diff` and the integration rule are inverse to each other.
  - The path lengths are the absolute values of the step lengths. For the correlated and Levy walks this holds given cos² + sin² = 1.
  - With a non-zero length, turning angle i of the Brownian walk gives back draw i+1, so every draw but the first comes back.

## Model

| member | source | states |
|---|---|---|
| Walk.CumSum | random_walk/walk.py:25 | `np.cumsum`: same length, first entry = first element, entry i = entry i-1 combined with element i |
| Walk.Integrate | random_walk/walk.py:34-37 | `vstack([start, v])` then cumsum: one row more than the velocities, row 0 = start, row i - row i-1 = velocity i-1 |
| Walk.Headings | random_walk/walk.py:65 | cumulative headings: heading 0 = turn 0, heading i = heading i-1 + turn i, so turns are relative |
| Walk.QuarterHeadings | random_walk/walk.py:22-25 | the same running sum over quarter-turn counts |
| Walk.VecSum | random_walk/walk.py:37 | no contract of its own: the sum of a block of velocities, the closed form that Walk.IntegrateClosedForm ties to Walk.Integrate |
| Walk.AxisCos | random_walk/walk.py:28 | no contract of its own: `np.cos` of h quarter turns (1, 0, -1, 0 by h mod 4); Walk.AxisDirUnit and Walk.AxisDirQuarterTurn state its properties |
| Walk.AxisSin | random_walk/walk.py:28 | no contract of its own: `np.sin` of h quarter turns (0, 1, 0, -1 by h mod 4); Walk.AxisDirUnit and Walk.AxisDirQuarterTurn state its properties |
| Walk.AxisDir | random_walk/walk.py:28 | no contract of its own: the direction (cos, sin) of h quarter turns; Walk.AxisDirUnit, Walk.AxisDirQuarterTurn, Walk.AxisDirTurn and Walk.AxisDirNonZero state its properties |
| Walk.Directions | random_walk/walk.py:68 | no contract of its own: `np.column_stack([np.cos(h), np.sin(h)])`, also at walk.py:111; Walk.CorrelatedRandomWalk2D and Walk.LevyWalk2D state the resulting steps, Walk.CorrelatedStepLength and Walk.LevyStepLength their lengths |
| Walk.ScaleAll | random_walk/walk.py:31 | no contract of its own: `velocities *= length`, also at walk.py:71; the generators' step ensures state its effect |
| Walk.ScaleEach | random_walk/walk.py:118 | no contract of its own: `velocities *= lengths.reshape(-1, 1)`; Walk.LevyWalk2D's step ensures states its effect |
| Walk.AxisDirUnit | random_walk/walk.py:28 | (cos, sin) of a multiple of pi/2 is an axis-aligned unit vector |
| Walk.AxisDirQuarterTurn | random_walk/walk.py:22-28 | one more quarter turn of heading turns the direction a quarter turn counter-clockwise |
| Walk.AxisDirTurn | random_walk/walk.py:22-28 | t more quarter turns of heading turn the direction t quarter turns |
| Walk.AxisDirNonZero | random_walk/walk.py:28 | no quarter-turn direction is the zero vector |
| Walk.BrownianMotion2D | random_walk/walk.py:22-37 | `steps` rows, row 0 = start, step i-1→i = `length` times the axis direction of cumulative heading i-1 |
| Walk.CorrelatedRandomWalk2D | random_walk/walk.py:62-77 | `steps` rows, row 0 = start, step i-1→i = `length` times (cos, sin) of cumulative heading i-1 |
| Walk.LevyWalk2D | random_walk/walk.py:105-124 | `steps` rows, row 0 = start, step i-1→i = `lengths[i-1]` times (cos, sin) of cumulative heading i-1 |
| Walk.BrownianDefaults | random_walk/walk.py:6-37 | with `length` and `start` left at their defaults, the Brownian walk starts at the origin and takes unit steps |
| Walk.IntegrateClosedForm | random_walk/walk.py:34-37 | position i = start + sum of the first i velocities |
| Walk.LatticeNeighbour | random_walk/walk.py:28-37 | a quarter-turn step from lattice point (a, b) lands on one of its four lattice neighbours |
| Walk.BrownianPointOnLattice | random_walk/walk.py:22-37 | row i of the Brownian walk is `start + length * (a, b)` for whole numbers a, b (induction over i) |
| Walk.BrownianOnLattice | random_walk/walk.py:22-37 | every row of the Brownian walk lies on the lattice `start + length·Z²` |
| Walk.BrownianStepLength | random_walk/walk.py:22-31 | each Brownian step is axis-aligned with squared length `length²` |
| Walk.CorrelatedStepLength | random_walk/walk.py:65-71 | each correlated-walk step has squared length `length²` |
| Walk.LevyStepLength | random_walk/walk.py:108-118 | Levy step i has squared length `lengths[i-1]²` |
| Metric.Steps | random_walk/metric.py:15 | `np.diff(axis=0)`: N-1 entries (none for an empty path), entry i = row i+1 - row i |
| Metric.PathLengths | random_walk/metric.py:5-18 | N-1 entries, each non-negative with square = squared distance between rows i and i+1 |
| Metric.Norm | random_walk/metric.py:18 | the Euclidean norm is non-negative and squares to the squared length |
| Metric.PathLengthOfStep | random_walk/metric.py:15-18 | a step of squared length l², l >= 0, has path length exactly l |
| Metric.StationaryStepLength | random_walk/metric.py:15-18 | a repeated row gives path length 0 |
| Metric.PathLengthsOfStationary | random_walk/metric.py:15-18 | a trajectory whose rows are all equal has all path lengths 0 |
| Metric.Displacements | random_walk/metric.py:40 | `values[d:] - values[:-d]`: N-d entries, entry i = row i+d - row i |
| Metric.SquareComponents | random_walk/metric.py:43 | no contract of its own: `displacements **= 2` on one row; Metric.RowSumOfSquares ties it to the squared length |
| Metric.RowSum | random_walk/metric.py:46 | no contract of its own: `np.sum(..., axis=1)` on one row; Metric.RowSumOfSquares ties it to the squared length |
| Metric.Mean | random_walk/metric.py:49 | no contract of its own: `np.mean`, the sum divided by the count; Metric.MsdNonNegative, Metric.MsdLagOne and Metric.MsdLastLag use it |
| Metric.SquaredDisplacements | random_walk/metric.py:40-46 | no contract of its own: the reference list of squared distances of the pairs (i, i+d); Metric.SquaredDisplacementsNonNegative and Metric.SquaredDisplacementsOfStationary state its properties |
| Metric.Msd | random_walk/metric.py:40-49 | no contract of its own: the reference overlapping-window estimator, the mean of Metric.SquaredDisplacements; Metric.MeanSquaredDisplacement's ensures is stated in it, and Metric.MsdNonNegative, Metric.MsdOfStationary, Metric.MsdLagOne and Metric.MsdLastLag state its properties |
| Metric.LagMean | random_walk/metric.py:40-49 | no contract of its own: one pass of the loop body (displacements, `**= 2`, row sums, mean); Metric.LagMeanIsMsd ties it to Metric.Msd |
| Metric.RowSumOfSquares | random_walk/metric.py:43-46 | squaring each component and summing the row gives the squared length |
| Metric.LagMeanIsMsd | random_walk/metric.py:40-49 | the loop body at lag d equals the mean over all N-d pairs (i, i+d) of the squared displacement |
| Metric.MeanSquaredDisplacement | random_walk/metric.py:21-51 | returns N-1 entries, entry d-1 = overlapping-window MSD at lag d, for every lag 1..N-1 |
| Metric.SquaredDisplacementsNonNegative | random_walk/metric.py:40-46 | every squared displacement is >= 0 |
| Metric.MsdNonNegative | random_walk/metric.py:40-49 | every MSD entry is >= 0 |
| Metric.SquaredDisplacementsOfStationary | random_walk/metric.py:40-46 | a constant trajectory has all squared displacements 0 |
| Metric.MsdOfStationary | random_walk/metric.py:40-49 | a constant trajectory has MSD 0 at every lag |
| Metric.SquaredPathLength | random_walk/metric.py:15-18 | the square of path length i is the lag-1 squared displacement i |
| Metric.MsdLagOne | random_walk/metric.py:37-49 | MSD at lag 1 = mean of the squared path lengths |
| Metric.MsdLastLag | random_walk/metric.py:37-49 | MSD at lag N-1 = squared distance from the first row to the last (one pair) |
| Metric.TurningAngles | random_walk/metric.py:54-76 | N-2 entries (none below 2 rows), entry i = atan2(cross, dot) of step i and step i+1; the cross term is the determinant of the stacked pair |
| Metric.TurningAnglesRange | random_walk/metric.py:73-76 | every turning angle lies in (-pi, pi] |
| Geometry.Dot | random_walk/metric.py:75 | no contract of its own: `np.vecdot` of one pair of steps; Metric.TurningAngles's ensures states each angle's second argument as this dot term |
| Metric.Det | random_walk/metric.py:74 | no contract of its own: `np.linalg.det` of a 2x2 matrix; Metric.TurningAngles's ensures states the determinant of each stacked pair as the cross term |
| Metric.StraightPathAngles | random_walk/metric.py:63-76 | steps all pointing the same way along one line give angle 0 everywhere |
| Metric.ReversingPathAngles | random_walk/metric.py:63-76 | steps along one line that flip direction at every step give angle pi everywhere |
| Metric.StationaryStepAngle | random_walk/metric.py:63-76 | a zero step on either side gives angle 0 (atan2(0, 0) = 0) |
| Metric.ReversedPathTurns | random_walk/metric.py:63-76 | walking the path backwards negates the cross term and keeps the dot term of every turn |
| Metric.QuarterTurnAngles | random_walk/metric.py:63-76 | a non-zero step followed by itself turned t quarter turns has angle 0, pi/2, pi or -pi/2 for t = 0..3 |
| Metric.PerpendicularTurn | random_walk/metric.py:63-76 | perpendicular steps give +pi/2 for a counter-clockwise turn and -pi/2 for a clockwise one |
| Metric.QuarterTurnExample | random_walk/metric.py:5-76 | the path (0,0), (1,0), (1,1) has path lengths [1, 1], MSD 1 at lag 1 and 2 at lag 2, and turning angles [pi/2] |
| Metric.RightThenUpMetrics | random_walk/metric.py:5-76 | the same three results hold for any trajectory, from any start, that steps one unit right and then one unit up |
| Metric.LeftTurnAngle | random_walk/metric.py:63-76 | three rows with perpendicular steps and a positive cross term have the single turning angle pi/2 |
| Geometry.SwapTurn | random_walk/metric.py:67-75 | swapping a and b negates the cross term and keeps the dot term |
| Geometry.CollinearTurn | random_walk/metric.py:67-75 | collinear steps: cross 0, dot with the sign of the product of their signed lengths |
| Geometry.NoTurn | random_walk/metric.py:67-75 | a step against itself: cross 0, dot = squared length |
| Geometry.LeftTurn | random_walk/metric.py:67-75 | a step against its left quarter turn: cross = squared length, dot 0 |
| Geometry.Reversal | random_walk/metric.py:67-75 | a step against its reversal: cross 0, dot = minus the squared length |
| Geometry.RightTurn | random_walk/metric.py:67-75 | a step against its right quarter turn: cross = minus the squared length, dot 0 |
| WalkMetrics.StepsOfIntegrate | random_walk/walk.py:34-37 | `np.diff` of an integrated trajectory gives back the velocities |
| WalkMetrics.IntegrateOfSteps | random_walk/metric.py:15 | integrating the step vectors from row 0 rebuilds the trajectory |
| WalkMetrics.BrownianPathLengths | random_walk/walk.py:22-37 | the Brownian walk has steps-1 path lengths, each = abs(length) |
| WalkMetrics.CorrelatedPathLengths | random_walk/walk.py:62-77 | with unit directions the correlated walk has steps-1 path lengths, each = abs(length) |
| WalkMetrics.LevyPathLengths | random_walk/walk.py:105-124 | with unit directions, path length i of the Levy walk = abs(lengths[i]) |
| WalkMetrics.BrownianConsecutiveSteps | random_walk/walk.py:22-31 | Brownian step i+1 is step i turned by draw turns[i+1] quarter turns |
| WalkMetrics.BrownianStepNonZero | random_walk/walk.py:28-31 | with length != 0 no Brownian step is the zero vector |
| WalkMetrics.BrownianTurningAngle | random_walk/walk.py:22-37 | with length != 0, turning angle i of the Brownian walk is draw i+1 (0, pi/2, pi, 3pi/2) read in (-pi, pi] |

## Left out

- Random sampling is not modelled: `np.random.choice`, `wrapcauchy.rvs` and `levy_stable.rvs`. The draws are inputs, and their distributions, the parameters `c`, `alpha`, `beta`, `m` and seeding are outside the model.
- Floating point is not modelled. Everything is over exact reals. The Brownian headings are exact quarter-turn counts, whereas the source's float multiples of pi/2 give cos/sin values that are only close to 0 and ±1.
- `np.cos`/`np.sin`, `np.sqrt` and `np.atan2` are function parameters, not implementations. Each lemma assumes only the properties in `IsUnitCircle`, `IsSqrt` or `IsAtan2` it needs.
- `random_walk/plot.py` (plotly adapter) and `random_walk/__init__.py` (re-exports) are not part of this model.
- pandas `DataFrame` wrapping and the column names "x", "y" are not modelled. A trajectory is a `seq<Vec>`.
- Parameter validation: the code checks none of its parameters, and the model follows the code.
  - The generators and `MeanSquaredDisplacement` require `steps >= 1` and `|path| >= 1`, where numpy itself fails (`size=-1`, `np.zeros(-1)`).
  - `PathLengths` and `TurningAngles` accept short trajectories and return empty sequences, as numpy does.
- The in-place updates `velocities *= length`, `*= lengths.reshape(-1, 1)` and `displacements **= 2` act on fresh locals. They are modelled as maps over sequences: `ScaleAll`, `ScaleEach`, `SquareComponents`.
- `MeanSquaredDisplacement` returns the buffer's contents as a sequence rather than a numpy array.
- WalkMetrics.LevyPathLengths: states `abs(lengths[i])`, because a stable draw with location `m` can be negative. A negative length flips the direction.
- Metric.ReversingPathAngles / Metric.TurningAnglesRange: signed zeros and rounding are not modelled. Over floats `np.linalg.det` can return a zero or tiny negative determinant for antiparallel steps, and `np.atan2` of it with x < 0 is -pi. There the source returns -pi where the model returns pi, and the source's range is [-pi, pi] rather than (-pi, pi].
