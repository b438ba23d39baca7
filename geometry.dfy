/**
 * Plane vectors over the reals: the rows of a trajectory (its "x" and "y"
 * columns) and the step vectors derived from them.
 */
module Geometry {

  datatype Vec = Vec(x: real, y: real)

  const Origin := Vec(0.0, 0.0)

  function Add(a: Vec, b: Vec): Vec
  {
    Vec(a.x + b.x, a.y + b.y)
  }

  function Sub(a: Vec, b: Vec): Vec
  {
    Vec(a.x - b.x, a.y - b.y)
  }

  function Scale(k: real, v: Vec): Vec
  {
    Vec(k * v.x, k * v.y)
  }

  /** Adding back the difference `p - q` to `q` gives `p`. */
  lemma AddSub(p: Vec, q: Vec)
    ensures Add(q, Sub(p, q)) == p
  {
  }

  /** Inner product, as `np.vecdot` computes it row by row. */
  function Dot(a: Vec, b: Vec): real
  {
    a.x * b.x + a.y * b.y
  }

  /** Scalar cross product: positive when `b` lies counter-clockwise of `a`. */
  function Cross(a: Vec, b: Vec): real
  {
    a.x * b.y - a.y * b.x
  }

  /** Squared Euclidean length: the sum of the squared components. */
  function Norm2(v: Vec): real
  {
    v.x * v.x + v.y * v.y
  }

  // Scalar facts, kept apart so that each proof obligation holds one
  // nonlinear step at most.

  lemma Square(a: real)
    ensures a * a >= 0.0
  {
  }

  lemma ZeroProduct(a: real, b: real)
    requires a * b == 0.0
    ensures a == 0.0 || b == 0.0
  {
  }

  lemma PositiveProduct(a: real, b: real)
    requires a > 0.0 && b > 0.0
    ensures a * b > 0.0
  {
  }

  lemma BothZero(p: real, q: real)
    requires p >= 0.0 && q >= 0.0 && p + q == 0.0
    ensures p == 0.0 && q == 0.0
  {
  }

  lemma SumOfSquaresZero(a: real, b: real)
    requires a * a + b * b == 0.0
    ensures a == 0.0 && b == 0.0
  {
    Square(a);
    Square(b);
    BothZero(a * a, b * b);
    ZeroProduct(a, a);
    ZeroProduct(b, b);
  }

  /** Two non-negative reals with equal squares are equal: the square root is unique. */
  lemma NonNegativeRootUnique(r: real, l: real)
    requires r >= 0.0 && l >= 0.0 && r * r == l * l
    ensures r == l
  {
    assert (r - l) * (r + l) == r * r - l * l;
    if r + l != 0.0 {
      ZeroProduct(r - l, r + l);
    }
  }

  /** A squared length is never negative. */
  lemma Norm2NonNegative(v: Vec)
    ensures Norm2(v) >= 0.0
  {
    Square(v.x);
    Square(v.y);
  }

  /** Only the zero vector has squared length zero. */
  lemma Norm2Zero(v: Vec)
    ensures Norm2(v) == 0.0 <==> v == Origin
  {
    if Norm2(v) == 0.0 {
      SumOfSquaresZero(v.x, v.y);
    }
  }

  /** The step from a point to itself is the zero vector, of squared length zero. */
  lemma SubSelf(p: Vec)
    ensures Sub(p, p) == Origin
    ensures Norm2(Sub(p, p)) == 0.0
  {
  }

  /** Swapping the two vectors negates the cross term and keeps the dot term. */
  lemma SwapTurn(a: Vec, b: Vec)
    ensures Cross(b, a) == -Cross(a, b)
    ensures Dot(b, a) == Dot(a, b)
  {
  }

  /** Scaling a vector by `k` scales its squared length by `k * k`. */
  lemma ScaleNorm2(k: real, v: Vec)
    ensures Norm2(Scale(k, v)) == k * k * Norm2(v)
  {
  }

  /**
   * Two steps along the same line `u`: the cross term vanishes and the dot
   * term has the sign of the product of the two signed lengths.
   */
  lemma CollinearTurn(j: real, k: real, u: Vec)
    requires u != Origin
    ensures Cross(Scale(j, u), Scale(k, u)) == 0.0
    ensures Dot(Scale(j, u), Scale(k, u)) == j * k * Norm2(u)
    ensures j * k > 0.0 ==> Dot(Scale(j, u), Scale(k, u)) > 0.0
    ensures j * k < 0.0 ==> Dot(Scale(j, u), Scale(k, u)) < 0.0
  {
    Norm2NonNegative(u);
    Norm2Zero(u);
    var n := Norm2(u);
    if j * k > 0.0 {
      PositiveProduct(j * k, n);
    } else if j * k < 0.0 {
      PositiveProduct(-(j * k), n);
    }
  }

  /** The vector turned a quarter turn counter-clockwise. */
  function Rot(u: Vec): Vec
  {
    Vec(-u.y, u.x)
  }

  /** The vector turned `t` quarter turns counter-clockwise. */
  function RotN(u: Vec, t: nat): Vec
  {
    if t == 0 then u else Rot(RotN(u, t - 1))
  }

  /** Turning commutes with scaling. */
  lemma ScaleRot(k: real, u: Vec)
    ensures Scale(k, Rot(u)) == Rot(Scale(k, u))
  {
    assert k * (-u.y) == -(k * u.y);
  }

  lemma {:induction false} ScaleRotN(k: real, u: Vec, t: nat)
    ensures Scale(k, RotN(u, t)) == RotN(Scale(k, u), t)
  {
    if t > 0 {
      ScaleRotN(k, u, t - 1);
      ScaleRot(k, RotN(u, t - 1));
    }
  }

  /** A left quarter turn: the cross term is the squared length and the dot term vanishes. */
  lemma LeftTurn(u: Vec)
    ensures Cross(u, Rot(u)) == Norm2(u) && Dot(u, Rot(u)) == 0.0
  {
    assert u.y * (-u.y) == -(u.y * u.y);
    assert u.x * (-u.y) == -(u.x * u.y);
  }

  /** A reversal: the cross term vanishes and the dot term is minus the squared length. */
  lemma Reversal(u: Vec)
    ensures Cross(u, Rot(Rot(u))) == 0.0 && Dot(u, Rot(Rot(u))) == -Norm2(u)
  {
    assert Rot(Rot(u)) == Vec(-u.x, -u.y);
    assert u.x * (-u.y) == -(u.x * u.y);
    assert u.y * (-u.x) == -(u.y * u.x);
    assert u.x * (-u.x) == -(u.x * u.x);
    assert u.y * (-u.y) == -(u.y * u.y);
  }

  /** A right quarter turn: the cross term is minus the squared length and the dot term vanishes. */
  lemma RightTurn(u: Vec)
    ensures Cross(u, Rot(Rot(Rot(u)))) == -Norm2(u) && Dot(u, Rot(Rot(Rot(u)))) == 0.0
  {
    assert Rot(Rot(Rot(u))) == Vec(u.y, -u.x);
    assert u.x * (-u.x) == -(u.x * u.x);
    assert u.y * (-u.x) == -(u.y * u.x);
  }

  /** No turn: the cross term vanishes and the dot term is the squared length. */
  lemma NoTurn(u: Vec)
    ensures Cross(u, u) == 0.0 && Dot(u, u) == Norm2(u)
  {
  }

  /** Only the zero vector has squared length zero, so any other has positive squared length. */
  lemma NonZeroNorm2(u: Vec)
    requires u != Origin
    ensures Norm2(u) > 0.0
  {
    Norm2NonNegative(u);
    Norm2Zero(u);
  }

  /** Scaling a non-zero vector by a non-zero factor gives a non-zero vector. */
  lemma ScaleNonZero(k: real, u: Vec)
    requires k != 0.0 && u != Origin
    ensures Scale(k, u) != Origin
  {
    if Scale(k, u) == Origin {
      ZeroProduct(k, u.x);
      ZeroProduct(k, u.y);
    }
  }

  function Abs(r: real): real
  {
    if r < 0.0 then -r else r
  }

  /** The absolute value is the non-negative number with the same square. */
  lemma AbsSquare(r: real)
    ensures Abs(r) >= 0.0 && Abs(r) * Abs(r) == r * r
  {
    if r < 0.0 {
      assert (-r) * (-r) == r * r;
    }
  }
}
