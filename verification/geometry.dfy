/** Plane vectors over the reals, and the floating-point library calls that the
    model does not compute (square root, arc tangent, cosine, sine). */
module Geometry {

  datatype Vec = Vec(x: real, y: real)

  const Zero := Vec(0.0, 0.0)

  /** Math.PI, written as a decimal real. */
  const PI: real := 3.141592653589793

  function Add(a: Vec, b: Vec): Vec { Vec(a.x + b.x, a.y + b.y) }

  function Sub(a: Vec, b: Vec): Vec { Vec(a.x - b.x, a.y - b.y) }

  function Scale(a: Vec, k: real): Vec { Vec(a.x * k, a.y * k) }

  function Dot(a: Vec, b: Vec): real { a.x * b.x + a.y * b.y }

  function NormSq(a: Vec): real { Dot(a, a) }

  function DistSq(a: Vec, b: Vec): real { NormSq(Sub(a, b)) }

  /** Math.min and Math.max on non-NaN arguments. */
  function Min(a: real, b: real): real { if a <= b then a else b }

  function Max(a: real, b: real): real { if a >= b then a else b }

  function Abs(a: real): real { if a < 0.0 then -a else a }

  /** The host's Math.sqrt, Math.atan2 (in radians), Math.cos and Math.sin,
      supplied by the caller; `Sound` states the only facts the proofs use. */
  datatype MathLib = MathLib(
    sqrt: real -> real,
    atan2: (real, real) -> real,
    cos: real -> real,
    sin: real -> real)

  ghost predicate Sound(m: MathLib) {
    && (forall x :: 0.0 <= x ==> 0.0 <= m.sqrt(x) && m.sqrt(x) * m.sqrt(x) == x)
    && (forall a :: m.cos(a) * m.cos(a) + m.sin(a) * m.sin(a) == 1.0)
  }

  /** Euclidean distance, as Math.sqrt of the squared coordinate differences. */
  function Distance(m: MathLib, a: Vec, b: Vec): real {
    m.sqrt(DistSq(a, b))
  }

  /** The vector divided by its length d, as the engine forms a unit normal.
      The source divides by zero when two centres coincide (NaN); here the
      normal is then the zero vector. */
  function Direction(delta: Vec, d: real): Vec {
    if d == 0.0 then Zero else Vec(delta.x / d, delta.y / d)
  }

  /** (cos(angle) * power, sin(angle) * power) for an angle in degrees. */
  function Polar(m: MathLib, degrees: real, power: real): Vec {
    var radians := degrees * PI / 180.0;
    Vec(m.cos(radians) * power, m.sin(radians) * power)
  }

  /** atan2 of a displacement, converted to degrees. */
  function HeadingDegrees(m: MathLib, from: Vec, to: Vec): real {
    m.atan2(to.y - from.y, to.x - from.x) * 180.0 / PI
  }

  // ----- facts about squares and the square root -----

  lemma NormSqNonNegative(a: Vec)
    ensures 0.0 <= NormSq(a)
  {
    assert a.x * a.x >= 0.0 && a.y * a.y >= 0.0;
  }

  lemma SquareMonotone(a: real, b: real)
    requires 0.0 <= a <= b
    ensures a * a <= b * b
  {
    assert a * a <= a * b by {
      assert a * (b - a) >= 0.0;
    }
    assert a * b <= b * b by {
      assert b * (b - a) >= 0.0;
      assert b * (b - a) == b * b - a * b;
    }
  }

  lemma SquareStrictMonotone(a: real, b: real)
    requires 0.0 <= a < b
    ensures a * a < b * b
  {
    MulPositive(b - a, b + a);
    assert (b - a) * (b + a) == b * b - a * a;
  }

  lemma MulNonNegative(x: real, y: real)
    requires 0.0 <= x && 0.0 <= y
    ensures 0.0 <= x * y
  {
  }

  lemma MulPositive(x: real, y: real)
    requires 0.0 < x && 0.0 < y
    ensures 0.0 < x * y
  {
  }

  /** A non-negative root is below a bound exactly when its square is below the bound's square. */
  lemma RootBelow(s: real, x: real, k: real)
    requires 0.0 <= s && s * s == x
    ensures s < k <==> 0.0 < k && x < k * k
  {
    if s < k {
      SquareStrictMonotone(s, k);
    } else if 0.0 < k {
      SquareMonotone(k, s);
    }
  }

  lemma RootAtMost(s: real, x: real, k: real)
    requires 0.0 <= s && s * s == x
    ensures s <= k <==> 0.0 <= k && x <= k * k
  {
    if s <= k {
      SquareMonotone(s, k);
    } else if 0.0 <= k {
      SquareStrictMonotone(k, s);
    }
  }

  lemma SqrtOf(m: MathLib, x: real)
    requires Sound(m) && 0.0 <= x
    ensures 0.0 <= m.sqrt(x) && m.sqrt(x) * m.sqrt(x) == x
  {
  }

  lemma ScaleNormSq(a: Vec, k: real)
    ensures NormSq(Scale(a, k)) == k * k * NormSq(a)
  {
    calc {
      NormSq(Scale(a, k));
      (a.x * k) * (a.x * k) + (a.y * k) * (a.y * k);
      k * k * (a.x * a.x + a.y * a.y);
    }
  }

  /** Dividing a vector by its own length gives a unit vector. */
  lemma DirectionIsUnit(delta: Vec, d: real)
    requires 0.0 < d && d * d == NormSq(delta)
    ensures NormSq(Direction(delta, d)) == 1.0
  {
    var k := 1.0 / d;
    assert Direction(delta, d) == Scale(delta, k);
    ScaleNormSq(delta, k);
    assert k * k * (d * d) == 1.0;
  }
}
