/**
  Normalised landmark points and the three pieces of geometry the fit pipeline
  uses on them: the midpoint of two points, the interpolation between the
  shoulder line and the hip line, and the Euclidean distance.

  Coordinates are Python floats in the program; here they are `real`.
  The square root behind the distance (`math.sqrt`) is not modelled: every
  function that needs it takes it as the parameter `sqrt`, of which nothing is
  assumed beyond `IsSquareRoot`.
 */
module Geometry {

  /** One 3-D point, normalised to the image frame. */
  datatype LandmarkCoords = LandmarkCoords(x: real, y: real, z: real)

  /** The origin of the normalised frame. */
  const Origin := LandmarkCoords(0.0, 0.0, 0.0)

  /**
    `sqrt` returns the non-negative square root of every non-negative real.
    The property is stated on `RootOf` so that it is applied only where a proof
    names `RootOf`, not at every application of `sqrt`.
   */
  ghost predicate IsSquareRoot(sqrt: real -> real) {
    forall s :: 0.0 <= s ==> 0.0 <= RootOf(sqrt, s) && Square(RootOf(sqrt, s)) == s
  }

  /** `sqrt` applied to `s`. */
  function RootOf(sqrt: real -> real, s: real): real {
    sqrt(s)
  }

  function Square(r: real): real {
    r * r
  }

  /** The componentwise difference `b - a`. */
  function Delta(a: LandmarkCoords, b: LandmarkCoords): LandmarkCoords {
    LandmarkCoords(b.x - a.x, b.y - a.y, b.z - a.z)
  }

  /** The point halfway between `a` and `b`: it is as far from `a` as `b` is from it. */
  function Midpoint(a: LandmarkCoords, b: LandmarkCoords): (m: LandmarkCoords)
    ensures Delta(a, m) == Delta(m, b)
    ensures a == b ==> m == a
  {
    LandmarkCoords((a.x + b.x) / 2.0, (a.y + b.y) / 2.0, (a.z + b.z) / 2.0)
  }

  /**
    The point a `fraction` of the way from the shoulder midpoint to the hip
    midpoint: fraction 0 is the shoulder midpoint, fraction 1 the hip midpoint.
   */
  function InterpolateVertical(shoulderMid: LandmarkCoords, hipMid: LandmarkCoords, fraction: real): (p: LandmarkCoords)
    ensures fraction == 0.0 ==> p == shoulderMid
    ensures fraction == 1.0 ==> p == hipMid
    ensures shoulderMid == hipMid ==> p == shoulderMid
  {
    LandmarkCoords(
      shoulderMid.x + fraction * (hipMid.x - shoulderMid.x),
      shoulderMid.y + fraction * (hipMid.y - shoulderMid.y),
      shoulderMid.z + fraction * (hipMid.z - shoulderMid.z))
  }

  /** The square of the Euclidean distance from `a` to `b`: zero exactly when they coincide. */
  function SquaredDistance(a: LandmarkCoords, b: LandmarkCoords): (s: real)
    ensures 0.0 <= s
    ensures a == b ==> s == 0.0
    ensures a != b ==> 0.0 < s
  {
    var dx, dy, dz := a.x - b.x, a.y - b.y, a.z - b.z;
    SumOfSquaresSign(dx, dy, dz);
    Square(dx) + Square(dy) + Square(dz)
  }

  /**
    The Euclidean distance: never negative, zero exactly when the two points
    coincide, and a root of the squared distance.
   */
  function Distance(a: LandmarkCoords, b: LandmarkCoords, sqrt: real -> real): (d: real)
    requires IsSquareRoot(sqrt)
    ensures 0.0 <= d
    ensures Square(d) == SquaredDistance(a, b)
    ensures a == b ==> d == 0.0
    ensures a != b ==> 0.0 < d
  {
    var s := SquaredDistance(a, b);
    var d := sqrt(s);
    assert RootOf(sqrt, s) == d;
    if d != 0.0 then PositiveSquare(d); d else d
  }

  /** The square of a non-zero real is positive. */
  lemma PositiveSquare(r: real)
    requires r != 0.0
    ensures 0.0 < Square(r)
  {
    if r < 0.0 {
      calc {
        Square(r);
        (-r) * (-r);
      >  { assert (-r) * (-r) > 0.0 * (-r); }
        0.0;
      }
    } else {
      calc {
        Square(r);
        r * r;
      >  { assert r * r > 0.0 * r; }
        0.0;
      }
    }
  }

  /** A sum of three squares is never negative, and positive unless all three terms are zero. */
  lemma SumOfSquaresSign(dx: real, dy: real, dz: real)
    ensures 0.0 <= Square(dx) + Square(dy) + Square(dz)
    ensures dx != 0.0 || dy != 0.0 || dz != 0.0 ==> 0.0 < Square(dx) + Square(dy) + Square(dz)
  {
    if dx != 0.0 { PositiveSquare(dx); }
    if dy != 0.0 { PositiveSquare(dy); }
    if dz != 0.0 { PositiveSquare(dz); }
  }

  /** Squaring is strictly increasing on the non-negative reals. */
  lemma SquareIncreasing(r1: real, r2: real)
    requires 0.0 <= r1 < r2
    ensures Square(r1) < Square(r2)
  {
    calc {
      Square(r1);
      r1 * r1;
    <= { assert r1 * r1 <= r1 * r2; }
      r1 * r2;
    <  { assert r1 * r2 < r2 * r2; }
      r2 * r2;
      Square(r2);
    }
  }

  /** A non-negative root is determined by its square. */
  lemma RootUnique(r1: real, r2: real)
    requires 0.0 <= r1 && 0.0 <= r2
    requires Square(r1) == Square(r2)
    ensures r1 == r2
  {
    if r1 < r2 {
      SquareIncreasing(r1, r2);
    } else if r2 < r1 {
      SquareIncreasing(r2, r1);
    }
  }

  /** The square of a product is the product of the squares. */
  lemma SquareOfProduct(k: real, r: real)
    ensures Square(k * r) == Square(k) * Square(r)
  {
    calc {
      Square(k * r);
      (k * r) * (k * r);
      (k * k) * (r * r);
      Square(k) * Square(r);
    }
  }

  /** The midpoint does not depend on the order of its arguments. */
  lemma MidpointSymmetric(a: LandmarkCoords, b: LandmarkCoords)
    ensures Midpoint(a, b) == Midpoint(b, a)
  {
  }

  /** The distance does not depend on the order of its arguments. */
  lemma DistanceSymmetric(a: LandmarkCoords, b: LandmarkCoords, sqrt: real -> real)
    requires IsSquareRoot(sqrt)
    ensures Distance(a, b, sqrt) == Distance(b, a, sqrt)
  {
    assert SquaredDistance(a, b) == SquaredDistance(b, a);
  }

  /** One coordinate of two interpolations: their difference is the fraction gap times the difference of the ends. */
  lemma CoordinateSpan(s: real, h: real, f: real, g: real)
    ensures (s + f * (h - s)) - (s + g * (h - s)) == (g - f) * (s - h)
  {
  }

  /** Scaling three coordinates by `k` scales the sum of their squares by the square of `k`. */
  lemma ScaledSumOfSquares(k: real, a: real, b: real, c: real)
    ensures Square(k * a) + Square(k * b) + Square(k * c) == Square(k) * (Square(a) + Square(b) + Square(c))
  {
    SquareOfProduct(k, a);
    SquareOfProduct(k, b);
    SquareOfProduct(k, c);
    var q := Square(k);
    calc {
      Square(k * a) + Square(k * b) + Square(k * c);
      q * Square(a) + q * Square(b) + q * Square(c);
      q * (Square(a) + Square(b) + Square(c));
    }
  }

  /** The squared distance between two interpolations is the squared fraction gap times the squared span. */
  lemma InterpolationSquaredSpan(shoulderMid: LandmarkCoords, hipMid: LandmarkCoords, f: real, g: real)
    ensures SquaredDistance(InterpolateVertical(shoulderMid, hipMid, f), InterpolateVertical(shoulderMid, hipMid, g))
         == Square(g - f) * SquaredDistance(shoulderMid, hipMid)
  {
    var p, q := InterpolateVertical(shoulderMid, hipMid, f), InterpolateVertical(shoulderMid, hipMid, g);
    var k := g - f;
    var dx, dy, dz := shoulderMid.x - hipMid.x, shoulderMid.y - hipMid.y, shoulderMid.z - hipMid.z;
    CoordinateSpan(shoulderMid.x, hipMid.x, f, g);
    CoordinateSpan(shoulderMid.y, hipMid.y, f, g);
    CoordinateSpan(shoulderMid.z, hipMid.z, f, g);
    assert p.x - q.x == k * dx && p.y - q.y == k * dy && p.z - q.z == k * dz;
    ScaledSumOfSquares(k, dx, dy, dz);
  }

  /**
    Two interpolations between the same pair of points are apart by the
    difference of their fractions times the distance between the pair.
   */
  lemma InterpolationSpan(shoulderMid: LandmarkCoords, hipMid: LandmarkCoords, f: real, g: real, sqrt: real -> real)
    requires IsSquareRoot(sqrt)
    requires f <= g
    ensures Distance(InterpolateVertical(shoulderMid, hipMid, f), InterpolateVertical(shoulderMid, hipMid, g), sqrt)
         == (g - f) * Distance(shoulderMid, hipMid, sqrt)
  {
    var p, q := InterpolateVertical(shoulderMid, hipMid, f), InterpolateVertical(shoulderMid, hipMid, g);
    var k, d := g - f, Distance(shoulderMid, hipMid, sqrt);
    InterpolationSquaredSpan(shoulderMid, hipMid, f, g);
    SquareOfProduct(k, d);
    NonNegativeProduct(k, d);
    RootUnique(Distance(p, q, sqrt), k * d);
  }

  lemma NonNegativeProduct(a: real, b: real)
    requires 0.0 <= a && 0.0 <= b
    ensures 0.0 <= a * b
  {
  }

  /** The distance is the non-negative root of the squared distance. */
  lemma DistanceIs(a: LandmarkCoords, b: LandmarkCoords, d: real, sqrt: real -> real)
    requires IsSquareRoot(sqrt)
    requires 0.0 <= d && Square(d) == SquaredDistance(a, b)
    ensures Distance(a, b, sqrt) == d
  {
    RootUnique(Distance(a, b, sqrt), d);
  }

  /** Worked value: shoulders at (0,0,0) and (1,0,0) meet at (0.5,0,0). */
  lemma MidpointExample()
    ensures Midpoint(Origin, LandmarkCoords(1.0, 0.0, 0.0)) == LandmarkCoords(0.5, 0.0, 0.0)
  {
  }

  /** Worked values: between (0,0,0) and (0,1,0) the 0.44 and 0.53 points are (0,0.44,0) and (0,0.53,0). */
  lemma InterpolationExample()
    ensures InterpolateVertical(Origin, LandmarkCoords(0.0, 1.0, 0.0), 0.44) == LandmarkCoords(0.0, 0.44, 0.0)
    ensures InterpolateVertical(Origin, LandmarkCoords(0.0, 1.0, 0.0), 0.53) == LandmarkCoords(0.0, 0.53, 0.0)
  {
  }

  /** A span of 2 along one axis has squared distance 4. */
  lemma SquaredDistanceExample()
    ensures SquaredDistance(Origin, LandmarkCoords(2.0, 0.0, 0.0)) == Square(2.0)
  {
  }

  /** A span of 2 along one axis has distance 2. */
  lemma DistanceExample(sqrt: real -> real)
    requires IsSquareRoot(sqrt)
    ensures Distance(Origin, LandmarkCoords(2.0, 0.0, 0.0), sqrt) == 2.0
  {
    SquaredDistanceExample();
    DistanceIs(Origin, LandmarkCoords(2.0, 0.0, 0.0), 2.0, sqrt);
  }
}
