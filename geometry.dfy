/** Vectors and numerics shared by every drawing feature: Base::Vector3d with
    exact reals in place of doubles, and the C library's trigonometry, square
    root and Base::Vector3d::Normalize as parameters the model does not
    interpret. */
module Geometry {

  /** A point or a displacement in model space (Base::Vector3d). */
  datatype Vec = Vec(x: real, y: real, z: real)

  const Origin: Vec := Vec(0.0, 0.0, 0.0)

  function Add(a: Vec, b: Vec): Vec {
    Vec(a.x + b.x, a.y + b.y, a.z + b.z)
  }

  function Sub(a: Vec, b: Vec): Vec {
    Vec(a.x - b.x, a.y - b.y, a.z - b.z)
  }

  /** `v * k` of Base::Vector3d: every coordinate multiplied by k. */
  function Scale(v: Vec, k: real): Vec {
    Vec(v.x * k, v.y * k, v.z * k)
  }

  /** M_PI, as the C library spells it. */
  const Pi: real := 3.14159265358979323846

  /** Degrees to radians, `deg * M_PI / 180.0`. */
  function Radians(degrees: real): real {
    degrees * Pi / 180.0
  }

  /** `fabs` */
  function Abs(x: real): real {
    if x < 0.0 then -x else x
  }

  /** The numeric routines the feature code calls but that are not part of the
      model: `cos`, `sin`, `sqrt` and Base::Vector3d::Normalize. */
  datatype Numerics = Numerics(
    cos: real -> real,
    sin: real -> real,
    sqrt: real -> real,
    normalize: Vec -> Vec)

  /** The one fact about them that a contract below relies on: the square root
      of a non-negative number is non-negative. */
  ghost predicate Sound(n: Numerics) {
    forall x: real :: 0.0 <= x ==> 0.0 <= n.sqrt(x)
  }

  /** x² + y² + z², never negative. */
  function SquaredNorm(v: Vec): (sq: real)
    ensures 0.0 <= sq
  {
    assert 0.0 <= v.x * v.x && 0.0 <= v.y * v.y && 0.0 <= v.z * v.z;
    v.x * v.x + v.y * v.y + v.z * v.z
  }

  /** Base::Vector3d::Length: the square root of the squared norm. */
  function EuclideanLength(v: Vec, n: Numerics): (len: real)
    ensures Sound(n) ==> 0.0 <= len
  {
    n.sqrt(SquaredNorm(v))
  }

  /** The Euclidean length of a difference does not depend on which end it is
      taken from. */
  lemma LengthOfDifferenceSymmetric(a: Vec, b: Vec, n: Numerics)
    ensures EuclideanLength(Sub(b, a), n) == EuclideanLength(Sub(a, b), n)
  {
    assert (b.x - a.x) * (b.x - a.x) == (a.x - b.x) * (a.x - b.x);
    assert (b.y - a.y) * (b.y - a.y) == (a.y - b.y) * (a.y - b.y);
    assert (b.z - a.z) * (b.z - a.z) == (a.z - b.z) * (a.z - b.z);
    assert SquaredNorm(Sub(b, a)) == SquaredNorm(Sub(a, b));
  }
}
