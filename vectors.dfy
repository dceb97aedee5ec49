/**
  Three-component vectors and 3x3 matrices over the reals, standing for the
  Python lists of three floats used by the die simulation (indexed 0, 1, 2).
 */
module Vectors {

  type Vec3 = v: seq<real> | |v| == 3 witness [0.0, 0.0, 0.0]

  type Mat3 = m: seq<Vec3> | |m| == 3 witness [Zero, Zero, Zero]

  const Zero: Vec3 := [0.0, 0.0, 0.0]

  /** World up, the ground plane's normal. */
  const Up: Vec3 := [0.0, 1.0, 0.0]

  function Add(a: Vec3, b: Vec3): Vec3 {
    [a[0] + b[0], a[1] + b[1], a[2] + b[2]]
  }

  function Sub(a: Vec3, b: Vec3): Vec3 {
    [a[0] - b[0], a[1] - b[1], a[2] - b[2]]
  }

  function Scale(k: real, a: Vec3): Vec3 {
    [k * a[0], k * a[1], k * a[2]]
  }

  function Dot(a: Vec3, b: Vec3): real {
    a[0] * b[0] + a[1] * b[1] + a[2] * b[2]
  }

  /** The squared length `sum(v ** 2 for v in a)`. */
  function NormSq(a: Vec3): real {
    a[0] * a[0] + a[1] * a[1] + a[2] * a[2]
  }

  /** The cross product, written component by component as the source writes it. */
  function Cross(a: Vec3, b: Vec3): Vec3 {
    [a[1] * b[2] - a[2] * b[1],
     a[2] * b[0] - a[0] * b[2],
     a[0] * b[1] - a[1] * b[0]]
  }

  /** Row i of m applied to v, summed over j in the order 0, 1, 2. */
  function MatVec(m: Mat3, v: Vec3): Vec3 {
    [m[0][0] * v[0] + m[0][1] * v[1] + m[0][2] * v[2],
     m[1][0] * v[0] + m[1][1] * v[1] + m[1][2] * v[2],
     m[2][0] * v[0] + m[2][1] * v[1] + m[2][2] * v[2]]
  }

  predicate IsDiagonal(m: Mat3) {
    forall i, j :: 0 <= i < 3 && 0 <= j < 3 && i != j ==> m[i][j] == 0.0
  }

  function Diagonal(d: real): (m: Mat3)
    ensures IsDiagonal(m)
    ensures forall i :: 0 <= i < 3 ==> m[i][i] == d
  {
    [[d, 0.0, 0.0], [0.0, d, 0.0], [0.0, 0.0, d]]
  }

  /** The cross product is orthogonal to both of its factors. */
  lemma CrossOrthogonal(a: Vec3, b: Vec3)
    ensures Dot(Cross(a, b), a) == 0.0
    ensures Dot(Cross(a, b), b) == 0.0
  {
    var c := Cross(a, b);
    calc {
      Dot(c, a);
      (a[1] * b[2] - a[2] * b[1]) * a[0] + (a[2] * b[0] - a[0] * b[2]) * a[1] + (a[0] * b[1] - a[1] * b[0]) * a[2];
      a[0] * a[1] * b[2] - a[0] * a[2] * b[1] + a[1] * a[2] * b[0] - a[1] * a[0] * b[2] + a[2] * a[0] * b[1] - a[2] * a[1] * b[0];
      0.0;
    }
    calc {
      Dot(c, b);
      (a[1] * b[2] - a[2] * b[1]) * b[0] + (a[2] * b[0] - a[0] * b[2]) * b[1] + (a[0] * b[1] - a[1] * b[0]) * b[2];
      a[1] * b[0] * b[2] - a[2] * b[0] * b[1] + a[2] * b[0] * b[1] - a[0] * b[1] * b[2] + a[0] * b[1] * b[2] - a[1] * b[0] * b[2];
      0.0;
    }
  }
}
