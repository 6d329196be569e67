/**
 * Fixed-size linear algebra over exact reals. Both components keep their
 * motion state in a 6x1 `cv::Mat_<float>` and multiply it by a 6x6 matrix;
 * here a column vector is a `seq<real>` and a matrix is a sequence of rows.
 */
module Linear {

  type Vector = seq<real>
  type Matrix = seq<seq<real>>

  /** `m` has `rows` rows of `cols` entries each. */
  predicate IsMatrix(m: Matrix, rows: nat, cols: nat) {
    |m| == rows && forall i :: 0 <= i < rows ==> |m[i]| == cols
  }

  /** The column of `n` zeros (`Mat::zeros(n, 1)`). */
  function ZeroVector(n: nat): (v: Vector)
    ensures |v| == n && forall i :: 0 <= i < n ==> v[i] == 0.0
  {
    seq(n, _ => 0.0)
  }

  /** The `rows` x `cols` zero matrix (`Mat::zeros(rows, cols)`). */
  function Zeros(rows: nat, cols: nat): (m: Matrix)
    ensures IsMatrix(m, rows, cols)
  {
    seq(rows, _ => ZeroVector(cols))
  }

  /** `s` on the diagonal and 0 elsewhere (`setIdentity(m, Scalar::all(s))`). */
  function ScaledIdentity(n: nat, s: real): (m: Matrix)
    ensures IsMatrix(m, n, n)
  {
    seq(n, i => seq(n, j => if i == j then s else 0.0))
  }

  /** Inner product of two vectors of the same length. */
  function Dot(u: Vector, v: Vector): real
    requires |u| == |v|
    decreases |u|
  {
    if |u| == 0 then 0.0 else u[0] * v[0] + Dot(u[1..], v[1..])
  }

  /** The inner product of two 6-vectors, written out term by term. */
  lemma Dot6(u: Vector, v: Vector)
    requires |u| == 6 && |v| == 6
    ensures Dot(u, v) == u[0] * v[0] + u[1] * v[1] + u[2] * v[2] + u[3] * v[3] + u[4] * v[4] + u[5] * v[5]
  {
    assert u[1..][1..] == u[2..] && v[1..][1..] == v[2..];
    assert u[2..][1..] == u[3..] && v[2..][1..] == v[3..];
    assert u[3..][1..] == u[4..] && v[3..][1..] == v[4..];
    assert u[4..][1..] == u[5..] && v[4..][1..] == v[5..];
    assert u[5..][1..] == [] && v[5..][1..] == [];
    calc {
      Dot(u, v);
      u[0] * v[0] + Dot(u[1..], v[1..]);
      u[0] * v[0] + u[1] * v[1] + Dot(u[2..], v[2..]);
      u[0] * v[0] + u[1] * v[1] + u[2] * v[2] + Dot(u[3..], v[3..]);
      u[0] * v[0] + u[1] * v[1] + u[2] * v[2] + u[3] * v[3] + Dot(u[4..], v[4..]);
      u[0] * v[0] + u[1] * v[1] + u[2] * v[2] + u[3] * v[3] + u[4] * v[4] + Dot(u[5..], v[5..]);
      u[0] * v[0] + u[1] * v[1] + u[2] * v[2] + u[3] * v[3] + u[4] * v[4] + u[5] * v[5] + Dot(u[5..][1..], v[5..][1..]);
    }
  }

  /** Matrix-vector product `m * v`. */
  function MatVec(m: Matrix, v: Vector): (r: Vector)
    requires forall i :: 0 <= i < |m| ==> |m[i]| == |v|
    ensures |r| == |m|
  {
    seq(|m|, i requires 0 <= i < |m| => Dot(m[i], v))
  }

  /** A product with the zero vector is zero, whatever the matrix. */
  lemma MatVecZero(m: Matrix, n: nat)
    requires forall i :: 0 <= i < |m| ==> |m[i]| == n
    ensures MatVec(m, ZeroVector(n)) == ZeroVector(|m|)
  {
    forall i | 0 <= i < |m|
      ensures MatVec(m, ZeroVector(n))[i] == 0.0
    {
      DotZero(m[i]);
    }
  }

  /** The inner product with the zero vector is zero. */
  lemma {:induction false} DotZero(u: Vector)
    ensures Dot(u, ZeroVector(|u|)) == 0.0
  {
    if |u| > 0 {
      assert ZeroVector(|u|)[1..] == ZeroVector(|u[1..]|);
      DotZero(u[1..]);
    }
  }

  /** Element-wise sum `u + v`. */
  function Add(u: Vector, v: Vector): (r: Vector)
    requires |u| == |v|
    ensures |r| == |u| && forall i :: 0 <= i < |r| ==> r[i] == u[i] + v[i]
  {
    seq(|u|, i requires 0 <= i < |u| => u[i] + v[i])
  }

  /** Element-wise difference `u - v`. */
  function Sub(u: Vector, v: Vector): (r: Vector)
    requires |u| == |v|
    ensures |r| == |u| && forall i :: 0 <= i < |r| ==> r[i] == u[i] - v[i]
  {
    seq(|u|, i requires 0 <= i < |u| => u[i] - v[i])
  }

  /** Scalar multiple `k * v`. */
  function Scale(k: real, v: Vector): (r: Vector)
    ensures |r| == |v| && forall i :: 0 <= i < |r| ==> r[i] == k * v[i]
  {
    seq(|v|, i requires 0 <= i < |v| => k * v[i])
  }
}
