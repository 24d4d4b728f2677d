/**
 * Dense vectors and matrices over the reals, as the kernels of the finite
 * element code use them: `Dot` is numpy's `@` between two vectors and
 * `MatVec` is `@` between a matrix and a vector.
 */
module Linalg {

  type Vector = seq<real>
  type Matrix = seq<seq<real>>

  /** `m` has `rows` rows of `cols` entries each. */
  predicate IsMatrix(m: Matrix, rows: nat, cols: nat) {
    |m| == rows && forall i :: 0 <= i < rows ==> |m[i]| == cols
  }

  function Zeros(n: nat): (z: Vector)
    ensures |z| == n && forall i :: 0 <= i < n ==> z[i] == 0.0
  {
    seq(n, _ => 0.0)
  }

  function ZeroMatrix(rows: nat, cols: nat): (z: Matrix)
    ensures IsMatrix(z, rows, cols)
    ensures forall i, j :: 0 <= i < rows && 0 <= j < cols ==> z[i][j] == 0.0
  {
    seq(rows, _ => Zeros(cols))
  }

  function Add(u: Vector, v: Vector): (w: Vector)
    requires |u| == |v|
    ensures |w| == |u| && forall i :: 0 <= i < |u| ==> w[i] == u[i] + v[i]
  {
    seq(|u|, i requires 0 <= i < |u| => u[i] + v[i])
  }

  function Scale(a: real, u: Vector): (w: Vector)
    ensures |w| == |u| && forall i :: 0 <= i < |u| ==> w[i] == a * u[i]
  {
    seq(|u|, i requires 0 <= i < |u| => a * u[i])
  }

  /** Entry-wise sum of two matrices of the same shape. */
  function MatAdd(m: Matrix, n: Matrix): (s: Matrix)
    requires |m| == |n| && forall i :: 0 <= i < |m| ==> |m[i]| == |n[i]|
    ensures |s| == |m| && forall i :: 0 <= i < |m| ==> |s[i]| == |m[i]|
    ensures forall i, j :: 0 <= i < |m| && 0 <= j < |m[i]| ==> s[i][j] == m[i][j] + n[i][j]
  {
    seq(|m|, i requires 0 <= i < |m| => Add(m[i], n[i]))
  }

  /** Sum of the products of corresponding entries, accumulated from the front. */
  function Dot(u: Vector, v: Vector): real
    requires |u| == |v|
    decreases |u|
  {
    if |u| == 0 then 0.0
    else Dot(u[..|u| - 1], v[..|v| - 1]) + u[|u| - 1] * v[|v| - 1]
  }

  /** The dot product distributes over a sum in its second argument. */
  lemma {:induction false} DotAdd(u: Vector, v: Vector, w: Vector)
    requires |u| == |v| == |w|
    ensures Dot(u, Add(v, w)) == Dot(u, v) + Dot(u, w)
    decreases |u|
  {
    if |u| > 0 {
      var n := |u| - 1;
      assert Add(v, w)[..n] == Add(v[..n], w[..n]);
      DotAdd(u[..n], v[..n], w[..n]);
    }
  }

  /** A scalar factor in the second argument comes out of the dot product. */
  lemma {:induction false} DotScale(u: Vector, a: real, v: Vector)
    requires |u| == |v|
    ensures Dot(u, Scale(a, v)) == a * Dot(u, v)
    decreases |u|
  {
    if |u| > 0 {
      var n := |u| - 1;
      var c := Scale(a, v);
      forall i | 0 <= i < n ensures c[..n][i] == Scale(a, v[..n])[i] {
        assert c[i] == a * v[i];
      }
      assert c[..n] == Scale(a, v[..n]);
      DotScale(u[..n], a, v[..n]);
      assert u[n] * c[n] == a * (u[n] * v[n]);
    }
  }

  /** Any vector dotted with the zero vector gives zero. */
  lemma {:induction false} DotZeros(u: Vector)
    ensures Dot(u, Zeros(|u|)) == 0.0
    decreases |u|
  {
    if |u| > 0 {
      var n := |u| - 1;
      assert Zeros(|u|)[..n] == Zeros(n);
      DotZeros(u[..n]);
    }
  }

  /** Matrix times vector: entry k is row k of `m` dotted with `v`. */
  function MatVec(m: Matrix, v: Vector): (w: Vector)
    requires forall k :: 0 <= k < |m| ==> |m[k]| == |v|
    ensures |w| == |m| && forall k :: 0 <= k < |m| ==> w[k] == Dot(m[k], v)
  {
    seq(|m|, k requires 0 <= k < |m| => Dot(m[k], v))
  }

  /** A matrix-vector product is additive in the vector. */
  lemma MatVecAdd(m: Matrix, u: Vector, v: Vector)
    requires |u| == |v| && forall k :: 0 <= k < |m| ==> |m[k]| == |u|
    ensures MatVec(m, Add(u, v)) == Add(MatVec(m, u), MatVec(m, v))
  {
    forall k | 0 <= k < |m| {
      DotAdd(m[k], u, v);
    }
  }

  /** A matrix-vector product is homogeneous in the vector. */
  lemma MatVecScale(m: Matrix, a: real, v: Vector)
    requires forall k :: 0 <= k < |m| ==> |m[k]| == |v|
    ensures MatVec(m, Scale(a, v)) == Scale(a, MatVec(m, v))
  {
    var l, r := MatVec(m, Scale(a, v)), Scale(a, MatVec(m, v));
    forall k | 0 <= k < |m| ensures l[k] == r[k] {
      DotScale(m[k], a, v);
    }
  }

  /** A matrix times the zero vector is the zero vector. */
  lemma MatVecZeros(m: Matrix, n: nat)
    requires forall k :: 0 <= k < |m| ==> |m[k]| == n
    ensures MatVec(m, Zeros(n)) == Zeros(|m|)
  {
    forall k | 0 <= k < |m| {
      DotZeros(m[k]);
    }
  }
}
