/**
 * Global shape-function derivatives at one quadrature point, shared by the
 * Mindlin plate and shell kernels: `gdshp = dshp[iP] @ inv(jac[iE, iP])`.
 * The inverse of the 2x2 Jacobian is not computed here; it is supplied.
 */
module Kinematics {

  /** The two derivatives of one shape function (with respect to the first and second coordinate). */
  datatype Deriv = Deriv(dx: real, dy: real)

  /** A 2x2 matrix, row by row. */
  datatype Mat2 = Mat2(a00: real, a01: real, a10: real, a11: real)

  /** Row vector times 2x2 matrix. */
  function Times(d: Deriv, m: Mat2): Deriv {
    Deriv(d.dx * m.a00 + d.dy * m.a10, d.dx * m.a01 + d.dy * m.a11)
  }

  /**
   * Global derivatives of every node's shape function at one point: the
   * local derivatives of node i times the inverse Jacobian. Node i's result
   * depends on node i's local derivatives only.
   */
  function GlobalDerivs(dshp: seq<Deriv>, invJac: Mat2): (g: seq<Deriv>)
    ensures |g| == |dshp|
    ensures forall i :: 0 <= i < |dshp| ==> g[i] == Times(dshp[i], invJac)
  {
    seq(|dshp|, i requires 0 <= i < |dshp| => Times(dshp[i], invJac))
  }

  /** The node count `nN` of a table of local derivatives of shape `(nP, nN)`. */
  function NodeCount(dshp: seq<seq<Deriv>>): nat {
    if |dshp| == 0 then 0 else |dshp[0]|
  }

  /** Shape values `(nP, nN)`, local derivatives `(nP, nN, 2)` and inverse Jacobians `(nE, nP, 2, 2)` agree in shape. */
  predicate ConsistentShapes(shp: seq<seq<real>>, dshp: seq<seq<Deriv>>, invJac: seq<seq<Mat2>>) {
    && |shp| == |dshp|
    && (forall p :: 0 <= p < |dshp| ==> |dshp[p]| == NodeCount(dshp) && |shp[p]| == NodeCount(dshp))
    && (forall e :: 0 <= e < |invJac| ==> |invJac[e]| == |dshp|)
  }
}
