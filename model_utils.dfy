/**
 * Post-processing kernels of the finite element model: generalized strains
 * at the quadrature points from the solution and the strain-displacement
 * matrices, and stresses from strains through the element's constitutive
 * matrix.
 */
module ModelUtils {
  import opened Linalg

  /** Leading dimensions of a stack of per-element, per-point matrices `(nE, nP, rows, cols)`. */
  function Points<T>(s: seq<seq<T>>): nat {
    if |s| == 0 then 0 else |s[0]|
  }

  function StrainCount(B: seq<seq<Matrix>>): nat {
    if |B| == 0 || |B[0]| == 0 then 0 else |B[0][0]|
  }

  /**
   * `B` has shape `(nE, nP, NSTRE, nTOTV_e)` and `esol` holds one gathered
   * solution vector of length `nTOTV_e` per element.
   */
  predicate StrainInputs(B: seq<seq<Matrix>>, esol: seq<Vector>) {
    && |esol| >= |B|
    && forall e :: 0 <= e < |B| ==>
         |B[e]| == Points(B) &&
         forall p :: 0 <= p < |B[e]| ==> IsMatrix(B[e][p], StrainCount(B), |esol[e]|)
  }

  /** Reference definition: the strain at point p of element e is `B[e][p] @ esol[e]`. */
  function Strains(B: seq<seq<Matrix>>, esol: seq<Vector>): (s: seq<seq<Vector>>)
    requires StrainInputs(B, esol)
    ensures |s| == |B|
    ensures forall e :: 0 <= e < |B| ==> |s[e]| == Points(B)
    ensures forall e, p :: 0 <= e < |B| && 0 <= p < Points(B) ==> |s[e][p]| == StrainCount(B)
  {
    seq(|B|, e requires 0 <= e < |B| =>
      seq(|B[e]|, p requires 0 <= p < |B[e]| => MatVec(B[e][p], esol[e])))
  }

  /**
   * `model_strains`, with the element-wise gather of the global solution
   * (`esol`) supplied: every slot (e, p) of the zero-allocated result is
   * written once with the product of that point's B and that element's
   * solution.
   */
  method ModelStrains(B: seq<seq<Matrix>>, esol: seq<Vector>) returns (res: array3<real>)
    requires StrainInputs(B, esol)
    ensures res.Length0 == |B| && res.Length1 == Points(B) && res.Length2 == StrainCount(B)
    ensures forall e, p, k :: 0 <= e < res.Length0 && 0 <= p < res.Length1 && 0 <= k < res.Length2 ==>
              res[e, p, k] == Strains(B, esol)[e][p][k]
    ensures fresh(res)
  {
    var nE, nP, nS := |B|, Points(B), StrainCount(B);
    res := new real[nE, nP, nS]((e, p, k) => 0.0);
    for iE := 0 to nE
      invariant forall e, p, k :: 0 <= e < nE && 0 <= p < nP && 0 <= k < nS ==>
                  res[e, p, k] == if e < iE then Dot(B[e][p][k], esol[e]) else 0.0
    {
      for iP := 0 to nP
        invariant forall e, p, k :: 0 <= e < nE && 0 <= p < nP && 0 <= k < nS ==>
                    res[e, p, k] == if e < iE || (e == iE && p < iP) then Dot(B[e][p][k], esol[e]) else 0.0
      {
        forall k | 0 <= k < nS {
          res[iE, iP, k] := Dot(B[iE][iP][k], esol[iE]);
        }
      }
    }
  }

  /** The per-element solutions for two solutions added together. */
  function AddAll(u: seq<Vector>, v: seq<Vector>): (w: seq<Vector>)
    requires |u| == |v| && forall e :: 0 <= e < |u| ==> |u[e]| == |v[e]|
    ensures |w| == |u| && forall e :: 0 <= e < |u| ==> w[e] == Add(u[e], v[e])
  {
    seq(|u|, e requires 0 <= e < |u| => Add(u[e], v[e]))
  }

  function ScaleAll(a: real, u: seq<Vector>): (w: seq<Vector>)
    ensures |w| == |u| && forall e :: 0 <= e < |u| ==> w[e] == Scale(a, u[e])
  {
    seq(|u|, e requires 0 <= e < |u| => Scale(a, u[e]))
  }

  /** Strains are additive in the element solutions. */
  lemma StrainsAdditive(B: seq<seq<Matrix>>, u: seq<Vector>, v: seq<Vector>)
    requires StrainInputs(B, u) && StrainInputs(B, v)
    requires |u| == |v| && forall e :: 0 <= e < |u| ==> |u[e]| == |v[e]|
    ensures StrainInputs(B, AddAll(u, v))
    ensures forall e, p :: 0 <= e < |B| && 0 <= p < Points(B) ==>
              Strains(B, AddAll(u, v))[e][p] == Add(Strains(B, u)[e][p], Strains(B, v)[e][p])
  {
    forall e, p | 0 <= e < |B| && 0 <= p < Points(B)
      ensures Strains(B, AddAll(u, v))[e][p] == Add(Strains(B, u)[e][p], Strains(B, v)[e][p])
    {
      MatVecAdd(B[e][p], u[e], v[e]);
    }
  }

  /** Strains are homogeneous in the element solutions. */
  lemma StrainsHomogeneous(B: seq<seq<Matrix>>, a: real, u: seq<Vector>)
    requires StrainInputs(B, u)
    ensures StrainInputs(B, ScaleAll(a, u))
    ensures forall e, p :: 0 <= e < |B| && 0 <= p < Points(B) ==>
              Strains(B, ScaleAll(a, u))[e][p] == Scale(a, Strains(B, u)[e][p])
  {
    forall e, p | 0 <= e < |B| && 0 <= p < Points(B)
      ensures Strains(B, ScaleAll(a, u))[e][p] == Scale(a, Strains(B, u)[e][p])
    {
      MatVecScale(B[e][p], a, u[e]);
    }
  }

  /** A zero solution gives zero strains at every point. */
  lemma ZeroSolutionZeroStrains(B: seq<seq<Matrix>>, u: seq<Vector>)
    requires StrainInputs(B, u)
    requires forall e :: 0 <= e < |u| ==> u[e] == Zeros(|u[e]|)
    ensures forall e, p :: 0 <= e < |B| && 0 <= p < Points(B) ==>
              Strains(B, u)[e][p] == Zeros(StrainCount(B))
  {
    forall e, p | 0 <= e < |B| && 0 <= p < Points(B)
      ensures Strains(B, u)[e][p] == Zeros(StrainCount(B))
    {
      MatVecZeros(B[e][p], |u[e]|);
    }
  }

  /** Element e's strains depend on element e's matrices and solution only. */
  lemma StrainsAreLocal(B: seq<seq<Matrix>>, u: seq<Vector>, B': seq<seq<Matrix>>, u': seq<Vector>, e: int)
    requires StrainInputs(B, u) && StrainInputs(B', u') && |B| == |B'| && Points(B) == Points(B')
    requires 0 <= e < |B| && B[e] == B'[e] && u[e] == u'[e]
    ensures Strains(B, u)[e] == Strains(B', u')[e]
  {
  }

  /**
   * The global-to-element gather that `element_dof_solution_bulk` performs
   * (element e, local degree of freedom j reads global entry `gnum[e][j]`).
   */
  function Gather(dofsol: Vector, gnum: seq<seq<nat>>): (esol: seq<Vector>)
    requires forall e, j :: 0 <= e < |gnum| && 0 <= j < |gnum[e]| ==> gnum[e][j] < |dofsol|
    ensures |esol| == |gnum| && forall e :: 0 <= e < |gnum| ==> |esol[e]| == |gnum[e]|
    ensures forall e, j :: 0 <= e < |gnum| && 0 <= j < |gnum[e]| ==> esol[e][j] == dofsol[gnum[e][j]]
  {
    seq(|gnum|, e requires 0 <= e < |gnum| =>
      seq(|gnum[e]|, j requires 0 <= j < |gnum[e]| => dofsol[gnum[e][j]]))
  }

  /** Gathering commutes with adding two global solutions... */
  lemma GatherAdditive(u: Vector, v: Vector, gnum: seq<seq<nat>>)
    requires |u| == |v|
    requires forall e, j :: 0 <= e < |gnum| && 0 <= j < |gnum[e]| ==> gnum[e][j] < |u|
    ensures Gather(Add(u, v), gnum) == AddAll(Gather(u, gnum), Gather(v, gnum))
  {
    var l, r := Gather(Add(u, v), gnum), AddAll(Gather(u, gnum), Gather(v, gnum));
    forall e | 0 <= e < |gnum| ensures l[e] == r[e] {
    }
  }

  /** ... and with scaling one. */
  lemma GatherHomogeneous(a: real, u: Vector, gnum: seq<seq<nat>>)
    requires forall e, j :: 0 <= e < |gnum| && 0 <= j < |gnum[e]| ==> gnum[e][j] < |u|
    ensures Gather(Scale(a, u), gnum) == ScaleAll(a, Gather(u, gnum))
  {
    var l, r := Gather(Scale(a, u), gnum), ScaleAll(a, Gather(u, gnum));
    forall e | 0 <= e < |gnum| ensures l[e] == r[e] {
      forall j | 0 <= j < |gnum[e]| ensures l[e][j] == r[e][j] {
        assert r[e] == Scale(a, Gather(u, gnum)[e]);
      }
    }
  }

  /** Strains are linear in the global solution when the element solutions are gathered from it. */
  lemma StrainsLinearInSolution(B: seq<seq<Matrix>>, gnum: seq<seq<nat>>, a: real, u: Vector, v: Vector)
    requires |u| == |v|
    requires forall e, j :: 0 <= e < |gnum| && 0 <= j < |gnum[e]| ==> gnum[e][j] < |u|
    requires StrainInputs(B, Gather(u, gnum))
    ensures StrainInputs(B, Gather(Add(u, Scale(a, v)), gnum))
    ensures forall e, p :: 0 <= e < |B| && 0 <= p < Points(B) ==>
              Strains(B, Gather(Add(u, Scale(a, v)), gnum))[e][p] ==
              Add(Strains(B, Gather(u, gnum))[e][p], Scale(a, Strains(B, Gather(v, gnum))[e][p]))
  {
    var gu, gv := Gather(u, gnum), Gather(v, gnum);
    GatherHomogeneous(a, v, gnum);
    GatherAdditive(u, Scale(a, v), gnum);
    StrainsHomogeneous(B, a, gv);
    StrainsAdditive(B, gu, ScaleAll(a, gv));
  }

  /** `C` holds one square constitutive matrix per element, of the strains' size. */
  predicate StressInputs(C: seq<Matrix>, strains: seq<seq<Vector>>) {
    && |C| >= |strains|
    && forall e :: 0 <= e < |strains| ==>
         |strains[e]| == Points(strains) &&
         IsMatrix(C[e], Components(strains), Components(strains)) &&
         forall p :: 0 <= p < |strains[e]| ==> |strains[e][p]| == Components(strains)
  }

  function Components(strains: seq<seq<Vector>>): nat {
    if |strains| == 0 || |strains[0]| == 0 then 0 else |strains[0][0]|
  }

  /** Reference definition: the stress at point p of element e is `C[e] @ strains[e][p]`. */
  function Stresses(C: seq<Matrix>, strains: seq<seq<Vector>>): (s: seq<seq<Vector>>)
    requires StressInputs(C, strains)
    ensures |s| == |strains|
    ensures forall e :: 0 <= e < |s| ==> |s[e]| == |strains[e]|
    ensures forall e, p :: 0 <= e < |s| && 0 <= p < |s[e]| ==> |s[e][p]| == |strains[e][p]|
  {
    seq(|strains|, e requires 0 <= e < |strains| =>
      seq(|strains[e]|, p requires 0 <= p < |strains[e]| => MatVec(C[e], strains[e][p])))
  }

  /**
   * `stresses_from_strains`: a zero array shaped like the strains, every
   * slot (e, p) written once with element e's constitutive matrix times the
   * strains at that point.
   */
  method StressesFromStrains(C: seq<Matrix>, strains: seq<seq<Vector>>) returns (res: array3<real>)
    requires StressInputs(C, strains)
    ensures res.Length0 == |strains| && res.Length1 == Points(strains) && res.Length2 == Components(strains)
    ensures forall e, p, k :: 0 <= e < res.Length0 && 0 <= p < res.Length1 && 0 <= k < res.Length2 ==>
              res[e, p, k] == Stresses(C, strains)[e][p][k]
    ensures fresh(res)
  {
    var nE, nP, nS := |strains|, Points(strains), Components(strains);
    res := new real[nE, nP, nS]((e, p, k) => 0.0);
    for iE := 0 to nE
      invariant forall e, p, k :: 0 <= e < nE && 0 <= p < nP && 0 <= k < nS ==>
                  res[e, p, k] == if e < iE then Dot(C[e][k], strains[e][p]) else 0.0
    {
      for iP := 0 to nP
        invariant forall e, p, k :: 0 <= e < nE && 0 <= p < nP && 0 <= k < nS ==>
                    res[e, p, k] == if e < iE || (e == iE && p < iP) then Dot(C[e][k], strains[e][p]) else 0.0
      {
        forall k | 0 <= k < nS {
          res[iE, iP, k] := Dot(C[iE][k], strains[iE][iP]);
        }
      }
    }
  }

  /** Every point of an element goes through the same constitutive matrix: equal strains give equal stresses. */
  lemma SameMatrixPerElement(C: seq<Matrix>, strains: seq<seq<Vector>>, e: int, p: int, q: int)
    requires StressInputs(C, strains) && 0 <= e < |strains| && 0 <= p < |strains[e]| && 0 <= q < |strains[e]|
    requires strains[e][p] == strains[e][q]
    ensures Stresses(C, strains)[e][p] == Stresses(C, strains)[e][q]
  {
  }

  /** At any point, the stress of a sum of strains is the sum of the stresses. */
  lemma StressesAdditive(C: seq<Matrix>, s: seq<seq<Vector>>, t: seq<seq<Vector>>, u: seq<seq<Vector>>, e: int, p: int)
    requires StressInputs(C, s) && StressInputs(C, t) && StressInputs(C, u)
    requires Components(s) == Components(t) == Components(u) && |s| == |t| == |u|
    requires 0 <= e < |s| && 0 <= p < |s[e]| && p < |t[e]| && p < |u[e]|
    requires u[e][p] == Add(s[e][p], t[e][p])
    ensures Stresses(C, u)[e][p] == Add(Stresses(C, s)[e][p], Stresses(C, t)[e][p])
  {
    MatVecAdd(C[e], s[e][p], t[e][p]);
  }

  /** A scaled strain gives the equally scaled stress. */
  lemma StressesHomogeneous(C: seq<Matrix>, a: real, s: seq<seq<Vector>>, u: seq<seq<Vector>>, e: int, p: int)
    requires StressInputs(C, s) && StressInputs(C, u) && Components(s) == Components(u) && |s| == |u|
    requires 0 <= e < |s| && 0 <= p < |s[e]| && p < |u[e]|
    requires u[e][p] == Scale(a, s[e][p])
    ensures Stresses(C, u)[e][p] == Scale(a, Stresses(C, s)[e][p])
  {
    MatVecScale(C[e], a, s[e][p]);
  }

  /** Zero strain at a point gives zero stress there. */
  lemma ZeroStrainZeroStress(C: seq<Matrix>, s: seq<seq<Vector>>, e: int, p: int)
    requires StressInputs(C, s) && 0 <= e < |s| && 0 <= p < |s[e]|
    requires s[e][p] == Zeros(Components(s))
    ensures Stresses(C, s)[e][p] == Zeros(Components(s))
  {
    MatVecZeros(C[e], Components(s));
  }
}
