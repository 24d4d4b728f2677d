/**
 * Kernels of the Reissner-Mindlin plate element: 5 generalized strains
 * (three curvatures, two transverse shears) and 3 degrees of freedom per node
 * (the deflection and two rotations).
 */
module MindlinPlate {
  import opened Linalg
  import opened Kinematics
  import opened Results

  const NSTRE := 5
  const NDOFN := 3
  const NHOOKE := 5

  /**
   * The strain-displacement table of the plate at one quadrature point:
   * the entry in row r and column c, where column c is degree of freedom
   * c % 3 of node c / 3, given the shape values N and global derivatives G.
   */
  function PlateEntry(N: seq<real>, G: seq<Deriv>, r: int, c: int): real
    requires |N| == |G| && 0 <= r < NSTRE && 0 <= c < NDOFN * |N|
  {
    var i, d := c / NDOFN, c % NDOFN;
    if r == 0 && d == 2 then G[i].dx
    else if r == 1 && d == 1 then -G[i].dy
    else if r == 2 && d == 1 then -G[i].dx
    else if r == 2 && d == 2 then G[i].dy
    else if r == 3 && d == 0 then G[i].dx
    else if r == 3 && d == 2 then N[i]
    else if r == 4 && d == 0 then G[i].dy
    else if r == 4 && d == 1 then -N[i]
    else 0.0
  }

  lemma NodeColumn(i: int, c: int)
    requires 0 <= i && NDOFN * i <= c < NDOFN * i + NDOFN
    ensures c / NDOFN == i && c % NDOFN == c - NDOFN * i
  {
  }

  /** Slot (e, p) of B holds the plate table for shape values N and global derivatives G. */
  ghost predicate PointFilled(B: array4<real>, e: int, p: int, N: seq<real>, G: seq<Deriv>)
    requires 0 <= e < B.Length0 && 0 <= p < B.Length1 && B.Length2 == NSTRE
    requires |N| == |G| && B.Length3 == NDOFN * |N|
    reads B
  {
    forall r, c :: 0 <= r < NSTRE && 0 <= c < B.Length3 ==> B[e, p, r, c] == PlateEntry(N, G, r, c)
  }

  /** Slot (e, p) of B is still all zero. */
  ghost predicate PointZero(B: array4<real>, e: int, p: int)
    requires 0 <= e < B.Length0 && 0 <= p < B.Length1
    reads B
  {
    forall r, c :: 0 <= r < B.Length2 && 0 <= c < B.Length3 ==> B[e, p, r, c] == 0.0
  }

  /** The eight writes of node i at one quadrature point. */
  method WriteNode(B: array4<real>, e: int, p: int, i: int, Ni: real, Gi: Deriv)
    requires 0 <= e < B.Length0 && 0 <= p < B.Length1 && B.Length2 == NSTRE
    requires 0 <= i && NDOFN * i + NDOFN <= B.Length3
    modifies B
    ensures B[e, p, 0, 2 + i * NDOFN] == Gi.dx
    ensures B[e, p, 1, 1 + i * NDOFN] == -Gi.dy
    ensures B[e, p, 2, 1 + i * NDOFN] == -Gi.dx
    ensures B[e, p, 2, 2 + i * NDOFN] == Gi.dy
    ensures B[e, p, 3, 0 + i * NDOFN] == Gi.dx
    ensures B[e, p, 3, 2 + i * NDOFN] == Ni
    ensures B[e, p, 4, 0 + i * NDOFN] == Gi.dy
    ensures B[e, p, 4, 1 + i * NDOFN] == -Ni
    ensures forall e', p', r, c ::
              (0 <= e' < B.Length0 && 0 <= p' < B.Length1 && 0 <= r < NSTRE && 0 <= c < B.Length3 &&
               !(e' == e && p' == p && (r, c) in NodeWrites(i))) ==> B[e', p', r, c] == old(B[e', p', r, c])
  {
    B[e, p, 0, 2 + i * NDOFN] := Gi.dx;
    B[e, p, 1, 1 + i * NDOFN] := -Gi.dy;
    B[e, p, 2, 1 + i * NDOFN] := -Gi.dx;
    B[e, p, 2, 2 + i * NDOFN] := Gi.dy;
    B[e, p, 3, 0 + i * NDOFN] := Gi.dx;
    B[e, p, 3, 2 + i * NDOFN] := Ni;
    B[e, p, 4, 0 + i * NDOFN] := Gi.dy;
    B[e, p, 4, 1 + i * NDOFN] := -Ni;
  }

  /** The (row, column) positions node i writes. */
  function NodeWrites(i: int): set<(int, int)> {
    {(0, 2 + i * NDOFN), (1, 1 + i * NDOFN), (2, 1 + i * NDOFN), (2, 2 + i * NDOFN),
     (3, 0 + i * NDOFN), (3, 2 + i * NDOFN), (4, 0 + i * NDOFN), (4, 1 + i * NDOFN)}
  }

  /** The node loop at one quadrature point of one element. */
  method FillPoint(B: array4<real>, e: int, p: int, N: seq<real>, G: seq<Deriv>)
    requires 0 <= e < B.Length0 && 0 <= p < B.Length1 && B.Length2 == NSTRE
    requires |N| == |G| && B.Length3 == NDOFN * |N|
    requires PointZero(B, e, p)
    modifies B
    ensures PointFilled(B, e, p, N, G)
    ensures forall e', p', r, c ::
              (0 <= e' < B.Length0 && 0 <= p' < B.Length1 && 0 <= r < NSTRE && 0 <= c < B.Length3 &&
               (e' != e || p' != p)) ==> B[e', p', r, c] == old(B[e', p', r, c])
  {
    for i := 0 to |N|
      invariant forall r, c :: 0 <= r < NSTRE && 0 <= c < B.Length3 ==>
                  B[e, p, r, c] == if c < NDOFN * i then PlateEntry(N, G, r, c) else 0.0
      invariant forall e', p', r, c ::
                  (0 <= e' < B.Length0 && 0 <= p' < B.Length1 && 0 <= r < NSTRE && 0 <= c < B.Length3 &&
                   (e' != e || p' != p)) ==> B[e', p', r, c] == old(B[e', p', r, c])
    {
      WriteNode(B, e, p, i, N[i], G[i]);
      forall c | NDOFN * i <= c < NDOFN * i + NDOFN
        ensures c / NDOFN == i && c % NDOFN == c - NDOFN * i
      {
        NodeColumn(i, c);
      }
    }
  }

  /**
   * `strain_displacement_matrix_mindlin_plate`: B of shape (nE, nP, 5, 3 nN),
   * zero-allocated and then written node by node at every quadrature point of
   * every element.
   */
  method StrainDisplacementMatrix(shp: seq<seq<real>>, dshp: seq<seq<Deriv>>, invJac: seq<seq<Mat2>>)
    returns (B: array4<real>)
    requires ConsistentShapes(shp, dshp, invJac)
    ensures B.Length0 == |invJac| && B.Length1 == |dshp|
    ensures B.Length2 == NSTRE && B.Length3 == NDOFN * NodeCount(dshp)
    ensures forall e, p :: 0 <= e < B.Length0 && 0 <= p < B.Length1 ==>
              PointFilled(B, e, p, shp[p], GlobalDerivs(dshp[p], invJac[e][p]))
    ensures fresh(B)
  {
    var nE := |invJac|;
    var nP, nN := |dshp|, NodeCount(dshp);
    var nTOTV := nN * NDOFN;
    B := new real[nE, nP, NSTRE, nTOTV]((e, p, r, c) => 0.0);
    for iE := 0 to nE
      invariant forall e, p :: 0 <= e < nE && 0 <= p < nP ==>
                  if e < iE then PointFilled(B, e, p, shp[p], GlobalDerivs(dshp[p], invJac[e][p])) else PointZero(B, e, p)
    {
      for iP := 0 to nP
        invariant forall e, p :: 0 <= e < nE && 0 <= p < nP ==>
                    if e < iE || (e == iE && p < iP) then PointFilled(B, e, p, shp[p], GlobalDerivs(dshp[p], invJac[e][p]))
                    else PointZero(B, e, p)
      {
        var gdshp := GlobalDerivs(dshp[iP], invJac[iE][iP]);
        label before:
        FillPoint(B, iE, iP, shp[iP], gdshp);
        forall e, p | 0 <= e < nE && 0 <= p < nP && (e != iE || p != iP)
          ensures old@before(PointZero(B, e, p)) ==> PointZero(B, e, p)
          ensures old@before(PointFilled(B, e, p, shp[p], GlobalDerivs(dshp[p], invJac[e][p]))) ==>
                    PointFilled(B, e, p, shp[p], GlobalDerivs(dshp[p], invJac[e][p]))
        {
        }
      }
    }
  }

  /** Row 0 to 2 entries of node i: the curvatures. */
  lemma BendingRows(N: seq<real>, G: seq<Deriv>, i: int)
    requires |N| == |G| && 0 <= i < |N|
    ensures PlateEntry(N, G, 0, NDOFN * i + 2) == G[i].dx
    ensures PlateEntry(N, G, 1, NDOFN * i + 1) == -G[i].dy
    ensures PlateEntry(N, G, 2, NDOFN * i + 1) == -G[i].dx
    ensures PlateEntry(N, G, 2, NDOFN * i + 2) == G[i].dy
  {
    NodeColumn(i, NDOFN * i + 1);
    NodeColumn(i, NDOFN * i + 2);
  }

  /** Row 3 and 4 entries of node i: the transverse shears. */
  lemma ShearRows(N: seq<real>, G: seq<Deriv>, i: int)
    requires |N| == |G| && 0 <= i < |N|
    ensures PlateEntry(N, G, 3, NDOFN * i) == G[i].dx
    ensures PlateEntry(N, G, 3, NDOFN * i + 2) == N[i]
    ensures PlateEntry(N, G, 4, NDOFN * i) == G[i].dy
    ensures PlateEntry(N, G, 4, NDOFN * i + 1) == -N[i]
  {
    NodeColumn(i, NDOFN * i);
    NodeColumn(i, NDOFN * i + 1);
    NodeColumn(i, NDOFN * i + 2);
  }

  /** Every position a node does not write stays zero. */
  lemma UnwrittenIsZero(N: seq<real>, G: seq<Deriv>, r: int, c: int)
    requires |N| == |G| && 0 <= r < NSTRE && 0 <= c < NDOFN * |N|
    requires (r, c) !in NodeWrites(c / NDOFN)
    ensures PlateEntry(N, G, r, c) == 0.0
  {
  }

  /** Node i writes only into its own three columns 3i, 3i+1, 3i+2, and only into the five rows. */
  lemma NodeWritesOwnColumns(i: int, r: int, c: int)
    requires (r, c) in NodeWrites(i)
    ensures 0 <= r < NSTRE && NDOFN * i <= c < NDOFN * i + NDOFN
  {
  }

  /** Column c of the table depends on the shape value and derivatives of node c / 3 only. */
  lemma EntryIsLocal(N: seq<real>, G: seq<Deriv>, N': seq<real>, G': seq<Deriv>, r: int, c: int)
    requires |N| == |G| == |N'| == |G'| && 0 <= r < NSTRE && 0 <= c < NDOFN * |N|
    requires N[c / NDOFN] == N'[c / NDOFN] && G[c / NDOFN] == G'[c / NDOFN]
    ensures PlateEntry(N, G, r, c) == PlateEntry(N', G', r, c)
  {
  }

  /** Entry-wise sum of two derivative tables. */
  function AddDerivs(G: seq<Deriv>, H: seq<Deriv>): (S: seq<Deriv>)
    requires |G| == |H|
    ensures |S| == |G| && forall i :: 0 <= i < |G| ==> S[i] == Deriv(G[i].dx + H[i].dx, G[i].dy + H[i].dy)
  {
    seq(|G|, i requires 0 <= i < |G| => Deriv(G[i].dx + H[i].dx, G[i].dy + H[i].dy))
  }

  /** The table is additive in the shape values and derivatives it is built from. */
  lemma EntryIsAdditive(N: seq<real>, G: seq<Deriv>, N': seq<real>, G': seq<Deriv>, r: int, c: int)
    requires |N| == |G| == |N'| == |G'| && 0 <= r < NSTRE && 0 <= c < NDOFN * |N|
    ensures PlateEntry(Add(N, N'), AddDerivs(G, G'), r, c) == PlateEntry(N, G, r, c) + PlateEntry(N', G', r, c)
  {
  }

  function ScaleDerivs(a: real, G: seq<Deriv>): (S: seq<Deriv>)
    ensures |S| == |G| && forall i :: 0 <= i < |G| ==> S[i] == Deriv(a * G[i].dx, a * G[i].dy)
  {
    seq(|G|, i requires 0 <= i < |G| => Deriv(a * G[i].dx, a * G[i].dy))
  }

  /** The table is homogeneous in the shape values and derivatives: with additivity, it is linear in them. */
  lemma EntryIsHomogeneous(a: real, N: seq<real>, G: seq<Deriv>, r: int, c: int)
    requires |N| == |G| && 0 <= r < NSTRE && 0 <= c < NDOFN * |N|
    ensures PlateEntry(Scale(a, N), ScaleDerivs(a, G), r, c) == a * PlateEntry(N, G, r, c)
  {
  }

  /**
   * Through-thickness factor of the transverse shear strains,
   * (5/4)(1 - 4 (z/t)^2): the parabola that is 5/4 on the mid-surface
   * and vanishes on the top and bottom faces.
   */
  function ShearFactor(z: real, t: real): (f: real)
    requires t != 0.0
    ensures z == 0.0 ==> f == 5.0 / 4.0
    ensures z == t / 2.0 || z == -t / 2.0 ==> f == 0.0
    ensures f <= 5.0 / 4.0
  {
    (5.0 / 4.0) * (1.0 - 4.0 * (z / t) * (z / t))
  }

  /** Component k of the material strain at height z, from the model strain s of an element of thickness t. */
  function MaterialStrain(s: Vector, z: real, t: real, k: int): real
    requires |s| == NSTRE && 0 <= k < NHOOKE && t != 0.0
  {
    if k < 3 then s[k] * z else ShearFactor(z, t) * s[k]
  }

  /** On the mid-surface the curvature part vanishes and the shears are scaled by exactly 5/4. */
  lemma MidSurfaceStrains(s: Vector, t: real)
    requires |s| == NSTRE && t != 0.0
    ensures forall k :: 0 <= k < 3 ==> MaterialStrain(s, 0.0, t, k) == 0.0
    ensures forall k :: 3 <= k < NHOOKE ==> MaterialStrain(s, 0.0, t, k) == 5.0 / 4.0 * s[k]
  {
  }

  /** On the top and bottom faces the transverse shears vanish. */
  lemma FaceShearStrains(s: Vector, z: real, t: real)
    requires |s| == NSTRE && t != 0.0 && (z == t / 2.0 || z == -t / 2.0)
    ensures forall k :: 3 <= k < NHOOKE ==> MaterialStrain(s, z, t, k) == 0.0
  {
  }

  /** A table of shape (nE, nP, width): every element has nP rows of `width` entries. */
  predicate IsTable3(a: seq<seq<Vector>>, width: nat) {
    forall e :: 0 <= e < |a| ==> |a[e]| == |a[0]| && forall p :: 0 <= p < |a[e]| ==> |a[e][p]| == width
  }

  function Rows(a: seq<seq<Vector>>): nat {
    if |a| == 0 then 0 else |a[0]|
  }

  /**
   * `material_strains_mindlin_plate`: strains at height z of every point of
   * every element, or None where an element thickness is zero: the float
   * kernel then divides by zero, and reals cannot represent its result.
   */
  method MaterialStrains(strains: seq<seq<Vector>>, z: real, t: seq<real>) returns (res: Option<array3<real>>)
    requires IsTable3(strains, NSTRE) && |t| >= |strains|
    ensures res.Some? <==> forall e :: 0 <= e < |strains| ==> t[e] != 0.0
    ensures res.Some? ==> res.value.Length0 == |strains| && res.value.Length1 == Rows(strains) && res.value.Length2 == NHOOKE
    ensures res.Some? ==> forall e, p, k :: 0 <= e < |strains| && 0 <= p < Rows(strains) && 0 <= k < NHOOKE ==>
              t[e] != 0.0 && res.value[e, p, k] == MaterialStrain(strains[e][p], z, t[e], k)
    ensures res.Some? ==> fresh(res.value)
  {
    var nE, nP := |strains|, Rows(strains);
    var r := new real[nE, nP, NHOOKE]((e, p, k) => 0.0);
    forall e, p, k | 0 <= e < nE && 0 <= p < nP && 0 <= k < 3 {
      r[e, p, k] := strains[e][p][k] * z;
    }
    for i := 0 to nE
      invariant forall e :: 0 <= e < i ==> t[e] != 0.0
      invariant forall e, p, k :: 0 <= e < nE && 0 <= p < nP && 0 <= k < NHOOKE ==>
                  r[e, p, k] == if k < 3 then strains[e][p][k] * z
                                else if e < i then MaterialStrain(strains[e][p], z, t[e], k) else 0.0
    {
      if t[i] == 0.0 {
        return None;
      }
      var f := ShearFactor(z, t[i]);
      forall p, k | 0 <= p < nP && 3 <= k < NHOOKE {
        r[i, p, k] := f * strains[i][p][k];
      }
      assert forall p, k :: 0 <= p < nP && 3 <= k < NHOOKE ==> r[i, p, k] == MaterialStrain(strains[i][p], z, t[i], k);
    }
    res := Some(r);
  }

  /** Entry (r, c) of the stiffness of an element of thickness t with material matrix Ci. */
  function StiffnessEntry(Ci: Matrix, t: real, r: int, c: int): real
    requires 0 <= r < |Ci| && 0 <= c < |Ci[r]|
  {
    if r < 3 && c < 3 then Ci[r][c] * (t * t * t / 12.0)
    else if 3 <= r && 3 <= c then Ci[r][c] * (t * 5.0 / 6.0)
    else 0.0
  }

  /** A stack of nE square matrices of one size. */
  predicate IsSquareStack(C: seq<Matrix>) {
    forall i :: 0 <= i < |C| ==> IsMatrix(C[i], |C[0]|, |C[0]|)
  }

  function Size(C: seq<Matrix>): nat {
    if |C| == 0 then 0 else |C[0]|
  }

  /**
   * `model_stiffness_iso_homg_mindlin_plate`: per element, the bending block
   * scaled by t^3/12, the shear block by 5t/6, everything else zero.
   */
  method ModelStiffness(C: seq<Matrix>, t: seq<real>) returns (res: array3<real>)
    requires IsSquareStack(C) && |t| >= |C|
    ensures res.Length0 == |C| && res.Length1 == Size(C) && res.Length2 == Size(C)
    ensures forall i, r, c :: 0 <= i < |C| && 0 <= r < Size(C) && 0 <= c < Size(C) ==>
              res[i, r, c] == StiffnessEntry(C[i], t[i], r, c)
    ensures fresh(res)
  {
    var n := Size(C);
    res := new real[|C|, n, n]((i, r, c) => 0.0);
    for i := 0 to |C|
      invariant forall j, r, c :: 0 <= j < |C| && 0 <= r < n && 0 <= c < n ==>
                  res[j, r, c] == if j < i then StiffnessEntry(C[j], t[j], r, c) else 0.0
    {
      forall r, c | 0 <= r < n && r < 3 && 0 <= c < n && c < 3 {
        res[i, r, c] := C[i][r][c] * (t[i] * t[i] * t[i] / 12.0);
      }
      forall r, c | 3 <= r < n && 3 <= c < n {
        res[i, r, c] := C[i][r][c] * (t[i] * 5.0 / 6.0);
      }
      assert forall r, c :: 0 <= r < n && 0 <= c < n ==> res[i, r, c] == StiffnessEntry(C[i], t[i], r, c);
    }
  }

  /** The plate stiffness of a symmetric material matrix is symmetric. */
  lemma StiffnessSymmetric(Ci: Matrix, t: real, r: int, c: int)
    requires IsMatrix(Ci, |Ci|, |Ci|) && 0 <= r < |Ci| && 0 <= c < |Ci|
    requires Ci[r][c] == Ci[c][r]
    ensures StiffnessEntry(Ci, t, r, c) == StiffnessEntry(Ci, t, c, r)
  {
  }

  /** The coupling blocks [0:3, 3:] and [3:, 0:3] are zero. */
  lemma StiffnessCouplingZero(Ci: Matrix, t: real, r: int, c: int)
    requires IsMatrix(Ci, |Ci|, |Ci|) && 0 <= r < |Ci| && 0 <= c < |Ci|
    requires (r < 3 && 3 <= c) || (3 <= r && c < 3)
    ensures StiffnessEntry(Ci, t, r, c) == 0.0
  {
  }
}
