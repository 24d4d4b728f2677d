/**
 * Strain-displacement operator of the Reissner-Mindlin shell element:
 * 8 generalized strains (three membrane strains, three curvatures, two
 * transverse shears) and 6 degrees of freedom per node (three displacements,
 * three rotations, the last of them the drilling rotation).
 */
module MindlinShell {
  import opened Linalg
  import opened Kinematics
  import MindlinPlate

  const NSTRE := 8
  const NDOFN := 6

  /**
   * The strain-displacement table of the shell at one quadrature point:
   * the entry in row r and column c, where column c is degree of freedom
   * c % 6 of node c / 6.
   */
  function ShellEntry(N: seq<real>, G: seq<Deriv>, r: int, c: int): real
    requires |N| == |G| && 0 <= r < NSTRE && 0 <= c < NDOFN * |N|
  {
    var i, d := c / NDOFN, c % NDOFN;
    if r == 0 && d == 0 then G[i].dx
    else if r == 1 && d == 1 then G[i].dy
    else if r == 2 && d == 0 then G[i].dy
    else if r == 2 && d == 1 then G[i].dx
    else if r == 3 && d == 4 then G[i].dx
    else if r == 4 && d == 3 then -G[i].dy
    else if r == 5 && d == 3 then -G[i].dx
    else if r == 5 && d == 4 then G[i].dy
    else if r == 6 && d == 2 then G[i].dx
    else if r == 6 && d == 4 then N[i]
    else if r == 7 && d == 2 then G[i].dy
    else if r == 7 && d == 3 then -N[i]
    else 0.0
  }

  lemma NodeColumn(i: int, c: int)
    requires 0 <= i && NDOFN * i <= c < NDOFN * i + NDOFN
    ensures c / NDOFN == i && c % NDOFN == c - NDOFN * i
  {
  }

  /** The (row, column) positions node i writes. */
  function NodeWrites(i: int): set<(int, int)> {
    {(0, 0 + i * NDOFN), (1, 1 + i * NDOFN), (2, 0 + i * NDOFN), (2, 1 + i * NDOFN),
     (3, 4 + i * NDOFN), (4, 3 + i * NDOFN), (5, 3 + i * NDOFN), (5, 4 + i * NDOFN),
     (6, 2 + i * NDOFN), (6, 4 + i * NDOFN), (7, 2 + i * NDOFN), (7, 3 + i * NDOFN)}
  }

  /** Slot (e, p) of B holds the shell table for shape values N and global derivatives G. */
  ghost predicate PointFilled(B: array4<real>, e: int, p: int, N: seq<real>, G: seq<Deriv>)
    requires 0 <= e < B.Length0 && 0 <= p < B.Length1 && B.Length2 == NSTRE
    requires |N| == |G| && B.Length3 == NDOFN * |N|
    reads B
  {
    forall r, c :: 0 <= r < NSTRE && 0 <= c < B.Length3 ==> B[e, p, r, c] == ShellEntry(N, G, r, c)
  }

  /** Slot (e, p) of B is still all zero. */
  ghost predicate PointZero(B: array4<real>, e: int, p: int)
    requires 0 <= e < B.Length0 && 0 <= p < B.Length1
    reads B
  {
    forall r, c :: 0 <= r < B.Length2 && 0 <= c < B.Length3 ==> B[e, p, r, c] == 0.0
  }

  /** The twelve writes of node i at one quadrature point. */
  method WriteNode(B: array4<real>, e: int, p: int, i: int, Ni: real, Gi: Deriv)
    requires 0 <= e < B.Length0 && 0 <= p < B.Length1 && B.Length2 == NSTRE
    requires 0 <= i && NDOFN * i + NDOFN <= B.Length3
    modifies B
    ensures B[e, p, 0, 0 + i * NDOFN] == Gi.dx
    ensures B[e, p, 1, 1 + i * NDOFN] == Gi.dy
    ensures B[e, p, 2, 0 + i * NDOFN] == Gi.dy
    ensures B[e, p, 2, 1 + i * NDOFN] == Gi.dx
    ensures B[e, p, 3, 4 + i * NDOFN] == Gi.dx
    ensures B[e, p, 4, 3 + i * NDOFN] == -Gi.dy
    ensures B[e, p, 5, 3 + i * NDOFN] == -Gi.dx
    ensures B[e, p, 5, 4 + i * NDOFN] == Gi.dy
    ensures B[e, p, 6, 2 + i * NDOFN] == Gi.dx
    ensures B[e, p, 6, 4 + i * NDOFN] == Ni
    ensures B[e, p, 7, 2 + i * NDOFN] == Gi.dy
    ensures B[e, p, 7, 3 + i * NDOFN] == -Ni
    ensures forall e', p', r, c ::
              (0 <= e' < B.Length0 && 0 <= p' < B.Length1 && 0 <= r < NSTRE && 0 <= c < B.Length3 &&
               !(e' == e && p' == p && (r, c) in NodeWrites(i))) ==> B[e', p', r, c] == old(B[e', p', r, c])
  {
    B[e, p, 0, 0 + i * NDOFN] := Gi.dx;
    B[e, p, 1, 1 + i * NDOFN] := Gi.dy;
    B[e, p, 2, 0 + i * NDOFN] := Gi.dy;
    B[e, p, 2, 1 + i * NDOFN] := Gi.dx;
    B[e, p, 3, 4 + i * NDOFN] := Gi.dx;
    B[e, p, 4, 3 + i * NDOFN] := -Gi.dy;
    B[e, p, 5, 3 + i * NDOFN] := -Gi.dx;
    B[e, p, 5, 4 + i * NDOFN] := Gi.dy;
    B[e, p, 6, 2 + i * NDOFN] := Gi.dx;
    B[e, p, 6, 4 + i * NDOFN] := Ni;
    B[e, p, 7, 2 + i * NDOFN] := Gi.dy;
    B[e, p, 7, 3 + i * NDOFN] := -Ni;
  }

  /** The node loop at one quadrature point of one element. */
  method FillPoint(B: array4<real>, e: int, p: int, N: seq<real>, G: seq<Deriv>)
    requires 0 <= e < B.Length0 && 0 <= p < B.Length1 && B.Length2 == NSTRE
    requires |N| == |G| && B.Length3 == NDOFN * |N|
    requires PointZero(B, e, p)
    modifies B
    ensures PointFilled(B, e, p, N, G)
    ensures forall e', p', r, c ::
              (0 <= e' < B.Length0 && 0 <= p' < B.Length1 && 0 <= r < NSTRE && 0 <= c < B.Length3 &&
               (e' != e || p' != p)) ==> B[e', p', r, c] == old(B[e', p', r, c])
  {
    for i := 0 to |N|
      invariant forall r, c :: 0 <= r < NSTRE && 0 <= c < B.Length3 ==>
                  B[e, p, r, c] == if c < NDOFN * i then ShellEntry(N, G, r, c) else 0.0
      invariant forall e', p', r, c ::
                  (0 <= e' < B.Length0 && 0 <= p' < B.Length1 && 0 <= r < NSTRE && 0 <= c < B.Length3 &&
                   (e' != e || p' != p)) ==> B[e', p', r, c] == old(B[e', p', r, c])
    {
      WriteNode(B, e, p, i, N[i], G[i]);
      forall c | NDOFN * i <= c < NDOFN * i + NDOFN
        ensures c / NDOFN == i && c % NDOFN == c - NDOFN * i
      {
        NodeColumn(i, c);
      }
    }
  }

  /**
   * `strain_displacement_matrix_mindlin_shell`: B of shape (nE, nP, 8, 6 nN),
   * zero-allocated and then written node by node at every quadrature point of
   * every element.
   */
  method StrainDisplacementMatrix(shp: seq<seq<real>>, dshp: seq<seq<Deriv>>, invJac: seq<seq<Mat2>>)
    returns (B: array4<real>)
    requires ConsistentShapes(shp, dshp, invJac)
    ensures B.Length0 == |invJac| && B.Length1 == |dshp|
    ensures B.Length2 == NSTRE && B.Length3 == NDOFN * NodeCount(dshp)
    ensures forall e, p :: 0 <= e < B.Length0 && 0 <= p < B.Length1 ==>
              PointFilled(B, e, p, shp[p], GlobalDerivs(dshp[p], invJac[e][p]))
    ensures fresh(B)
  {
    var nE := |invJac|;
    var nP, nN := |dshp|, NodeCount(dshp);
    var nTOTV := nN * NDOFN;
    B := new real[nE, nP, NSTRE, nTOTV]((e, p, r, c) => 0.0);
    for iE := 0 to nE
      invariant forall e, p :: 0 <= e < nE && 0 <= p < nP ==>
                  if e < iE then PointFilled(B, e, p, shp[p], GlobalDerivs(dshp[p], invJac[e][p])) else PointZero(B, e, p)
    {
      for iP := 0 to nP
        invariant forall e, p :: 0 <= e < nE && 0 <= p < nP ==>
                    if e < iE || (e == iE && p < iP) then PointFilled(B, e, p, shp[p], GlobalDerivs(dshp[p], invJac[e][p]))
                    else PointZero(B, e, p)
      {
        var gdshp := GlobalDerivs(dshp[iP], invJac[iE][iP]);
        label before:
        FillPoint(B, iE, iP, shp[iP], gdshp);
        forall e, p | 0 <= e < nE && 0 <= p < nP && (e != iE || p != iP)
          ensures old@before(PointZero(B, e, p)) ==> PointZero(B, e, p)
          ensures old@before(PointFilled(B, e, p, shp[p], GlobalDerivs(dshp[p], invJac[e][p]))) ==>
                    PointFilled(B, e, p, shp[p], GlobalDerivs(dshp[p], invJac[e][p]))
        {
        }
      }
    }
  }

  /** Membrane rows 0 to 2 of node i. */
  lemma MembraneRows(N: seq<real>, G: seq<Deriv>, i: int)
    requires |N| == |G| && 0 <= i < |N|
    ensures ShellEntry(N, G, 0, NDOFN * i) == G[i].dx
    ensures ShellEntry(N, G, 1, NDOFN * i + 1) == G[i].dy
    ensures ShellEntry(N, G, 2, NDOFN * i) == G[i].dy
    ensures ShellEntry(N, G, 2, NDOFN * i + 1) == G[i].dx
  {
    NodeColumn(i, NDOFN * i);
    NodeColumn(i, NDOFN * i + 1);
  }

  /** Bending rows 3 to 5 of node i. */
  lemma BendingRows(N: seq<real>, G: seq<Deriv>, i: int)
    requires |N| == |G| && 0 <= i < |N|
    ensures ShellEntry(N, G, 3, NDOFN * i + 4) == G[i].dx
    ensures ShellEntry(N, G, 4, NDOFN * i + 3) == -G[i].dy
    ensures ShellEntry(N, G, 5, NDOFN * i + 3) == -G[i].dx
    ensures ShellEntry(N, G, 5, NDOFN * i + 4) == G[i].dy
  {
    NodeColumn(i, NDOFN * i + 3);
    NodeColumn(i, NDOFN * i + 4);
  }

  /** Transverse shear rows 6 and 7 of node i. */
  lemma ShearRows(N: seq<real>, G: seq<Deriv>, i: int)
    requires |N| == |G| && 0 <= i < |N|
    ensures ShellEntry(N, G, 6, NDOFN * i + 2) == G[i].dx
    ensures ShellEntry(N, G, 6, NDOFN * i + 4) == N[i]
    ensures ShellEntry(N, G, 7, NDOFN * i + 2) == G[i].dy
    ensures ShellEntry(N, G, 7, NDOFN * i + 3) == -N[i]
  {
    NodeColumn(i, NDOFN * i + 2);
    NodeColumn(i, NDOFN * i + 3);
    NodeColumn(i, NDOFN * i + 4);
  }

  /** The drilling rotation (column 6i+5) of every node is zero in every row. */
  lemma DrillingColumnZero(N: seq<real>, G: seq<Deriv>, i: int, r: int)
    requires |N| == |G| && 0 <= i < |N| && 0 <= r < NSTRE
    ensures ShellEntry(N, G, r, NDOFN * i + 5) == 0.0
  {
    NodeColumn(i, NDOFN * i + 5);
  }

  /** Every position a node does not write stays zero. */
  lemma UnwrittenIsZero(N: seq<real>, G: seq<Deriv>, r: int, c: int)
    requires |N| == |G| && 0 <= r < NSTRE && 0 <= c < NDOFN * |N|
    requires (r, c) !in NodeWrites(c / NDOFN)
    ensures ShellEntry(N, G, r, c) == 0.0
  {
  }

  /** Node i writes only into its own six columns, and only into the eight rows. */
  lemma NodeWritesOwnColumns(i: int, r: int, c: int)
    requires (r, c) in NodeWrites(i)
    ensures 0 <= r < NSTRE && NDOFN * i <= c < NDOFN * i + NDOFN
  {
  }

  /** Column c of the table depends on the shape value and derivatives of node c / 6 only. */
  lemma EntryIsLocal(N: seq<real>, G: seq<Deriv>, N': seq<real>, G': seq<Deriv>, r: int, c: int)
    requires |N| == |G| == |N'| == |G'| && 0 <= r < NSTRE && 0 <= c < NDOFN * |N|
    requires N[c / NDOFN] == N'[c / NDOFN] && G[c / NDOFN] == G'[c / NDOFN]
    ensures ShellEntry(N, G, r, c) == ShellEntry(N', G', r, c)
  {
  }

  /** The table is additive in the shape values and derivatives it is built from. */
  lemma EntryIsAdditive(N: seq<real>, G: seq<Deriv>, N': seq<real>, G': seq<Deriv>, r: int, c: int)
    requires |N| == |G| == |N'| == |G'| && 0 <= r < NSTRE && 0 <= c < NDOFN * |N|
    ensures ShellEntry(Add(N, N'), MindlinPlate.AddDerivs(G, G'), r, c) == ShellEntry(N, G, r, c) + ShellEntry(N', G', r, c)
  {
  }

  /** The table is homogeneous in the shape values and derivatives: with additivity, B is linear in them. */
  lemma EntryIsHomogeneous(a: real, N: seq<real>, G: seq<Deriv>, r: int, c: int)
    requires |N| == |G| && 0 <= r < NSTRE && 0 <= c < NDOFN * |N|
    ensures ShellEntry(Scale(a, N), MindlinPlate.ScaleDerivs(a, G), r, c) == a * ShellEntry(N, G, r, c)
  {
  }

  /**
   * The bending and shear rows 3 to 7 of the shell, restricted to the
   * deflection and the two in-plane rotations (degrees of freedom 2, 3, 4),
   * are the plate table (rows 0 to 4, degrees of freedom 0, 1, 2).
   */
  lemma EmbedsPlate(N: seq<real>, G: seq<Deriv>, i: int, r: int, d: int)
    requires |N| == |G| && 0 <= i < |N| && 0 <= r < MindlinPlate.NSTRE && 0 <= d < MindlinPlate.NDOFN
    ensures ShellEntry(N, G, r + 3, NDOFN * i + d + 2) == MindlinPlate.PlateEntry(N, G, r, MindlinPlate.NDOFN * i + d)
  {
    NodeColumn(i, NDOFN * i + d + 2);
    MindlinPlate.NodeColumn(i, MindlinPlate.NDOFN * i + d);
  }
}
