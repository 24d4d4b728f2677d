/**
 * Homogenization of a representative surface element: the effective
 * stiffness matrix of a Kirchhoff-Love (6 generalized strains) or a
 * Mindlin-Reissner (8) plate from a periodic cell. The solution of the
 * boundary value problem and the integration of stresses and of the
 * averaged material stiffness happen outside this model; each block's
 * contributions to `hooke` and `hooke_avg` are given.
 */
module Homogenization {
  import opened Results
  import opened Linalg
  import opened Mesh

  /** ASCII lower case. */
  function ToLower(s: string): (r: string)
    ensures |r| == |s|
    ensures forall i :: 0 <= i < |s| ==> r[i] == if 'A' <= s[i] <= 'Z' then (s[i] as int + 32) as char else s[i]
  {
    seq(|s|, i requires 0 <= i < |s| => if 'A' <= s[i] <= 'Z' then (s[i] as int + 32) as char else s[i])
  }

  /**
   * Number of generalized strains of a plate model, by name, in any case:
   * 8 for Mindlin-Reissner ('MR'), 6 for Kirchhoff-Love ('KL'), and no
   * value (the variable stays unbound) for any other name.
   */
  function Nstre(model: string): (n: Option<nat>)
    ensures n == Some(8) <==> |model| == 2 && model[0] in "mM" && model[1] in "rR"
    ensures n == Some(6) <==> |model| == 2 && model[0] in "kK" && model[1] in "lL"
    ensures n.Some? ==> n == Some(8) || n == Some(6)
  {
    var m := ToLower(model);
    if m == "mr" then Some(8)
    else if m == "kl" then Some(6)
    else None
  }

  /** The point cloud's extent in the plane of the plate. */
  datatype Bounds = Bounds(xmin: real, xmax: real, ymin: real, ymax: real)

  /** `area`: never negative for well-ordered bounds, and zero for a point cloud that is flat in x or in y. */
  function Area(b: Bounds): (a: real)
    ensures b.xmin <= b.xmax && b.ymin <= b.ymax ==> a >= 0.0
    ensures b.xmin == b.xmax || b.ymin == b.ymax ==> a == 0.0
  {
    (b.xmax - b.xmin) * (b.ymax - b.ymin)
  }

  type LoadTable = seq<seq<seq<real>>>

  /**
   * A cell block: its dimension, the unit strain-load field at its cell
   * centres for a given number of generalized strains, the transformation
   * of such a field to the frames of a surface block, and its
   * contributions to `hooke` (from the solved internal forces) and to
   * `hooke_avg` (from its material stiffness).
   */
  datatype HomgBlock = HomgBlock(ndim: int, strainField: nat -> LoadTable, toSurface: LoadTable -> LoadTable,
                                 hooke: Matrix, hookeAvg: Matrix)

  /** The periodicity constraint linking nodes on opposite sides. */
  datatype Constraint = NodeToNode(links: seq<(nat, nat)>)

  datatype HomgError = UnboundNstre | NotImplemented

  predicate Supported(b: HomgBlock) {
    b.ndim == 3 || b.ndim == 2
  }

  /** The strain loads a supported block receives: the bulk field for a solid block, transformed for a surface block. */
  function StrainLoadOf(b: HomgBlock, nstre: nat): LoadTable {
    if b.ndim == 3 then b.strainField(nstre) else b.toSurface(b.strainField(nstre))
  }

  /** Fixity against rigid body motion: DOFs 0-2 at the centre node, 1 and 2 at the x-node, 2 at the y-node. */
  predicate IsAnchor(i: int, j: int, iC: nat, iX: nat, iY: nat) {
    (i == iC && 0 <= j < 3) || (i == iX && (j == 1 || j == 2)) || (i == iY && j == 2)
  }

  /** Every block's contribution is an n by n matrix. */
  predicate TermsFit(blocks: seq<HomgBlock>, n: nat) {
    forall k :: 0 <= k < |blocks| ==> IsMatrix(blocks[k].hooke, n, n) && IsMatrix(blocks[k].hookeAvg, n, n)
  }

  /** Sum of the first blocks' `hooke` contributions (from the back). */
  function HookeSum(blocks: seq<HomgBlock>, n: nat): (h: Matrix)
    requires TermsFit(blocks, n)
    ensures IsMatrix(h, n, n)
  {
    if |blocks| == 0 then ZeroMatrix(n, n)
    else MatAdd(HookeSum(blocks[..|blocks| - 1], n), blocks[|blocks| - 1].hooke)
  }

  function AvgSum(blocks: seq<HomgBlock>, n: nat): (h: Matrix)
    requires TermsFit(blocks, n)
    ensures IsMatrix(h, n, n)
  {
    if |blocks| == 0 then ZeroMatrix(n, n)
    else MatAdd(AvgSum(blocks[..|blocks| - 1], n), blocks[|blocks| - 1].hookeAvg)
  }

  /**
   * The effective stiffness: averaged minus fluctuating stiffness, both per
   * unit area; for the Mindlin-Reissner plate the transverse shear block
   * (rows and columns 6, 7) is 5/6 of the fluctuating part instead.
   */
  function Homogenized(hooke: Matrix, hookeAvg: Matrix, area: real, n: nat): (r: Matrix)
    requires IsMatrix(hooke, n, n) && IsMatrix(hookeAvg, n, n) && area != 0.0
    ensures IsMatrix(r, n, n)
    ensures forall i, j :: 0 <= i < n && 0 <= j < n ==>
              r[i][j] == if n == 8 && 6 <= i && 6 <= j then hooke[i][j] / area * (5.0 / 6.0)
                         else hookeAvg[i][j] / area - hooke[i][j] / area
  {
    seq(n, i requires 0 <= i < n =>
      seq(n, j requires 0 <= j < n =>
        if n == 8 && 6 <= i && 6 <= j then hooke[i][j] / area * (5.0 / 6.0)
        else hookeAvg[i][j] / area - hooke[i][j] / area))
  }

  /** What `homogenize` returns, given the blocks' contributions. */
  function HomogenizeResult(model: string, area: real, blocks: seq<HomgBlock>): (r: Result<Matrix, HomgError>)
    requires Nstre(model).Some? ==> TermsFit(blocks, Nstre(model).value)
    requires area != 0.0
    ensures r.Err? ==> (r.error == UnboundNstre <==> Nstre(model).None?)
    ensures r.Ok? <==> Nstre(model).Some? && forall k :: 0 <= k < |blocks| ==> Supported(blocks[k])
    ensures r.Ok? ==> IsMatrix(r.value, Nstre(model).value, Nstre(model).value)
  {
    if Nstre(model).None? then Err(UnboundNstre)
    else if exists k :: 0 <= k < |blocks| && !Supported(blocks[k]) then Err(NotImplemented)
    else
      var n := Nstre(model).value;
      Ok(Homogenized(HookeSum(blocks, n), AvgSum(blocks, n), area, n))
  }

  /** The nodal fixity against rigid body motion, all other degrees of freedom free. */
  method SupportsAgainstRigidMotion(nPoints: nat, ndofn: nat, iC: nat, iX: nat, iY: nat) returns (F: array2<bool>)
    requires iC < nPoints && iX < nPoints && iY < nPoints && ndofn >= 3
    ensures fresh(F) && F.Length0 == nPoints && F.Length1 == ndofn
    ensures forall i, j :: 0 <= i < nPoints && 0 <= j < ndofn ==> (F[i, j] <==> IsAnchor(i, j, iC, iX, iY))
  {
    F := new bool[nPoints, ndofn]((i, j) => false);
    forall j | 0 <= j < 3 {
      F[iC, j] := true;
    }
    F[iX, 1] := true;
    F[iX, 2] := true;
    F[iY, 2] := true;
  }

  class RepresentativeSurfaceElement {
    /** The mesh class (its NDOFN), the number of points and the cell blocks of the mesh. */
    const kind: MeshKind
    const nPoints: nat
    const blocks: seq<HomgBlock>
    /** Nodal loads and fixity of the mesh's point data. */
    var loads: array3<real>
    var fixity: array2<bool>
    /** The strain loads of each block's cell data. */
    var strainLoads: seq<Option<LoadTable>>
    /** The structure's constraints. */
    var constraints: seq<Constraint>

    ghost predicate Valid()
      reads this
    {
      |strainLoads| == |blocks|
    }

    constructor (kind: MeshKind, nPoints: nat, blocks: seq<HomgBlock>)
      ensures this.kind == kind && this.nPoints == nPoints && this.blocks == blocks
      ensures Valid() && constraints == [] && forall k :: 0 <= k < |blocks| ==> strainLoads[k].None?
      ensures fresh(loads) && fresh(fixity)
    {
      this.kind := kind;
      this.nPoints := nPoints;
      this.blocks := blocks;
      loads := new real[0, 0, 0];
      fixity := new bool[0, 0];
      strainLoads := seq(|blocks|, _ => None);
      constraints := [];
    }

    /** The strain-load loop: every block up to the first unsupported one receives its unit strain loads. */
    method ApplyStrainLoads(n: nat) returns (bad: Option<nat>)
      requires Valid()
      modifies this
      ensures Valid() && loads == old(loads) && fixity == old(fixity) && constraints == old(constraints)
      ensures bad.None? ==> forall k :: 0 <= k < |blocks| ==> Supported(blocks[k]) && strainLoads[k] == Some(StrainLoadOf(blocks[k], n))
      ensures bad.Some? ==> bad.value < |blocks| && !Supported(blocks[bad.value])
      ensures bad.Some? ==> forall k :: 0 <= k < bad.value ==> Supported(blocks[k]) && strainLoads[k] == Some(StrainLoadOf(blocks[k], n))
      ensures bad.Some? ==> forall k :: bad.value <= k < |blocks| ==> strainLoads[k] == old(strainLoads[k])
    {
      for b := 0 to |blocks|
        invariant Valid() && loads == old(loads) && fixity == old(fixity) && constraints == old(constraints)
        invariant forall k :: 0 <= k < b ==> Supported(blocks[k]) && strainLoads[k] == Some(StrainLoadOf(blocks[k], n))
        invariant forall k :: b <= k < |blocks| ==> strainLoads[k] == old(strainLoads[k])
      {
        var sl := blocks[b].strainField(n);
        if blocks[b].ndim == 3 {
          strainLoads := strainLoads[b := Some(sl)];
        } else if blocks[b].ndim == 2 {
          strainLoads := strainLoads[b := Some(blocks[b].toSurface(sl))];
        } else {
          return Some(b);
        }
      }
      return None;
    }

    /** The post-processing loop: clears every block's strain loads and accumulates its contributions. */
    method CollectStiffness(n: nat) returns (hooke: Matrix, hookeAvg: Matrix)
      requires Valid() && TermsFit(blocks, n)
      requires forall k :: 0 <= k < |blocks| ==> Supported(blocks[k])
      modifies this
      ensures Valid() && loads == old(loads) && fixity == old(fixity) && constraints == old(constraints)
      ensures forall k :: 0 <= k < |blocks| ==> strainLoads[k].None?
      ensures hooke == HookeSum(blocks, n) && hookeAvg == AvgSum(blocks, n)
    {
      hooke := ZeroMatrix(n, n);
      hookeAvg := ZeroMatrix(n, n);
      for b := 0 to |blocks|
        invariant Valid() && loads == old(loads) && fixity == old(fixity) && constraints == old(constraints)
        invariant forall k :: 0 <= k < b ==> strainLoads[k].None?
        invariant hooke == HookeSum(blocks[..b], n) && hookeAvg == AvgSum(blocks[..b], n)
      {
        strainLoads := strainLoads[b := None];
        assert blocks[..b + 1][..b] == blocks[..b];
        if blocks[b].ndim == 3 || blocks[b].ndim == 2 {
          hooke := MatAdd(hooke, blocks[b].hooke);
          hookeAvg := MatAdd(hookeAvg, blocks[b].hookeAvg);
        }
      }
      assert blocks[..|blocks|] == blocks;
    }

    /**
     * `homogenize`: resets the nodal loads to zero, supports the cell
     * against rigid body motion, loads every block with the unit strain
     * fields, adds the periodicity constraint, and (after the solution)
     * clears the strain loads while accumulating the blocks' contributions
     * into the effective stiffness. `iC`, `iX` and `iY` are the nodes nearest
     * to the centre, to (xmax, 0, 0) and to (0, ymax, 0).
     */
    method Homogenize(model: string, bounds: Bounds, iC: nat, iX: nat, iY: nat, links: seq<(nat, nat)>)
      returns (r: Result<Matrix, HomgError>)
      requires Valid()
      requires iC < nPoints && iX < nPoints && iY < nPoints
      requires Nstre(model).Some? ==> TermsFit(blocks, Nstre(model).value)
      requires Area(bounds) != 0.0
      modifies this
      ensures Valid()
      ensures r == HomogenizeResult(model, Area(bounds), blocks)
      ensures r.Err? && r.error == UnboundNstre ==>
                loads == old(loads) && fixity == old(fixity) && strainLoads == old(strainLoads) && constraints == old(constraints)
      ensures r.Err? && r.error == NotImplemented ==>
                constraints == old(constraints) &&
                exists j :: 0 <= j < |blocks| && !Supported(blocks[j]) &&
                  (forall k :: 0 <= k < j ==> Supported(blocks[k]) && strainLoads[k] == Some(StrainLoadOf(blocks[k], Nstre(model).value))) &&
                  (forall k :: j <= k < |blocks| ==> strainLoads[k] == old(strainLoads[k]))
      ensures r.Ok? ==> constraints == old(constraints) + [NodeToNode(links)]
      ensures r.Ok? ==> forall k :: 0 <= k < |blocks| ==> strainLoads[k].None?
      ensures (r.Err? && r.error == NotImplemented) || r.Ok? ==>
                fresh(loads) && fresh(fixity) && NodalData(loads, fixity, Nstre(model).value, iC, iX, iY)
    {
      var nstre := Nstre(model);
      if nstre.None? {
        return Err(UnboundNstre);
      }
      var n := nstre.value;
      var area := Area(bounds);

      loads := new real[nPoints, Ndofn(kind), n]((i, j, k) => 0.0);
      fixity := SupportsAgainstRigidMotion(nPoints, Ndofn(kind), iC, iX, iY);
      ghost var L, F := loads, fixity;
      assert NodalData(L, F, n, iC, iX, iY);

      var periodicity := NodeToNode(links);

      var bad := ApplyStrainLoads(n);
      if bad.Some? {
        return Err(NotImplemented);
      }

      constraints := constraints + [periodicity];

      var hooke, hookeAvg := CollectStiffness(n);
      var result := Homogenized(hooke, hookeAvg, area, n);
      return Ok(result);
    }

    /** Zero nodal loads of shape (points, NDOFN, n) and the rigid-body supports. */
    ghost predicate NodalData(L: array3<real>, F: array2<bool>, n: nat, iC: nat, iX: nat, iY: nat)
      reads this, L, F
    {
      && L.Length0 == nPoints && L.Length1 == Ndofn(kind) && L.Length2 == n
      && (forall i, j, k :: 0 <= i < nPoints && 0 <= j < Ndofn(kind) && 0 <= k < n ==> L[i, j, k] == 0.0)
      && F.Length0 == nPoints && F.Length1 == Ndofn(kind)
      && (forall i, j :: 0 <= i < nPoints && 0 <= j < Ndofn(kind) ==> (F[i, j] <==> IsAnchor(i, j, iC, iX, iY)))
    }

    /** `ABD`: the Kirchhoff-Love stiffness. */
    method ABD(bounds: Bounds, iC: nat, iX: nat, iY: nat, links: seq<(nat, nat)>) returns (r: Result<Matrix, HomgError>)
      requires Valid()
      requires iC < nPoints && iX < nPoints && iY < nPoints
      requires TermsFit(blocks, 6) && Area(bounds) != 0.0
      modifies this
      ensures Valid()
      ensures r == HomogenizeResult("KL", Area(bounds), blocks)
      ensures r.Err? ==> r.error == NotImplemented && constraints == old(constraints)
      ensures r.Err? ==>
                exists j :: 0 <= j < |blocks| && !Supported(blocks[j]) &&
                  (forall k :: 0 <= k < j ==> Supported(blocks[k]) && strainLoads[k] == Some(StrainLoadOf(blocks[k], 6))) &&
                  (forall k :: j <= k < |blocks| ==> strainLoads[k] == old(strainLoads[k]))
      ensures r.Ok? ==> constraints == old(constraints) + [NodeToNode(links)]
      ensures r.Ok? ==> forall k :: 0 <= k < |blocks| ==> strainLoads[k].None?
      ensures fresh(loads) && fresh(fixity) && NodalData(loads, fixity, 6, iC, iX, iY)
    {
      r := Homogenize("KL", bounds, iC, iX, iY, links);
    }

    /** `ABDS`: the Mindlin-Reissner stiffness. */
    method ABDS(bounds: Bounds, iC: nat, iX: nat, iY: nat, links: seq<(nat, nat)>) returns (r: Result<Matrix, HomgError>)
      requires Valid()
      requires iC < nPoints && iX < nPoints && iY < nPoints
      requires TermsFit(blocks, 8) && Area(bounds) != 0.0
      modifies this
      ensures Valid()
      ensures r == HomogenizeResult("MR", Area(bounds), blocks)
      ensures r.Err? ==> r.error == NotImplemented && constraints == old(constraints)
      ensures r.Err? ==>
                exists j :: 0 <= j < |blocks| && !Supported(blocks[j]) &&
                  (forall k :: 0 <= k < j ==> Supported(blocks[k]) && strainLoads[k] == Some(StrainLoadOf(blocks[k], 8))) &&
                  (forall k :: j <= k < |blocks| ==> strainLoads[k] == old(strainLoads[k]))
      ensures r.Ok? ==> constraints == old(constraints) + [NodeToNode(links)]
      ensures r.Ok? ==> forall k :: 0 <= k < |blocks| ==> strainLoads[k].None?
      ensures fresh(loads) && fresh(fixity) && NodalData(loads, fixity, 8, iC, iX, iY)
    {
      r := Homogenize("MR", bounds, iC, iX, iY, links);
    }
  }

  /** Kirchhoff-Love ('KL' in any case): every entry is the averaged minus the fluctuating stiffness, each per unit area. */
  lemma KirchhoffLoveEntry(model: string, area: real, blocks: seq<HomgBlock>, i: int, j: int)
    requires Nstre(model) == Some(6) && TermsFit(blocks, 6) && area != 0.0
    requires forall k :: 0 <= k < |blocks| ==> Supported(blocks[k])
    requires 0 <= i < 6 && 0 <= j < 6
    ensures HomogenizeResult(model, area, blocks).Ok?
    ensures HomogenizeResult(model, area, blocks).value[i][j] == AvgSum(blocks, 6)[i][j] / area - HookeSum(blocks, 6)[i][j] / area
  {
    var H, A := HookeSum(blocks, 6), AvgSum(blocks, 6);
    var R := Homogenized(H, A, area, 6);
    assert HomogenizeResult(model, area, blocks) == Ok(R);
    assert R[i][j] == A[i][j] / area - H[i][j] / area;
  }

  /**
   * Mindlin-Reissner ('MR' in any case): the same outside the transverse
   * shear block; inside it (rows and columns 6 and 7), 5/6 of the
   * fluctuating stiffness per unit area.
   */
  lemma MindlinReissnerEntry(model: string, area: real, blocks: seq<HomgBlock>, i: int, j: int)
    requires Nstre(model) == Some(8) && TermsFit(blocks, 8) && area != 0.0
    requires forall k :: 0 <= k < |blocks| ==> Supported(blocks[k])
    requires 0 <= i < 8 && 0 <= j < 8
    ensures HomogenizeResult(model, area, blocks).Ok?
    ensures !(6 <= i && 6 <= j) ==>
              HomogenizeResult(model, area, blocks).value[i][j] == AvgSum(blocks, 8)[i][j] / area - HookeSum(blocks, 8)[i][j] / area
    ensures 6 <= i && 6 <= j ==>
              HomogenizeResult(model, area, blocks).value[i][j] == HookeSum(blocks, 8)[i][j] / area * (5.0 / 6.0)
  {
    var H, A := HookeSum(blocks, 8), AvgSum(blocks, 8);
    var R := Homogenized(H, A, area, 8);
    assert HomogenizeResult(model, area, blocks) == Ok(R);
    if 6 <= i && 6 <= j {
      assert R[i][j] == H[i][j] / area * (5.0 / 6.0);
    } else {
      assert R[i][j] == A[i][j] / area - H[i][j] / area;
    }
  }

  /** The sum of symmetric contributions is symmetric. */
  lemma {:induction false} HookeSumSymmetric(blocks: seq<HomgBlock>, n: nat)
    requires TermsFit(blocks, n)
    requires forall k, i, j :: 0 <= k < |blocks| && 0 <= i < n && 0 <= j < n ==> blocks[k].hooke[i][j] == blocks[k].hooke[j][i]
    ensures forall i, j :: 0 <= i < n && 0 <= j < n ==> HookeSum(blocks, n)[i][j] == HookeSum(blocks, n)[j][i]
    decreases |blocks|
  {
    if |blocks| > 0 {
      HookeSumSymmetric(blocks[..|blocks| - 1], n);
    }
  }

  lemma {:induction false} AvgSumSymmetric(blocks: seq<HomgBlock>, n: nat)
    requires TermsFit(blocks, n)
    requires forall k, i, j :: 0 <= k < |blocks| && 0 <= i < n && 0 <= j < n ==> blocks[k].hookeAvg[i][j] == blocks[k].hookeAvg[j][i]
    ensures forall i, j :: 0 <= i < n && 0 <= j < n ==> AvgSum(blocks, n)[i][j] == AvgSum(blocks, n)[j][i]
    decreases |blocks|
  {
    if |blocks| > 0 {
      AvgSumSymmetric(blocks[..|blocks| - 1], n);
    }
  }

  /** Symmetric block contributions give a symmetric effective stiffness, for either plate model. */
  lemma HomogenizedSymmetric(model: string, area: real, blocks: seq<HomgBlock>)
    requires Nstre(model).Some? && TermsFit(blocks, Nstre(model).value) && area != 0.0
    requires forall k, i, j :: 0 <= k < |blocks| && 0 <= i < Nstre(model).value && 0 <= j < Nstre(model).value ==>
               blocks[k].hooke[i][j] == blocks[k].hooke[j][i] && blocks[k].hookeAvg[i][j] == blocks[k].hookeAvg[j][i]
    ensures HomogenizeResult(model, area, blocks).Ok? ==>
              forall i, j :: 0 <= i < Nstre(model).value && 0 <= j < Nstre(model).value ==>
                HomogenizeResult(model, area, blocks).value[i][j] == HomogenizeResult(model, area, blocks).value[j][i]
  {
    HookeSumSymmetric(blocks, Nstre(model).value);
    AvgSumSymmetric(blocks, Nstre(model).value);
  }
}
