/**
 * The finite element mesh: the model (material) lookup through the block
 * hierarchy, assembly of the sparse stiffness, mass and penalty matrices
 * from the blocks' contributions, the nodal load vector and the reshaping
 * of the nodal solution.
 */
module Mesh {
  import opened Results
  import opened Linalg
  import opened Coo

  /** The two mesh classes and their nodal degrees of freedom. */
  datatype MeshKind = FemMesh | SolidMesh

  function Ndofn(k: MeshKind): nat {
    match k
    case FemMesh => 6
    case SolidMesh => 3
  }

  function Dofs(k: MeshKind): (names: seq<string>)
    ensures |names| == Ndofn(k)
  {
    match k
    case FemMesh => ["UX", "UY", "UZ", "ROTX", "ROTY", "ROTZ"]
    case SolidMesh => ["UX", "UY", "UZ"]
  }

  /** A solid mesh keeps the three translations of the general mesh and drops the rotations. */
  lemma SolidDofsArePrefix()
    ensures Dofs(SolidMesh) == Dofs(FemMesh)[..Ndofn(SolidMesh)]
    ensures forall i, j :: 0 <= i < j < Ndofn(FemMesh) ==> Dofs(FemMesh)[i] != Dofs(FemMesh)[j]
  {
  }

  // ---------------------------------------------------------------- models

  /** What can be attached as a model: a raw stiffness matrix, or an object whose `stiffness_matrix()` either answers or raises (None). */
  datatype Model = RawMatrix(matrix: Matrix) | ModelObject(stiffness: Option<Matrix>)

  /** A block of the mesh hierarchy with its own (optional) model; the root has no parent. */
  datatype Block = Block(own: Option<Model>, parent: Option<Block>)

  /** The `model` property: the block's own model, else the parent's, up to the root. */
  function ModelOf(b: Block): (m: Option<Model>)
    ensures b.own.Some? ==> m == b.own
    ensures m.Some? ==> b.own.Some? || b.parent.Some?
    decreases b
  {
    if b.own.Some? then b.own
    else if b.parent.None? then b.own
    else ModelOf(b.parent.value)
  }

  /** The block and its ancestors, nearest first, ending at the root. */
  function Chain(b: Block): (c: seq<Block>)
    ensures |c| >= 1 && c[0] == b && c[|c| - 1].parent.None?
    decreases b
  {
    if b.parent.None? then [b] else [b] + Chain(b.parent.value)
  }

  /**
   * The model found is the nearest one along the chain to the root: no
   * model anywhere on the chain gives None, and otherwise the result is the
   * model of the first block on the chain that has one.
   */
  lemma {:induction false} ModelIsNearest(b: Block)
    ensures ModelOf(b).None? <==> forall k :: 0 <= k < |Chain(b)| ==> Chain(b)[k].own.None?
    ensures ModelOf(b).Some? ==>
              exists k :: 0 <= k < |Chain(b)| && Chain(b)[k].own == ModelOf(b) &&
                forall k' :: 0 <= k' < k ==> Chain(b)[k'].own.None?
    decreases b
  {
    if b.own.Some? {
      assert Chain(b)[0].own == ModelOf(b);
    } else if b.parent.None? {
      assert Chain(b) == [b];
    } else {
      var p := b.parent.value;
      ModelIsNearest(p);
      assert Chain(b) == [b] + Chain(p);
      if ModelOf(b).Some? {
        var k :| 0 <= k < |Chain(p)| && Chain(p)[k].own == ModelOf(p) &&
                 forall k' :: 0 <= k' < k ==> Chain(p)[k'].own.None?;
        assert Chain(b)[k + 1].own == ModelOf(b);
      }
    }
  }

  /** RuntimeError of the model lookup, the error of summing no blocks, and the unpacking error of a wrongly shaped solution. */
  datatype MeshError = RuntimeError | NoCellBlocks | BadShape

  /**
   * `material_stiffness_matrix`: a raw matrix is returned as it is, a model
   * object answers with its stiffness matrix, and everything else (no model,
   * or an object that raises) is a RuntimeError.
   */
  function MaterialStiffnessMatrix(b: Block): (r: Result<Matrix, MeshError>)
    ensures r.Ok? <==> ModelOf(b).Some? && (ModelOf(b).value.RawMatrix? || ModelOf(b).value.stiffness.Some?)
    ensures r.Ok? && ModelOf(b).value.RawMatrix? ==> r.value == ModelOf(b).value.matrix
    ensures r.Ok? && ModelOf(b).value.ModelObject? ==> r.value == ModelOf(b).value.stiffness.value
    ensures r.Err? ==> r.error == RuntimeError
  {
    match ModelOf(b)
    case None => Err(RuntimeError)
    case Some(RawMatrix(m)) => Ok(m)
    case Some(ModelObject(Some(k))) => Ok(k)
    case Some(ModelObject(None)) => Err(RuntimeError)
  }

  // ------------------------------------------------------- sparse assembly

  /** The stored triplets after the optional `eliminate_zeros` and then the optional `sum_duplicates`. */
  function Finalised(ts: seq<Triplet>, eliminateZeros: bool, sumDuplicates: bool): (f: seq<Triplet>)
    ensures |f| <= |ts|
    ensures !eliminateZeros && !sumDuplicates ==> f == ts
    ensures eliminateZeros && !sumDuplicates ==> forall t :: t in f <==> t in ts && t.val != 0.0
  {
    var nz := if eliminateZeros then NonZero(ts) else ts;
    if sumDuplicates then Merged(nz) else nz
  }

  /** Finalisation never changes the matrix; merging leaves each key once, and without merging, elimination leaves no zero. */
  lemma FinalisedMeaning(ts: seq<Triplet>, eliminateZeros: bool, sumDuplicates: bool)
    ensures forall r: nat, c: nat :: Entry(Finalised(ts, eliminateZeros, sumDuplicates), r, c) == Entry(ts, r, c)
    ensures sumDuplicates ==> DistinctKeys(Finalised(ts, eliminateZeros, sumDuplicates))
    ensures eliminateZeros && !sumDuplicates ==> forall t :: t in Finalised(ts, eliminateZeros, sumDuplicates) ==> t.val != 0.0
  {
    var nz := if eliminateZeros then NonZero(ts) else ts;
    forall r: nat, c: nat ensures Entry(Finalised(ts, eliminateZeros, sumDuplicates), r, c) == Entry(ts, r, c) {
      NonZeroEntry(ts, r, c);
      MergedEntry(nz, r, c);
    }
    MergedKeys(nz);
  }

  /** The in-place finalisation of an assembled matrix. */
  method Finalise(K: CooMatrix, eliminateZeros: bool, sumDuplicates: bool)
    modifies K
    ensures K.entries == Finalised(old(K.entries), eliminateZeros, sumDuplicates)
  {
    if eliminateZeros {
      K.EliminateZeros();
    }
    if sumDuplicates {
      K.SumDuplicates();
    }
  }

  /**
   * `elastic_stiffness_matrix_coo`: the sum of every cell block's COO
   * stiffness, then finalised. Summing an empty list of blocks gives a plain
   * zero that has no COO form, which is an error.
   */
  method ElasticStiffnessMatrixCoo(blocks: seq<seq<Triplet>>, eliminateZeros: bool, sumDuplicates: bool)
    returns (r: Result<CooMatrix, MeshError>)
    ensures r.Ok? <==> |blocks| > 0
    ensures r.Err? ==> r.error == NoCellBlocks
    ensures r.Ok? ==> fresh(r.value) && r.value.entries == Finalised(SumBlocks(blocks), eliminateZeros, sumDuplicates)
  {
    if |blocks| == 0 {
      return Err(NoCellBlocks);
    }
    var K := new CooMatrix(SumBlocks(blocks));
    Finalise(K, eliminateZeros, sumDuplicates);
    return Ok(K);
  }

  /** Every entry of the assembled stiffness is the sum of the blocks' entries. */
  lemma StiffnessIsBlockSum(blocks: seq<seq<Triplet>>, eliminateZeros: bool, sumDuplicates: bool, r: nat, c: nat)
    ensures Entry(Finalised(SumBlocks(blocks), eliminateZeros, sumDuplicates), r, c) == BlockEntrySum(blocks, r, c)
  {
    FinalisedMeaning(SumBlocks(blocks), eliminateZeros, sumDuplicates);
    SumBlocksEntry(blocks, r, c);
  }

  /**
   * Nodal masses of the root point data, when it has a mass field: the
   * per-block COO masses of the masses distributed over the cells, and the
   * lumped nodal COO mass matrix, given the number of degrees of freedom per
   * node.
   */
  datatype NodalMasses = NoMassField | MassField(distributed: seq<seq<Triplet>>, lumped: nat -> seq<Triplet>)

  /** The triplets `consistent_mass_matrix_coo` adds for nodal masses (none without a mass field). */
  function NodalMassTriplets(kind: MeshKind, nodal: NodalMasses, distribute: bool): seq<Triplet> {
    match nodal
    case NoMassField => []
    case MassField(d, lumped) => if distribute then SumBlocks(d) else lumped(Ndofn(kind))
  }

  /**
   * `consistent_mass_matrix_coo`: the cell blocks' consistent masses plus,
   * only when the root has a mass field, either the distributed nodal masses
   * block by block or the lumped nodal mass matrix with the mesh class's
   * NDOFN; then finalised.
   */
  method ConsistentMassMatrixCoo(kind: MeshKind, cells: seq<seq<Triplet>>, nodal: NodalMasses,
                                 eliminateZeros: bool, sumDuplicates: bool, distribute: bool)
    returns (r: Result<CooMatrix, MeshError>)
    requires nodal.MassField? ==> |nodal.distributed| == |cells|
    ensures r.Ok? <==> |cells| > 0
    ensures r.Err? ==> r.error == NoCellBlocks
    ensures r.Ok? ==> fresh(r.value)
    ensures r.Ok? ==> r.value.entries == Finalised(SumBlocks(cells) + NodalMassTriplets(kind, nodal, distribute), eliminateZeros, sumDuplicates)
  {
    if |cells| == 0 {
      return Err(NoCellBlocks);
    }
    var M := new CooMatrix(SumBlocks(cells));
    if nodal.MassField? {
      if distribute {
        M.AddInPlace(SumBlocks(nodal.distributed));
      } else {
        M.AddInPlace(nodal.lumped(Ndofn(kind)));
      }
    }
    assert M.entries == SumBlocks(cells) + NodalMassTriplets(kind, nodal, distribute);
    Finalise(M, eliminateZeros, sumDuplicates);
    return Ok(M);
  }

  /** Without a mass field the mass matrix is the cells' consistent masses alone. */
  lemma MassWithoutNodalMasses(kind: MeshKind, cells: seq<seq<Triplet>>, distribute: bool,
                               eliminateZeros: bool, sumDuplicates: bool, r: nat, c: nat)
    ensures Entry(Finalised(SumBlocks(cells) + NodalMassTriplets(kind, NoMassField, distribute), eliminateZeros, sumDuplicates), r, c)
            == BlockEntrySum(cells, r, c)
  {
    assert SumBlocks(cells) + NodalMassTriplets(kind, NoMassField, distribute) == SumBlocks(cells);
    StiffnessIsBlockSum(cells, eliminateZeros, sumDuplicates, r, c);
  }

  /** With a mass field, every entry is the cells' entry plus the nodal contribution's entry. */
  lemma MassWithNodalMasses(kind: MeshKind, cells: seq<seq<Triplet>>, nodal: NodalMasses, distribute: bool,
                            eliminateZeros: bool, sumDuplicates: bool, r: nat, c: nat)
    ensures Entry(Finalised(SumBlocks(cells) + NodalMassTriplets(kind, nodal, distribute), eliminateZeros, sumDuplicates), r, c)
            == BlockEntrySum(cells, r, c) + Entry(NodalMassTriplets(kind, nodal, distribute), r, c)
  {
    FinalisedMeaning(SumBlocks(cells) + NodalMassTriplets(kind, nodal, distribute), eliminateZeros, sumDuplicates);
    EntryAppend(SumBlocks(cells), NodalMassTriplets(kind, nodal, distribute), r, c);
    SumBlocksEntry(cells, r, c);
  }

  // --------------------------------------------------------------- penalty

  /** Fixity flags of shape (number of nodes, NDOFN). */
  type Fixity = seq<seq<bool>>

  /**
   * The penalty matrix the documentation describes: the penalty of the given
   * fixity, and of the root point data's fixity only when none is given.
   * `penalty` is the COO penalty matrix of a fixity table (with the two
   * finalisation flags).
   */
  function PenaltyMatrixCoo(fixity: Option<Fixity>, rootFixity: Fixity,
                            penalty: (Fixity, bool, bool) -> seq<Triplet>,
                            eliminateZeros: bool, sumDuplicates: bool): (ts: seq<Triplet>)
    ensures fixity.Some? ==> ts == penalty(fixity.value, eliminateZeros, sumDuplicates)
    ensures fixity.None? ==> ts == penalty(rootFixity, eliminateZeros, sumDuplicates)
  {
    penalty(if fixity.Some? then fixity.value else rootFixity, eliminateZeros, sumDuplicates)
  }

  /**
   * `penalty_matrix_coo` as written: the fixity argument is replaced by the
   * root point data's, so every call behaves as the documented routine
   * called without a fixity.
   */
  function PenaltyMatrixCooAsWritten(fixity: Option<Fixity>, rootFixity: Fixity,
                                     penalty: (Fixity, bool, bool) -> seq<Triplet>,
                                     eliminateZeros: bool, sumDuplicates: bool): (ts: seq<Triplet>)
    ensures ts == PenaltyMatrixCoo(None, rootFixity, penalty, eliminateZeros, sumDuplicates)
  {
    penalty(rootFixity, eliminateZeros, sumDuplicates)
  }

  /** The fixity argument has no effect on the matrix as written. */
  lemma PenaltyIgnoresFixityArgument(f: Fixity, rootFixity: Fixity, penalty: (Fixity, bool, bool) -> seq<Triplet>,
                                     eliminateZeros: bool, sumDuplicates: bool)
    ensures PenaltyMatrixCooAsWritten(Some(f), rootFixity, penalty, eliminateZeros, sumDuplicates)
            == PenaltyMatrixCooAsWritten(None, rootFixity, penalty, eliminateZeros, sumDuplicates)
  {
  }

  /** A penalty of 1 on the first degree of freedom of the first node when it is fixed. */
  function FirstDofPenalty(f: Fixity, eliminateZeros: bool, sumDuplicates: bool): seq<Triplet> {
    if |f| > 0 && |f[0]| > 0 && f[0][0] then [Triplet(0, 0, 1.0)] else []
  }

  /** Fixing a node through the argument yields no penalty as written, and the penalty as intended. */
  lemma PenaltyArgumentCounterexample()
    ensures PenaltyMatrixCooAsWritten(Some([[true]]), [[false]], FirstDofPenalty, true, true) == []
    ensures PenaltyMatrixCoo(Some([[true]]), [[false]], FirstDofPenalty, true, true) == [Triplet(0, 0, 1.0)]
  {
  }

  /** As intended, a passed fixity decides the matrix and the root's fixity is irrelevant. */
  lemma PenaltyUsesGivenFixity(f: Fixity, root1: Fixity, root2: Fixity, penalty: (Fixity, bool, bool) -> seq<Triplet>,
                               eliminateZeros: bool, sumDuplicates: bool)
    ensures PenaltyMatrixCoo(Some(f), root1, penalty, eliminateZeros, sumDuplicates)
            == PenaltyMatrixCoo(Some(f), root2, penalty, eliminateZeros, sumDuplicates)
            == PenaltyMatrixCoo(None, f, penalty, eliminateZeros, sumDuplicates)
  {
  }

  // ----------------------------------------------------------- load vector

  /** A block's body or strain load vector: none, an array, or an exception. */
  datatype BlockLoad = Absent | Present(load: Matrix) | Raises

  /** The `try` around the sum fails when a block raises or a present load does not have the nodal loads' shape. */
  predicate Fails(loads: seq<BlockLoad>, rows: nat, cols: nat) {
    exists b :: b in loads && (b.Raises? || (b.Present? && !IsMatrix(b.load, rows, cols)))
  }

  /** Reference sum: entry (i, k) of the present loads, added up. */
  function LoadSum(loads: seq<BlockLoad>, rows: nat, cols: nat, i: nat, k: nat): real
    requires !Fails(loads, rows, cols) && i < rows && k < cols
  {
    if |loads| == 0 then 0.0
    else (if loads[0].Present? then loads[0].load[i][k] else 0.0) + LoadSum(loads[1..], rows, cols, i, k)
  }

  /**
   * `np.sum` over the loads that are not None, inside the `try`: None when
   * the sum raises, otherwise the entrywise sum (zero for no loads).
   */
  function TrySum(loads: seq<BlockLoad>, rows: nat, cols: nat): (s: Option<Matrix>)
    ensures s.Some? <==> !Fails(loads, rows, cols)
    ensures s.Some? ==> IsMatrix(s.value, rows, cols)
    ensures s.Some? ==> forall i, k :: 0 <= i < rows && 0 <= k < cols ==> s.value[i][k] == LoadSum(loads, rows, cols, i, k)
  {
    if |loads| == 0 then Some(ZeroMatrix(rows, cols))
    else
      assert forall b :: b in loads <==> b == loads[0] || b in loads[1..] by {
        assert loads == [loads[0]] + loads[1..];
      }
      assert loads[0] in loads;
      match loads[0]
      case Raises => None
      case Absent => TrySum(loads[1..], rows, cols)
      case Present(m) =>
        if !IsMatrix(m, rows, cols) then None
        else match TrySum(loads[1..], rows, cols)
          case None => None
          case Some(rest) => Some(MatAdd(m, rest))
  }

  /** The part a group of loads adds to entry (i, k): all of it, or nothing when the sum raises. */
  function Part(loads: seq<BlockLoad>, rows: nat, cols: nat, i: nat, k: nat): real
    requires i < rows && k < cols
  {
    if Fails(loads, rows, cols) then 0.0 else LoadSum(loads, rows, cols, i, k)
  }

  /**
   * `load_vector`: the nodal loads, then `+=` the sum of the body loads, then
   * `+=` the sum of the strain loads; a sum that raises is skipped.
   */
  method LoadVector(nodal: Matrix, cols: nat, body: seq<BlockLoad>, strain: seq<BlockLoad>) returns (res: Matrix)
    requires IsMatrix(nodal, |nodal|, cols)
    ensures IsMatrix(res, |nodal|, cols)
    ensures forall i, k :: 0 <= i < |nodal| && 0 <= k < cols ==>
              res[i][k] == nodal[i][k] + Part(body, |nodal|, cols, i, k) + Part(strain, |nodal|, cols, i, k)
  {
    var rows := |nodal|;
    res := nodal;
    var b := TrySum(body, rows, cols);
    if b.Some? {
      res := MatAdd(res, b.value);
    }
    var s := TrySum(strain, rows, cols);
    if s.Some? {
      res := MatAdd(res, s.value);
    }
  }

  /** Blocks without loads add nothing. */
  lemma {:induction false} AbsentLoadsAddNothing(loads: seq<BlockLoad>, rows: nat, cols: nat, i: nat, k: nat)
    requires forall b :: b in loads ==> b.Absent?
    requires i < rows && k < cols
    ensures Part(loads, rows, cols, i, k) == 0.0
    decreases |loads|
  {
    if |loads| > 0 {
      assert forall b :: b in loads[1..] ==> b in loads;
      AbsentLoadsAddNothing(loads[1..], rows, cols, i, k);
    }
  }

  /** One raising block drops the whole group, even the loads that are present. */
  lemma RaisingBlockDropsGroup(loads: seq<BlockLoad>, rows: nat, cols: nat, j: nat, i: nat, k: nat)
    requires j < |loads| && loads[j].Raises? && i < rows && k < cols
    ensures Part(loads, rows, cols, i, k) == 0.0
  {
    assert loads[j] in loads;
  }

  // ------------------------------------------------------- nodal solution

  /** Row-major concatenation of equally long rows. */
  function Concat<T>(s: seq<seq<T>>): (c: seq<T>)
    decreases |s|
  {
    if |s| == 0 then [] else s[0] + Concat(s[1..])
  }

  /** Split into consecutive rows of w entries. */
  function Chunk<T>(v: seq<T>, w: nat): (s: seq<seq<T>>)
    requires w > 0
    decreases |v|
  {
    if |v| <= w then (if |v| == 0 then [] else [v]) else [v[..w]] + Chunk(v[w..], w)
  }

  predicate Uniform<T>(s: seq<seq<T>>, w: nat) {
    forall i :: 0 <= i < |s| ==> |s[i]| == w
  }

  lemma {:induction false} ConcatLength<T>(s: seq<seq<T>>, w: nat)
    requires Uniform(s, w)
    ensures |Concat(s)| == |s| * w
    decreases |s|
  {
    if |s| > 0 {
      ConcatLength(s[1..], w);
    }
  }

  /** Entry j of row i lands at position i * w + j. */
  lemma {:induction false} ConcatIndex<T>(s: seq<seq<T>>, w: nat, i: nat, j: nat)
    requires Uniform(s, w) && i < |s| && j < w
    ensures i * w + j < |Concat(s)| && Concat(s)[i * w + j] == s[i][j]
    decreases i
  {
    ConcatLength(s, w);
    ConcatLength(s[1..], w);
    if i > 0 {
      ConcatIndex(s[1..], w, i - 1, j);
      assert i * w + j == w + ((i - 1) * w + j);
    }
  }

  /** Flattening and splitting back into rows of the same width are inverse. */
  lemma {:induction false} ChunkConcat<T>(s: seq<seq<T>>, w: nat)
    requires w > 0 && Uniform(s, w)
    ensures Chunk(Concat(s), w) == s
    decreases |s|
  {
    if |s| > 0 {
      ConcatLength(s[1..], w);
      var c := Concat(s);
      assert c[..w] == s[0];
      assert c[w..] == Concat(s[1..]);
      ChunkConcat(s[1..], w);
      if |s| == 1 {
        assert c == s[0];
      } else {
        ConcatLength(s[1..], w);
        assert |c| > w;
      }
    }
  }

  /** The arrays the nodal solution can have: one right-hand side (2-D) or several (3-D); flattening gives one dimension less. */
  datatype NodalArray = Array1(vec: Vector) | Array2(rows: seq<Vector>) | Array3(table: seq<seq<Vector>>)

  /**
   * `nodal_dof_solution`: with `flatten`, a `(nN, nDOFN)` solution becomes
   * the vector of length nN * nDOFN and a `(nN, nDOFN, nRHS)` solution
   * becomes `(nN * nDOFN, nRHS)`, both row-major; otherwise it is returned
   * unchanged.
   */
  function NodalDofSolution(dofsol: NodalArray, flatten: bool): (r: Result<NodalArray, MeshError>)
    ensures !flatten ==> r == Ok(dofsol)
    ensures flatten && dofsol.Array2? ==> r.Ok? && r.value.Array1?
    ensures flatten && dofsol.Array3? ==> r.Ok? && r.value.Array2?
    ensures flatten && dofsol.Array1? ==> r == Err(BadShape)
  {
    if !flatten then Ok(dofsol)
    else match dofsol
      case Array1(_) => Err(BadShape)
      case Array2(rows) => Ok(Array1(Concat(rows)))
      case Array3(table) => Ok(Array2(Concat(table)))
  }

  /** Row i * nDOFN + j of the flattened solution holds node i, degree of freedom j, for every layout. */
  lemma FlattenedLayout(dofsol: NodalArray, ndofn: nat, i: nat, j: nat)
    requires !dofsol.Array1? && j < ndofn
    requires dofsol.Array2? ==> Uniform(dofsol.rows, ndofn) && i < |dofsol.rows|
    requires dofsol.Array3? ==> Uniform(dofsol.table, ndofn) && i < |dofsol.table|
    ensures dofsol.Array2? ==> (i * ndofn + j < |NodalDofSolution(dofsol, true).value.vec| &&
                                NodalDofSolution(dofsol, true).value.vec[i * ndofn + j] == dofsol.rows[i][j])
    ensures dofsol.Array3? ==> (i * ndofn + j < |NodalDofSolution(dofsol, true).value.rows| &&
                                NodalDofSolution(dofsol, true).value.rows[i * ndofn + j] == dofsol.table[i][j])
  {
    if dofsol.Array2? {
      ConcatIndex(dofsol.rows, ndofn, i, j);
    } else {
      ConcatIndex(dofsol.table, ndofn, i, j);
    }
  }

  /** Flattening loses nothing: splitting the result into rows of nDOFN gives the solution back. */
  lemma FlattenIsReversible(dofsol: NodalArray, ndofn: nat)
    requires ndofn > 0
    requires dofsol.Array2? ==> Uniform(dofsol.rows, ndofn)
    requires dofsol.Array3? ==> Uniform(dofsol.table, ndofn)
    ensures dofsol.Array2? ==> Chunk(NodalDofSolution(dofsol, true).value.vec, ndofn) == dofsol.rows
    ensures dofsol.Array3? ==> Chunk(NodalDofSolution(dofsol, true).value.rows, ndofn) == dofsol.table
  {
    if dofsol.Array2? {
      ChunkConcat(dofsol.rows, ndofn);
    } else if dofsol.Array3? {
      ChunkConcat(dofsol.table, ndofn);
    }
  }
}
