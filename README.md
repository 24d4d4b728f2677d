# sigmaepsilon finite element core, modelled in Dafny

This project models the computational core of the sigmaepsilon finite element
library:

- **Plate and shell element kernels.** The strain-displacement matrix `B` of
  the Reissner-Mindlin plate (5 generalized strains, 3 degrees of freedom per
  node) and of the Reissner-Mindlin shell (8 generalized strains, 6 degrees of
  freedom per node). Also, for the plate, the material strains through the
  thickness and the stiffness of a homogeneous isotropic plate.
- **Model post-processing.** Generalized strains at the quadrature points
  (`B @ esol`) and stresses from strains (`C @ strains`).
- **The mesh:**
  - the model (material) lookup through the block hierarchy and
    `material_stiffness_matrix`;
  - assembly of the sparse stiffness, mass and penalty matrices from the
    blocks' COO contributions, including `eliminate_zeros` and
    `sum_duplicates`;
  - the nodal load vector;
  - the reshaping of the nodal solution;
  - `NDOFN` of `FemMesh` and `SolidMesh`.
- **Homogenization of a representative surface element.**
  - Setup: nodal loads, supports against rigid body motion, the unit strain
    loads and the periodicity constraint.
  - The block loop, which accumulates the fluctuating and averaged
    stiffness.
  - The final combination into the Kirchhoff-Love (`ABD`) or
    Mindlin-Reissner (`ABDS`) plate stiffness.

The kernels that allocate an array and fill it in nested loops are Dafny
methods over fresh `array3`/`array4` objects. Each is proved against a
specification function, and lemmas state the structure the source promises.

Files:

- `linalg.dfy`: vectors, matrices and the dot product, with linearity lemmas.
- `kinematics.dfy`: global shape-function derivatives.
- `mindlin_plate.dfy` and `mindlin_shell.dfy`: the element kernels.
- `model_utils.dfy`: strains and stresses.
- `coo.dfy`: triplet matrices.
- `mesh.dfy`: the mesh operations.
- `rvs.dfy`: homogenization.
- `results.dfy`: `Option` and `Result`.

## Model

| member | source | states |
|---|---|---|
| Kinematics.GlobalDerivs | src/sigmaepsilon/utils/fem/mindlinplate.py:25 | one global derivative pair per node: node i's local derivatives times the inverse Jacobian |
| MindlinPlate.StrainDisplacementMatrix | src/sigmaepsilon/utils/fem/mindlinplate.py:15-35 | B is a new array of shape (nE, nP, 5, 3 nN); every (element, point) slot holds the plate table built from that point's shape values and that element's global derivatives |
| MindlinPlate.WriteNode | src/sigmaepsilon/utils/fem/mindlinplate.py:27-34 | the eight writes of one node, and nothing else in B changes |
| MindlinPlate.FillPoint | src/sigmaepsilon/utils/fem/mindlinplate.py:26-34 | the node loop turns an all-zero slot into the full plate table and leaves every other slot unchanged |
| MindlinPlate.BendingRows | src/sigmaepsilon/utils/fem/mindlinplate.py:27-30 | the curvature rows 0-2 of node i: d/dx at DOF 2, -d/dy and -d/dx at DOF 1, d/dy at DOF 2 |
| MindlinPlate.ShearRows | src/sigmaepsilon/utils/fem/mindlinplate.py:31-34 | the shear rows 3-4 of node i: derivatives at DOF 0, +N at DOF 2 of row 3, -N at DOF 1 of row 4 |
| MindlinPlate.UnwrittenIsZero | src/sigmaepsilon/utils/fem/mindlinplate.py:22-34 | every position of the zero-allocated B that no node writes stays zero |
| MindlinPlate.NodeWritesOwnColumns | src/sigmaepsilon/utils/fem/mindlinplate.py:26-34 | node i writes only into its own columns 3i..3i+2 of the five rows, so the node loop's writes are disjoint |
| MindlinPlate.EntryIsLocal | src/sigmaepsilon/utils/fem/mindlinplate.py:25-34 | a column of B depends only on the shape value and derivatives of its own node |
| MindlinPlate.EntryIsAdditive | src/sigmaepsilon/utils/fem/mindlinplate.py:25-34 | B is additive in the shape values and derivatives it is built from |
| MindlinPlate.EntryIsHomogeneous | src/sigmaepsilon/utils/fem/mindlinplate.py:25-34 | B is homogeneous in the shape values and derivatives; with additivity, B is linear in them |
| MindlinPlate.ShearFactor | src/sigmaepsilon/utils/fem/mindlinplate.py:46 | the through-thickness shear factor is 5/4 on the mid-surface, 0 on both faces z = ±t/2, and never above 5/4 |
| MindlinPlate.MidSurfaceStrains | src/sigmaepsilon/utils/fem/mindlinplate.py:44-46 | at z = 0 the curvature strains vanish and the shears are scaled by exactly 5/4 |
| MindlinPlate.FaceShearStrains | src/sigmaepsilon/utils/fem/mindlinplate.py:46 | on the top and bottom faces the transverse shear strains vanish |
| MindlinPlate.MaterialStrains | src/sigmaepsilon/utils/fem/mindlinplate.py:38-47 | succeeds exactly when no element thickness is zero; entries 0-2 are the curvatures times z, entries 3-4 the shears times the shear factor of the element's thickness; on success the result is a new array |
| MindlinPlate.ModelStiffness | src/sigmaepsilon/utils/fem/mindlinplate.py:60-66 | a new zero array shaped like C whose bending block is C·t³/12, shear block C·5t/6, and coupling blocks zero |
| MindlinPlate.StiffnessSymmetric | src/sigmaepsilon/utils/fem/mindlinplate.py:64-65 | a symmetric material matrix gives a symmetric plate stiffness |
| MindlinPlate.StiffnessCouplingZero | src/sigmaepsilon/utils/fem/mindlinplate.py:62-65 | the bending-shear coupling blocks stay zero |
| MindlinShell.StrainDisplacementMatrix | src/sigmaepsilon/utils/fem/mindlinshell.py:14-38 | B is a new array of shape (nE, nP, 8, 6 nN); every slot holds the shell table of that point and element |
| MindlinShell.WriteNode | src/sigmaepsilon/utils/fem/mindlinshell.py:26-37 | the twelve writes of one node, and nothing else in B changes |
| MindlinShell.FillPoint | src/sigmaepsilon/utils/fem/mindlinshell.py:25-37 | the node loop fills one all-zero slot with the shell table and leaves every other slot unchanged |
| MindlinShell.MembraneRows | src/sigmaepsilon/utils/fem/mindlinshell.py:26-29 | the membrane rows 0-2 of node i couple the in-plane displacements (DOF 0, 1) with the derivatives |
| MindlinShell.BendingRows | src/sigmaepsilon/utils/fem/mindlinshell.py:30-33 | the curvature rows 3-5 of node i act on the rotations (DOF 3, 4) |
| MindlinShell.ShearRows | src/sigmaepsilon/utils/fem/mindlinshell.py:34-37 | the shear rows 6-7 of node i: derivatives at DOF 2, +N at DOF 4, -N at DOF 3 |
| MindlinShell.DrillingColumnZero | src/sigmaepsilon/utils/fem/mindlinshell.py:25-37 | the drilling rotation (DOF 5) of every node has zero entries in every row |
| MindlinShell.UnwrittenIsZero | src/sigmaepsilon/utils/fem/mindlinshell.py:21-37 | every position no node writes stays zero |
| MindlinShell.NodeWritesOwnColumns | src/sigmaepsilon/utils/fem/mindlinshell.py:25-37 | node i writes only into its own columns 6i..6i+5 of the eight rows |
| MindlinShell.EntryIsLocal | src/sigmaepsilon/utils/fem/mindlinshell.py:24-37 | a column depends only on its own node's shape value and derivatives |
| MindlinShell.EntryIsAdditive | src/sigmaepsilon/utils/fem/mindlinshell.py:24-37 | B is additive in the shape values and derivatives |
| MindlinShell.EntryIsHomogeneous | src/sigmaepsilon/utils/fem/mindlinshell.py:24-37 | B is homogeneous in the shape values and derivatives; with additivity, B is linear in them |
| MindlinShell.EmbedsPlate | src/sigmaepsilon/utils/fem/mindlinshell.py:30-37 | shell rows 3-7 on DOFs 2-4 are exactly the plate table (rows 0-4, DOFs 0-2) |
| Linalg.DotAdd | src/sigmaepsilon/solid/fem/model/utils.py:18 | the dot product distributes over a sum |
| Linalg.DotScale | src/sigmaepsilon/solid/fem/model/utils.py:18 | a scalar factor comes out of the dot product |
| Linalg.DotZeros | src/sigmaepsilon/solid/fem/model/utils.py:18 | dotting with zeros gives zero |
| Linalg.MatVec | src/sigmaepsilon/solid/fem/model/utils.py:18 | matrix times vector: one row-dot per row |
| Linalg.MatVecAdd | src/sigmaepsilon/solid/fem/model/utils.py:28 | a matrix-vector product is additive in the vector |
| Linalg.MatVecScale | src/sigmaepsilon/solid/fem/model/utils.py:28 | a matrix-vector product is homogeneous in the vector |
| Linalg.MatVecZeros | src/sigmaepsilon/solid/fem/model/utils.py:28 | a matrix times zeros is zeros |
| ModelUtils.Strains | src/sigmaepsilon/solid/fem/model/utils.py:13-18 | the strains have shape (nE, nP, NSTRE), read off B |
| ModelUtils.ModelStrains | src/sigmaepsilon/solid/fem/model/utils.py:12-19 | a new array: every (element, point) slot of the zero-allocated result is that point's B times that element's solution |
| ModelUtils.StrainsAdditive | src/sigmaepsilon/solid/fem/model/utils.py:18 | strains of a sum of element solutions are the sum of the strains |
| ModelUtils.StrainsHomogeneous | src/sigmaepsilon/solid/fem/model/utils.py:18 | scaled element solutions give scaled strains |
| ModelUtils.ZeroSolutionZeroStrains | src/sigmaepsilon/solid/fem/model/utils.py:18 | a zero solution gives zero strains everywhere |
| ModelUtils.StrainsAreLocal | src/sigmaepsilon/solid/fem/model/utils.py:16-18 | element e's strains depend on element e's B and solution only |
| ModelUtils.Gather | src/sigmaepsilon/solid/fem/model/utils.py:14 | element e's local DOF j reads global entry gnum[e][j] |
| ModelUtils.GatherAdditive | src/sigmaepsilon/solid/fem/model/utils.py:14 | gathering commutes with adding solutions |
| ModelUtils.GatherHomogeneous | src/sigmaepsilon/solid/fem/model/utils.py:14 | gathering commutes with scaling a solution |
| ModelUtils.StrainsLinearInSolution | src/sigmaepsilon/solid/fem/model/utils.py:14-18 | strains are linear in the global DOF solution: u + a·v gives strains(u) + a·strains(v) |
| ModelUtils.Stresses | src/sigmaepsilon/solid/fem/model/utils.py:24-28 | stresses have the strains' shape |
| ModelUtils.StressesFromStrains | src/sigmaepsilon/solid/fem/model/utils.py:22-29 | a new zero array shaped like the strains, every slot element e's C times the strain at that point |
| ModelUtils.SameMatrixPerElement | src/sigmaepsilon/solid/fem/model/utils.py:28 | all points of an element share one constitutive matrix: equal strains give equal stresses |
| ModelUtils.StressesAdditive | src/sigmaepsilon/solid/fem/model/utils.py:28 | stress of a sum of strains is the sum of the stresses |
| ModelUtils.StressesHomogeneous | src/sigmaepsilon/solid/fem/model/utils.py:28 | a scaled strain gives the equally scaled stress |
| ModelUtils.ZeroStrainZeroStress | src/sigmaepsilon/solid/fem/model/utils.py:28 | zero strain gives zero stress |
| Coo.NonZero | src/sigmaepsilon/solid/fem/mesh.py:150-151 | keeps exactly the triplets whose value is nonzero |
| Coo.EntryAppend | src/sigmaepsilon/solid/fem/mesh.py:149 | concatenating triplet lists adds the matrices: a repeated key adds, never overwrites |
| Coo.NonZeroEntry | src/sigmaepsilon/solid/fem/mesh.py:150-151 | eliminating zeros does not change any matrix entry |
| Coo.MergedEntry | src/sigmaepsilon/solid/fem/mesh.py:152-153 | summing duplicates keeps every per-key total |
| Coo.MergedKeys | src/sigmaepsilon/solid/fem/mesh.py:152-153 | after summing duplicates each key appears once, and the key set is unchanged |
| Coo.Merged | src/sigmaepsilon/solid/fem/mesh.py:152-153 | merging never adds triplets, and leaves at least one triplet when given any |
| Coo.CancellingValuesLeaveZero | src/sigmaepsilon/solid/fem/mesh.py:150-153 | for the triplets of a single block, elimination runs before merging, so values that cancel leave an explicit zero |
| Coo.SumBlocksEntry | src/sigmaepsilon/solid/fem/mesh.py:149 | every entry of the summed matrix is the sum of the blocks' entries |
| Coo.CooMatrix.EliminateZeros | src/sigmaepsilon/solid/fem/mesh.py:150-151 | in place: zeros removed, the matrix unchanged |
| Coo.CooMatrix.SumDuplicates | src/sigmaepsilon/solid/fem/mesh.py:152-153 | in place: keys distinct, key set and matrix unchanged |
| Coo.CooMatrix.AddInPlace | src/sigmaepsilon/solid/fem/mesh.py:236 | `+=`: the matrix becomes the sum of both |
| Mesh.Dofs | src/sigmaepsilon/solid/fem/mesh.py:57-58 | one DOF name per nodal degree of freedom: 6 for FemMesh, 3 for SolidMesh |
| Mesh.SolidDofsArePrefix | src/sigmaepsilon/solid/fem/mesh.py:503-504 | a solid mesh keeps the three translations of the general mesh; the six names are distinct |
| Mesh.ModelOf | src/sigmaepsilon/solid/fem/mesh.py:451-462 | a block's own model wins over its parents'; a model is found only on a block that has one or has a parent to ask |
| Mesh.ModelIsNearest | src/sigmaepsilon/solid/fem/mesh.py:451-462 | the model found is the nearest one on the chain to the root, and None exactly when no block on the chain has one |
| Mesh.MaterialStiffnessMatrix | src/sigmaepsilon/solid/fem/mesh.py:464-480 | raw matrix returned unchanged, model object answers with its stiffness, anything else (no model, a raising object) is RuntimeError |
| Mesh.Finalised | src/sigmaepsilon/solid/fem/mesh.py:150-153 | never more triplets than given; with neither flag the triplets are untouched; with elimination alone exactly the nonzero triplets remain |
| Mesh.FinalisedMeaning | src/sigmaepsilon/solid/fem/mesh.py:150-153 | finalisation keeps every entry; with merging each key once; with elimination alone no zero remains |
| Mesh.Finalise | src/sigmaepsilon/solid/fem/mesh.py:150-153 | the optional eliminate_zeros, then the optional sum_duplicates, in place |
| Mesh.ElasticStiffnessMatrixCoo | src/sigmaepsilon/solid/fem/mesh.py:128-154 | the finalised sum of all blocks' triplets; an error exactly when there are no blocks |
| Mesh.StiffnessIsBlockSum | src/sigmaepsilon/solid/fem/mesh.py:147-153 | each entry of the assembled stiffness is the sum of the blocks' entries |
| Mesh.ConsistentMassMatrixCoo | src/sigmaepsilon/solid/fem/mesh.py:193-245 | cell masses plus, only with a mass field, the distributed block masses or the lumped nodal masses with the mesh's NDOFN; finalised |
| Mesh.MassWithoutNodalMasses | src/sigmaepsilon/solid/fem/mesh.py:220-226 | without a mass field each entry is the cells' entry alone |
| Mesh.MassWithNodalMasses | src/sigmaepsilon/solid/fem/mesh.py:226-240 | with a mass field each entry is the cells' entry plus the nodal contribution's |
| Mesh.PenaltyMatrixCooAsWritten | src/sigmaepsilon/solid/fem/mesh.py:247-275 | as written, every call gives the documented routine's matrix for no fixity argument, i.e. the root point data's penalty |
| Mesh.PenaltyIgnoresFixityArgument | src/sigmaepsilon/solid/fem/mesh.py:247-275 | as written, the fixity argument has no effect on the result |
| Mesh.PenaltyArgumentCounterexample | src/sigmaepsilon/solid/fem/mesh.py:272 | a fixity passed in is ignored as written, and honoured as documented |
| Mesh.PenaltyMatrixCoo | src/sigmaepsilon/solid/fem/mesh.py:250-262 | as documented: the penalty of the given fixity, and of the root point data's fixity only when none is given |
| Mesh.PenaltyUsesGivenFixity | src/sigmaepsilon/solid/fem/mesh.py:250-262 | as documented, a given fixity decides the matrix, and the root fixity is only the fallback |
| Mesh.TrySum | src/sigmaepsilon/solid/fem/mesh.py:294-299 | the guarded sum fails exactly when a block raises or a load is misshapen; otherwise it is the entrywise sum of the present loads |
| Mesh.LoadVector | src/sigmaepsilon/solid/fem/mesh.py:278-307 | nodal loads plus the body-load sum plus the strain-load sum, each sum dropped when it raises |
| Mesh.AbsentLoadsAddNothing | src/sigmaepsilon/solid/fem/mesh.py:295-298 | blocks without loads add nothing |
| Mesh.RaisingBlockDropsGroup | src/sigmaepsilon/solid/fem/mesh.py:301-306 | one raising block drops the whole group, the present loads included |
| Mesh.ConcatIndex | src/sigmaepsilon/solid/fem/mesh.py:329-335 | row-major: entry j of row i lands at i·w + j |
| Mesh.ChunkConcat | src/sigmaepsilon/solid/fem/mesh.py:329-335 | flattening and splitting back into rows are inverse |
| Mesh.NodalDofSolution | src/sigmaepsilon/solid/fem/mesh.py:320-337 | without flatten the solution is unchanged; 2-D becomes 1-D, 3-D becomes 2-D, and 1-D fails to unpack |
| Mesh.FlattenedLayout | src/sigmaepsilon/solid/fem/mesh.py:331-335 | row i·NDOFN + j of the flattened solution holds node i, DOF j |
| Mesh.FlattenIsReversible | src/sigmaepsilon/solid/fem/mesh.py:331-335 | flattening loses nothing: splitting by NDOFN restores the solution |
| Homogenization.ToLower | src/sigmaepsilon/material/homg/rvs.py:50-52 | same length, upper-case ASCII letters lowered, every other character kept |
| Homogenization.Nstre | src/sigmaepsilon/material/homg/rvs.py:50-53 | 8 exactly for 'mr' in any case, 6 exactly for 'kl' in any case, no value for any other name |
| Homogenization.Area | src/sigmaepsilon/material/homg/rvs.py:59 | the area of the bounds is never negative for ordered bounds, and zero for a point cloud flat in x or in y |
| Homogenization.HookeSum | src/sigmaepsilon/material/homg/rvs.py:102-127 | the accumulated fluctuating stiffness is NSTRE by NSTRE |
| Homogenization.Homogenized | src/sigmaepsilon/material/homg/rvs.py:129-134 | averaged minus fluctuating stiffness per unit area; for NSTRE = 8 the shear block is 5/6 of the fluctuating part |
| Homogenization.HomogenizeResult | src/sigmaepsilon/material/homg/rvs.py:42-134 | UnboundNstre exactly for an unknown model name; success exactly when every block is 2-D or 3-D; the result is NSTRE by NSTRE |
| Homogenization.SupportsAgainstRigidMotion | src/sigmaepsilon/material/homg/rvs.py:66-72 | fixity true exactly at DOFs 0-2 of the centre node, DOFs 1-2 of the x-node and DOF 2 of the y-node |
| Homogenization.RepresentativeSurfaceElement.ApplyStrainLoads | src/sigmaepsilon/material/homg/rvs.py:79-94 | every block before the first unsupported one gets its bulk or surface strain loads; NotImplemented stops there |
| Homogenization.RepresentativeSurfaceElement.CollectStiffness | src/sigmaepsilon/material/homg/rvs.py:102-127 | every block's strain loads are cleared, and the contributions are accumulated into hooke and hooke_avg |
| Homogenization.RepresentativeSurfaceElement.Homogenize | src/sigmaepsilon/material/homg/rvs.py:42-134 | the result; an unknown name changes nothing; otherwise the loads are zero (nP, NDOFN, NSTRE), the fixity is the supports, the constraint is appended only on success, and all strain loads end as None |
| Homogenization.RepresentativeSurfaceElement.ABD | src/sigmaepsilon/material/homg/rvs.py:30-34 | homogenize with 'KL' (6 strains): the result, and the new state: zero loads of shape (points, NDOFN, 6), the rigid-body supports, the constraint appended and all strain loads cleared on success, the strain loads up to the first unsupported block on NotImplemented |
| Homogenization.RepresentativeSurfaceElement.ABDS | src/sigmaepsilon/material/homg/rvs.py:36-40 | homogenize with 'MR' (8 strains): the result, and the same new state as ABD with shape (points, NDOFN, 8) |
| Homogenization.KirchhoffLoveEntry | src/sigmaepsilon/material/homg/rvs.py:129-131 | for 'KL', every entry is hooke_avg/area − hooke/area, with no override |
| Homogenization.MindlinReissnerEntry | src/sigmaepsilon/material/homg/rvs.py:129-134 | for 'MR', the same outside rows/columns 6-7, and (hooke/area)·5/6 inside |
| Homogenization.HookeSumSymmetric | src/sigmaepsilon/material/homg/rvs.py:102-127 | symmetric contributions accumulate to a symmetric hooke |
| Homogenization.AvgSumSymmetric | src/sigmaepsilon/material/homg/rvs.py:102-127 | symmetric contributions accumulate to a symmetric hooke_avg |
| Homogenization.HomogenizedSymmetric | src/sigmaepsilon/material/homg/rvs.py:129-134 | symmetric contributions give a symmetric effective stiffness for either plate model |

## Left out

- Floating point is modelled by exact reals. NaN, infinities and rounding are not modelled.
- The numba `prange` loops run sequentially in the model. Every iteration writes its own disjoint slot.
- `np.linalg.inv` of the Jacobians is not modelled: the kernels take the inverse Jacobians as input.
- The shape functions, their derivatives and the quadrature rules are not modelled: they are inputs.
- `HMH_mindlin_plate` and `HMH_mindlin_shell` are not modelled, because `HMH_S` is not part of this model.
- `material_strains_mindlin_shell` is not modelled: its slice widths are inconsistent and marked FIXME.
- `model_stiffness_iso_homg_mindlin_shell` is not modelled: it writes a slice of width n−6 from one of width n−3, which can never match.
- ModelUtils.ModelStrains: the call to `element_dof_solution_bulk` is not part of this model. The method takes the gathered element solutions as input. `ModelUtils.Gather` states the indexing that gather performs.
- ModelUtils.ModelStrains: with zero elements or zero quadrature points, the result's trailing dimensions are 0 instead of being read from the shape of the empty input (`B.shape[2]`). ModelUtils.StressesFromStrains has the same gap (`strains.shape[2]`). MindlinPlate.StrainDisplacementMatrix and MindlinShell.StrainDisplacementMatrix have it with zero quadrature points.
- MindlinPlate.ModelStiffness requires every material matrix to be square and of one size. The source's `zeros_like` and block slices would also accept a non-square stack.
- MindlinPlate.MaterialStrains requires at least one thickness per element. A shorter thickness array is not range-checked by the compiled kernel.
- MindlinPlate.MaterialStrains: a zero thickness divides by zero in the float kernel; reals cannot represent the result, so the model returns no result.
- The blocks' own COO contributions are inputs: `celldata.elastic_stiffness_matrix_coo`, `consistent_mass_matrix_coo`, `pull` and `volumes`.
- The external routines `fem_nodal_mass_matrix_coo`, `fem_penalty_matrix_coo` and `fem_load_vector` are inputs or function parameters.
- The per-block `body_load_vector` and `strain_load_vector` are inputs.
- The sparse storage format is not modelled. A sparse matrix is its triplet list, and what it means is `Coo.Entry`. In scipy, `sum_duplicates` sorts the keys row-major, while `Coo.Merged` builds from the back, so distinct keys come out last-first; no order is promised.
- The sparse `+` is modelled as concatenation. In scipy, `np.sum` over two or more blocks (mesh.py line 149) and both `M +=` of the mass matrix (lines 236 and 239) go through CSR addition, which already merges duplicates and drops zero sums. The entries are the same, but an explicit zero as in `Coo.CancellingValuesLeaveZero` only survives when a single block is assembled.
- Mesh.LoadVector counts a load whose shape differs from the nodal loads as a failing sum. A numpy broadcast of a compatible smaller shape is not modelled.
- The `squeeze` and `atleast3d` decorators of the mesh methods are not modelled.
- The mesh's block hierarchy and point data are not modelled as objects: they are inputs.
- Homogenization.RepresentativeSurfaceElement.Homogenize: these steps are outside the model and their results are inputs:
  - the solution `linear_static_analysis`;
  - the periodic links `link_opposite_sides`;
  - the nearest-node search `index_of_closest`;
  - the point bounds;
  - the unit strain fields (`_strain_field_3d_bulk`);
  - their transformation to surface frames;
  - the stress and average-stiffness integrals of each block (`_postproc_*`, `_calc_avg_hooke_*`).
- Homogenization.RepresentativeSurfaceElement.Homogenize requires a nonzero area. With a zero area the source divides by zero in floating point and returns infinities or NaN, which reals cannot express.
- Homogenization.RepresentativeSurfaceElement.Homogenize: the NotImplementedError of the post-processing loop cannot happen. The strain-load loop rejects the same blocks first, so that branch is absent.
- Homogenization.Nstre lowers ASCII letters only. Python's Unicode case mapping is not modelled.

## Findings

| source | as written | input that shows it | evidently intended | confidence | as-written member | corrected member |
|---|---|---|---|---|---|---|
| src/sigmaepsilon/solid/fem/mesh.py:247-275 | `penalty_matrix_coo` overwrites its `fixity` argument with the root point data's fixity (line 272). A fixity passed by the caller is never used. | root fixity `[[false]]`, argument `[[true]]`: as written the penalty matrix fixes nothing | use the given fixity, and fall back to the root point data only when none is given (docstring lines 250-262) | high, not executed | Mesh.PenaltyMatrixCooAsWritten | Mesh.PenaltyMatrixCoo |
