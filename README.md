# jaxmp IK assembly and collision geometry, in Dafny

This project models two pieces of `jaxmp`, a JAX library for robot inverse kinematics (IK):

- **IK problem assembly** (`solve_ik`, `solve_ik_with_coll`). From the call's options, each entry point builds:
  - an ordered list of cost factors (joint limit, joint velocity, rest pose, pose match, manipulability, self-collision, world collision);
  - the variables it declares, with their initial values;
  - the configuration of the trust-region least-squares solver.

  It then hands these to the solver and reads the joint configuration, and optionally a floating base pose, back from the solution. The solver is an uninterpreted parameter `solve: Problem -> Solution`. A factor is modelled as the arguments given to the factor library, not as its residual.
- **Batched collision geometries** (`CollGeom` and its subclasses):
  - The `from_*` constructors of `Plane`, `Sphere`, `Capsule`, `Cylinder`, `Ellipsoid` and `Convex`. Each primitive's parameters go into a three-slot size row. A sphere's row is `[radius, 0, 0]`. Capsules and cylinders use `[radius, height / 2, 0]`. An ellipsoid's row holds its semi-axes. Planes and convex meshes have `[0, 0, 0]`.
  - The batch operations `broadcast_to`, `reshape`, `transform` and `slice`. They keep the pose array and the size array over the same batch axes.

Files:

- `wrappers.dfy`: the `Option` and `Result` types. `Err` stands for an exception the Python code raises.
- `lie.dfy`: jaxlie `SO3`/`SE3` as plain records with their identity constants. The group product is a function-typed parameter.
- `tensors.dfy`: the JAX array semantics the geometry code relies on.
  - An array is a shape plus row-major data.
  - It provides multi-index ↔ offset conversion, `jnp.broadcast_to`, numpy's broadcast of two shapes, `reshape` and integer indexing.
  - It also has a "rows" view of a `batch + (k,)` array.
- `collide_types.dfy`: `CollGeom` as a record of a primitive tag, a batch of poses and a batch of size rows. Each operation returns a new record, as `jdc.copy_and_mutate` does.
- `solve_ik.dfy`: factors, variables, problems, the two assembly rules and the two entry points.

Two details of `solve_ik` that the model keeps as the code has them:

- `solve_ik` declares the floating base variable bare, as `ConstrainedSE3Var(pose_var_idx)` (solve_ik.py:116-117). It therefore starts from its class default (`InitVal.Default`), not from a pose the caller supplies.
- `solve_ik` reads its answer from index 0 of each variable class (solve_ik.py:137, 141), whatever indices it declared. See "## Findings".

## Model

| member | source | states |
|---|---|---|
| `CollideTypes.BatchAxes` | src/jaxmp/coll/_collide_types.py:39-40 | The batch axes are the pose's. For a valid geometry they are also the size array's axes, with one size row per pose. |
| `CollideTypes.Pack` | src/jaxmp/coll/_collide_types.py:163-164 | A packed row is the radius row, then each height entry halved, then as many zeros as the radius row has entries. |
| `CollideTypes.SpreadRow` | src/jaxmp/coll/_collide_types.py:165 | Broadcasting a row to width 3 repeats a width-1 row's single entry in all three slots and leaves any other row unchanged. |
| `CollideTypes.PlaneFromPointAndNormal` | src/jaxmp/coll/_collide_types.py:90-102 | Succeeds iff the point has a trailing axis of 3 and the normal has the point's shape. The plane's batch axes are the point's leading axes, and pose and size share them with three-slot rows. |
| `CollideTypes.PlaneFields` | src/jaxmp/coll/_collide_types.py:94-101 | At every batch position the size row is `[0, 0, 0]`. The pose's rotation comes from the normal at that position and its translation is the point there. |
| `CollideTypes.SphereFromCenterAndRadius` | src/jaxmp/coll/_collide_types.py:129-144 | Succeeds iff `center` ends in 3 and `radius` has shape `batch + (1,)`. The result's batch axes are the center's. |
| `CollideTypes.SphereFields` | src/jaxmp/coll/_collide_types.py:133-143 | The size row is `[r, 0, 0]` with `r` the radius at that position. The pose has identity rotation and translation equal to the center. |
| `CollideTypes.EllipsoidFromCenterAndAbc` | src/jaxmp/coll/_collide_types.py:209-221 | Succeeds iff `center` ends in 3 and `abc` has shape `batch + (3,)`. The result's batch axes are the center's. |
| `CollideTypes.EllipsoidFields` | src/jaxmp/coll/_collide_types.py:213-221 | The size row is the semi-axes `abc` at that position. The pose has identity rotation and translation equal to the center. |
| `CollideTypes.PackedRows` | src/jaxmp/coll/_collide_types.py:163-164 | Each packed row is the radius row, the halved height row and zeros, spread over three slots when its width is 1. The rows lie over the radius' leading axes. |
| `CollideTypes.RadiusAndHeight` | src/jaxmp/coll/_collide_types.py:160-167 | Succeeds iff the concatenation is legal, its width is 1 or 3, and its leading axes broadcast to the transform's batch axes. The pose is `transform` and the size has the transform's batch axes. |
| `CollideTypes.PackedRowsAt` | src/jaxmp/coll/_collide_types.py:163-164 | With one radius and one height per element, the packed row is `[radius, height / 2, 0]`. |
| `CollideTypes.RadiusAndHeightFields` | src/jaxmp/coll/_collide_types.py:163-165 | Whenever the radius and height concatenate to a row of width 1 or 3 whose leading axes broadcast to the transform's, construction succeeds. The size row at each transform position is the packed row of the element that broadcasting reads for that position. |
| `CollideTypes.CapsuleFromRadiusAndHeight` | src/jaxmp/coll/_collide_types.py:157-167 | The capsule constructor: same success condition as above, pose = transform, tagged `Capsule`. |
| `CollideTypes.CylinderFromRadiusAndHeight` | src/jaxmp/coll/_collide_types.py:235-245 | The cylinder constructor: same packing as the capsule's, tagged `Cylinder`. |
| `CollideTypes.ConvexFromMesh` | src/jaxmp/coll/_collide_types.py:310-321 | Batch axes are `batch_axes`. Every pose is the identity and every size row is `[0, 0, 0]`. The mesh data and centroid offset are kept. |
| `CollideTypes.BroadcastTo` | src/jaxmp/coll/_collide_types.py:42-46 | Succeeds iff the batch axes broadcast to `shape`. The result has batch axes `shape`, stays valid and keeps its primitive. |
| `CollideTypes.BroadcastToInStep` | src/jaxmp/coll/_collide_types.py:44-45 | Pose and size at a position both come from the same source position. |
| `CollideTypes.BroadcastToOwnShape` | src/jaxmp/coll/_collide_types.py:42-46 | Broadcasting to the geometry's own batch axes returns it unchanged. |
| `CollideTypes.Reshape` | src/jaxmp/coll/_collide_types.py:48-52 | Succeeds iff the element counts agree. The new batch axes are `shape`, and the pose and size data are unchanged in order. |
| `CollideTypes.ReshapeRoundTrip` | src/jaxmp/coll/_collide_types.py:48-52 | Reshaping back to the original batch axes restores the geometry. |
| `CollideTypes.Transform` | src/jaxmp/coll/_collide_types.py:54-58 | Succeeds iff `tf`'s batch axes and the pose's are broadcast-compatible. The result has the broadcast batch axes for pose and size alike. |
| `CollideTypes.TransformInStep` | src/jaxmp/coll/_collide_types.py:56-57 | The new pose at a position is `tf` at its source position composed onto the old pose at its source position. The size there is the old size row of that pose. |
| `CollideTypes.Slice` | src/jaxmp/coll/_collide_types.py:60-64 | Succeeds iff there are no more indices than batch axes and no index falls on an empty axis. The result's batch axes are the remaining axes. |
| `CollideTypes.SliceInStep` | src/jaxmp/coll/_collide_types.py:62-63 | Pose and size of the slice at `n` are those of the geometry at the selected position followed by `n`. |
| `Tensors.BroadcastTo` | src/jaxmp/coll/_collide_types.py:44-45 | `jnp.broadcast_to` succeeds iff numpy's right-aligned rule allows it. The result has the target shape and only elements of the input. |
| `Tensors.BroadcastToAt` | src/jaxmp/coll/_collide_types.py:44-45 | The broadcast element at a multi-index is the input's element at its source index. |
| `Tensors.BroadcastToSelf` | src/jaxmp/coll/_collide_types.py:44-45 | Broadcasting an array to its own shape returns it. |
| `Tensors.BroadcastShapes` | src/jaxmp/coll/_collide_types.py:56 | Two batch shapes combine iff every right-aligned axis pair is equal or contains a 1. The combined shape has the longer length, and both operands broadcast to it. Each of its axes is the operands' aligned axis that is not 1, or 1 when both are 1 or missing. |
| `Tensors.Reshape` | src/jaxmp/coll/_collide_types.py:50-51 | Succeeds iff the element counts agree. The flat data is unchanged. |
| `Tensors.Take` | src/jaxmp/coll/_collide_types.py:62-63 | Integer indexing succeeds iff there are no more indices than axes and none of the indexed axes is empty. The result's shape is the remaining axes and its elements come from the input. |
| `Tensors.Clamp` | src/jaxmp/coll/_collide_types.py:62-63 | The position read for an index on an axis of length `d > 0` is in range. An index in `-d <= i < d` reads position `i`, counting negative indices from the end. A larger index reads the last position and a smaller one reads the first, as JAX clamps retrieval indices. |
| `Tensors.TakeAt` | src/jaxmp/coll/_collide_types.py:62-63 | The indexed array at `n` is the input at the selected position followed by `n`. |
| `Tensors.RavelUnravel` | src/jaxmp/coll/_collide_types.py:50-51 | Row-major offset → multi-index → offset is the identity. |
| `Tensors.UnravelRavel` | src/jaxmp/coll/_collide_types.py:50-51 | Multi-index → row-major offset → multi-index is the identity. |
| `SolveIk.Full` | src/jaxmp/extras/solve_ik.py:70 | `jnp.array([x] * n)` has `n` entries, all equal to `x`. |
| `SolveIk.SolveIkFactors` | src/jaxmp/extras/solve_ik.py:65-109 | Factors are limit, velocity, rest and pose match in that order, then manipulability iff requested, so 4 or 5. Every factor constrains `JointVar(joint_var_idx)`. The limit, velocity and rest weights have `num_actuated_joints` entries equal to their scalar weights. The velocity factor uses `dt` and is anchored at `initial_pose`. The limit, velocity, pose and manipulability factors get `kin`. The pose factor also gets the target poses, the target joint indices, `ik_weight` and the base class and index. |
| `SolveIk.SolveIkVars` | src/jaxmp/extras/solve_ik.py:111-117 | One or two variables: the joint variable, then the base-pose variable iff both its class and its index are given. |
| `SolveIk.SolveIkInitVals` | src/jaxmp/extras/solve_ik.py:112-117 | One initial value per variable, in the same order. The joint variable starts at `initial_pose`, and the base variable starts at its class default. |
| `SolveIk.SolveIkProblem` | src/jaxmp/extras/solve_ik.py:65-134 | The problem is well formed: every variable a factor names is declared. The velocity reference and the joint variable's start are the same `initial_pose`. The solver config has the chosen backend, the default trust region, tolerances 1e-5 and `max_iterations`. |
| `SolveIk.AssembleSolveIk` | src/jaxmp/extras/solve_ik.py:65-134 | Building the lists by `append` as the code does yields exactly `SolveIkProblem`. |
| `SolveIk.SolveIkReadVars` | src/jaxmp/extras/solve_ik.py:136-141 | As written, the joint is read from `JointVar(0)`. The base is read from `ConstrainedSE3Var(0)` exactly when a base class is given. At the default indices both are declared variables. |
| `SolveIk.SolveIkReadsUndeclaredVariable` | src/jaxmp/extras/solve_ik.py:111-141 | With `joint_var_idx != 0`, the joint variable read back is not among the declared variables. |
| `SolveIk.SolveIkReadsUndeclaredVariableExample` | src/jaxmp/extras/solve_ik.py:23-141 | With `joint_var_idx=1` and otherwise default options, `JointVar(1)` is declared but `JointVar(0)` is read. |
| `SolveIk.SolveIkFixedReadVars` | src/jaxmp/extras/solve_ik.py:111-117 | The corrected read-back: the joint variable is the first declared variable. A base is read iff two variables are declared, and it is the second one. |
| `SolveIk.ReadAnswer` | src/jaxmp/extras/solve_ik.py:136-142 | The joints are the solution at the joint variable. The base pose is the solution at the base variable, or the identity when there is none. |
| `SolveIk.SolveIk` | src/jaxmp/extras/solve_ik.py:119-142 | `solve_ik` as written: solve `SolveIkProblem`, then return `JointVar(0)` and `ConstrainedSE3Var(0)`, or the identity when no base class is given. |
| `SolveIk.SolveIkFixed` | src/jaxmp/extras/solve_ik.py:111-142 | `solve_ik` reading back the declared joint variable and the declared base variable, if any. |
| `SolveIk.PoseWeights` | src/jaxmp/extras/solve_ik.py:167 | Six weights: three `pos_weight`, then three `rot_weight`. |
| `SolveIk.WorldCollFactors` | src/jaxmp/extras/solve_ik.py:204-209 | One world-collision factor per obstacle, in obstacle order. Each has margin 0.1 and `world_coll_weight`, and their obstacles are exactly `world_coll`. |
| `SolveIk.WorldObstacles` | src/jaxmp/extras/solve_ik.py:204-209 | A list of world factors, position by position over given obstacles, lists exactly those obstacles. |
| `SolveIk.ObstaclesAppend` | src/jaxmp/extras/solve_ik.py:211-212 | The obstacles of a concatenated factor list are the obstacles of each part, in order. |
| `SolveIk.NoObstacles` | src/jaxmp/extras/solve_ik.py:168-203 | A factor list with no world-collision factor names no obstacle. |
| `SolveIk.CollFixedFactors` | src/jaxmp/extras/solve_ik.py:167-203 | Pose match, rest, velocity, limit, self-collision in that order. The pose weights are `[pos]*3 + [rot]*3` and no base is passed. The rest, velocity and limit weights are filled with the rest and limit weights. The velocity uses dt 0.1 and the initial pose. The self-collision margin is 0.05 with `self_coll_weight` and the given robot collision model. The pose factor gets the target poses and target joint indices, and every factor but rest gets `kin`. |
| `SolveIk.CollJointVar` | src/jaxmp/extras/solve_ik.py:164-165 | The joint variable is index 0 of the class made from `kin`, and that class's default value is `initial_pose`. |
| `SolveIk.DefaultCollWeights` | src/jaxmp/extras/solve_ik.py:153-158 | With the default keyword weights, the pose weights are `[5, 5, 5, 1, 1, 1]` and every world-collision factor has weight 10. |
| `SolveIk.CollFactors` | src/jaxmp/extras/solve_ik.py:211-212 | There are 5 + the number of obstacles factors: the fixed five, then the world factors. Their obstacles are exactly `world_coll`. |
| `SolveIk.CollFactorsJoint` | src/jaxmp/extras/solve_ik.py:164-212 | Every factor constrains the one joint variable and names no base variable. |
| `SolveIk.CollFactorsWorld` | src/jaxmp/extras/solve_ik.py:204-212 | A factor is a world-collision factor iff it comes after the fifth, and each has margin 0.1 and `world_coll_weight`. |
| `SolveIk.SolveIkWithCollProblem` | src/jaxmp/extras/solve_ik.py:162-230 | The factor list is as above. The joint variable of `get_var_class(kin, initial_pose)` at index 0 is the only variable, and it starts from `initial_pose`. The config is the default backend, `lambda_initial` 1.0, tolerances 1e-5 and 50 iterations. The problem is well formed. |
| `SolveIk.AssembleSolveIkWithColl` | src/jaxmp/extras/solve_ik.py:162-230 | Building the list by `extend`/`append` as the code does yields exactly `SolveIkWithCollProblem`. |
| `SolveIk.SolveIkWithColl` | src/jaxmp/extras/solve_ik.py:214-234 | The joints returned are the solution at the declared joint variable. |

## Left out

- The least-squares solve (trust region, the `cholmod`/`conjugate_gradient`/`dense_cholesky` backends, convergence) is an external library. It is the parameter `solve`.
- The residual maths of the factor library (pose error, limits, manipulability, collision distances) is floating-point code outside these files. A factor is only the record of its arguments.
- `RobotFactors.get_var_class(kin, default)` is modelled as a variable class whose default value is `default`. The factor library is not part of this model.
- The kinematic tree and the robot's collision model are opaque handles. The assembly reads only the actuated-joint count.
- `jdc.jit`, static arguments, `use_onp=False` and `verbose=False` are compilation and logging details.
- `Plane._normal_to_SO3` and its `isclose` assertion are floating-point numerics. Its result is the parameter `normalToRotation`.
- The SE(3)/SO(3) algebra is abstract: identity constants and a composition parameter.
- Mesh generation (`_create_one_mesh`, `to_trimesh`), `from_min_cylinder`, `Convex.decimate` and `Convex._get_mesh_mjx` call trimesh, scipy or MuJoCo. `ConvexFromMesh` takes their results as inputs.
- `CollideTypes.ConvexFromMesh`: `offset_to_origin` is kept as the centroid it is given. It is not broadcast over `batch_axes`, which is what the code does.
- `CollideTypes.PlaneFromPointAndNormal`: requires the normal to have the point's shape. The code asserts only that the rotation batch equals the point batch, which `_normal_to_SO3` yields for exactly such normals.
- `CollideTypes.Reshape`: a `-1` entry in the target shape is not modelled.
- `CollideTypes.Slice`: only integer indices are modelled, not slices, `None`, ellipsis or index arrays.
- `Tensors.Take`: only integer indices on the leading axes are modelled, not slices, `None`, ellipsis or index arrays. Traced indices, whose values are not known when the program is built, are not distinguished from concrete ones.
- `CollideTypes.Transform`: the pose arrays are combined by numpy broadcasting of their batch axes. jaxlie's own shape checks on `@` are not modelled.
- `SolveIk.SolveIkReadsUndeclaredVariable`: requires the base class to differ from the joint class, which holds whenever the two are distinct jaxls variable types.

## Findings

| source | as written | input that shows it | evidently intended | confidence | as-written member | corrected member |
|---|---|---|---|---|---|---|
| src/jaxmp/extras/solve_ik.py:137,141 | The answer is read from `JointVar(0)` and `ConstrainedSE3Var(0)`, while the declared variables are `JointVar(joint_var_idx)` and `ConstrainedSE3Var(pose_var_idx)`. | `joint_var_idx=1`, other options at their defaults: `JointVar(1)` is declared but `JointVar(0)` is read. | Read the declared variables, as `solve_ik_with_coll` does at line 233. | low; not executed | `SolveIk.SolveIkReadsUndeclaredVariable` | `SolveIk.SolveIkFixedReadVars` |
