# ANCF coupling stack

Dafny models of the coupling between a persistent ANCF line structure and CFD slices, with proofs
about them. Mechanics is stated over exact reals; the binary protocol treats a double as an opaque
64-bit word; files are maps from names to contents; SHA-256 is any function to 32 bytes.

Check everything with `dafny verify dfyconfig.toml`.

| module | models |
|---|---|
| LinearSolve, Newmark, StepBalance, InternalForce, LineShape, Tangent, KernelMapping | the C++ kernel: elimination, Newmark step and what an accepted one means, internal force, its geometry and tangent, force mapping |
| TangentRate, ForceRate, TangentExact | the rates of gradients, energy and force on moving coordinates, and the tangent against them |
| Hermite, ForceMapping | the Python Hermite interpolation and the mapping of slice forces |
| Gather, Transaction, Scheduler, CoupledExchange, Durability, Restart, Refinement, Witness | the multi-slice scheduler with its two-phase checkpoint, as objects and as a state machine, the calls of a step, and two concrete runs |
| HashCache | the prepare-hash cache of the checkpoint manager |
| Packing, KernelProtocol, RequestRoundTrip, KernelWorker, WireLayout, ResponseLayout | the binary step protocol of the resident worker, and its frames byte by byte |
| Adapter, WorkerLink, Stabilizer, Barrier, ConfirmLoop | predict/correct adapter and its tie to the worker, load filter, slice barrier and the confirm loop |
| EnergyLedger, LedgerColumns, AuditWindow, SliceCoverage | energy accounting online and offline, in columns, with its window summary, and the coverage audit |
| Boundaries | the tolerances and limits of the Python checks as intervals in numbers |
| Vectors, Vec3, Wrappers | shared vectors and outcome types |

StepBalance, LineShape, CoupledExchange, WireLayout, ResponseLayout, LedgerColumns and Boundaries say
what the functions of the other modules mean without naming them: in virtual work, cubics, calls,
bytes, columns and numbers.

Objects that the source updates in place are classes here. Most classes have a `View` onto a value;
each method is tied to a function on such values (or, for the matrix code, to functions on
sequences), and the lemmas about whole runs are about those functions.

## What the code does where a promise is wider

- A slice transaction compares every record with the first one under a tolerance. Closeness is not
  transitive, so acceptance can depend on the order of arrival (`Gather.OrderCanDecide`); it does
  not exactly when the records agree pairwise (`Gather.EveryOrderAccepted`).
- The parser guesses the optional mass field from four bytes that may be the head of the run id.
  The guess is wrong exactly when these bytes equal the number of coordinates, which needs a run id
  of one or two bytes (`RequestRoundTrip.RoundTrip`, `ShortIdCollides`).
- A hooked scheduler restarts only from the first stabilizer schema: the time-consistent schema is
  validated, but its extra fields are not handed back (`Restart.RestartRestores`,
  `Witness.TimeConsistentStepCannotRestart`).
- Recovery accepts any manifest of the right shape (`Durability.RecoveryAccepts`), but only the
  newest one keeps the manifest chain intact (`Durability.RecoveryNeedsNewest`,
  `Witness.OlderManifestIsAccepted`).
- The adapter leaves it to the worker's numbering to refuse a skipped step, and a dropped correction
  has used its numbers up. Committed steps are consecutive exactly for the runs that finalize
  nothing after a staged correction was dropped (`Adapter.CommittedStepsAreConsecutive`,
  `DiscardCanSkip`).
- The filter bounds its applied load only if it starts inside the limit, which its constructor does
  not check (`Stabilizer.AppliedGateFires`).
- A barrier whose commit fails in a slice's finalizer leaves a checkpoint file marked committed that
  it never records (`Barrier.AheadIffRaised`, `FinalizerFailureLeavesFile`).
- The element tangent is called an exact derivative
  (`src/structure_ancf_matlab/ancf_internal_force_tangent.m:6`), and takes half of the rate of
  the squared normal. For positive weights the assembled tangent, symmetrized or not, is the
  derivative of the assembled force if and only if there is no bending stiffness or `r_s x r_ss`
  vanishes at every quadrature point (`TangentExact.TangentIsDerivative`, a failing line in
  `BentTangentIsNotDerivative`). What an accepted Newton state satisfies does not depend on it.
- The hash cache rests on the assumption that content changes only with size or modification time
  (`HashCache.CacheIsSound`, `CacheFooled`, `CacheCanBeFooled`).

## Model

| member | source | states |
|---|---|---|
| LinearSolve.Solve | src/coupling/cpp_worker_persistent_ipc_v1/ancf_kernel.cpp:59-73 | for every size: a result is the one and only solution; a size mismatch and a pivot below 1e-24 are the only errors; a matrix with a nonzero kernel vector is always refused |
| LinearSolve.SwappedKeepsSolutions | src/coupling/cpp_worker_persistent_ipc_v1/ancf_kernel.cpp:69 | swapping the pivot row, from column k on, keeps the set of solutions |
| LinearSolve.RowClearedKeepsSolutions | src/coupling/cpp_worker_persistent_ipc_v1/ancf_kernel.cpp:69 | subtracting a multiple of the pivot row keeps the set of solutions in both directions |
| LinearSolve.EliminatedKeepsSolutions | src/coupling/cpp_worker_persistent_ipc_v1/ancf_kernel.cpp:69 | any number of elimination stages keeps the set of solutions, in both directions |
| LinearSolve.EliminatedShape | src/coupling/cpp_worker_persistent_ipc_v1/ancf_kernel.cpp:69 | after k stages the first k columns are zero below the diagonal and their pivots are nonzero |
| LinearSolve.TriangularUnique | src/coupling/cpp_worker_persistent_ipc_v1/ancf_kernel.cpp:70 | an upper triangular system with nonzero pivots has at most the solution back substitution finds |
| LinearSolve.KernelExcludesUnique | src/coupling/cpp_worker_persistent_ipc_v1/ancf_kernel.cpp:59-73 | a nonzero kernel vector and a unique solution exclude each other |
| LinearSolve.FindPivot | src/coupling/cpp_worker_persistent_ipc_v1/ancf_kernel.cpp:69 | the search returns the first row, from k on, with the largest entry of column k |
| LinearSolve.SwapRows | src/coupling/cpp_worker_persistent_ipc_v1/ancf_kernel.cpp:69 | the in-place swap is the swap of the specification |
| LinearSolve.ClearColumn | src/coupling/cpp_worker_persistent_ipc_v1/ancf_kernel.cpp:69 | the in-place pass over the rows below the pivot is the column clearing of the specification |
| LinearSolve.RunStage | src/coupling/cpp_worker_persistent_ipc_v1/ancf_kernel.cpp:69 | pivot, threshold, swap and clearing make one stage; false exactly when the pivot is below the floor |
| LinearSolve.BackSubstitute | src/coupling/cpp_worker_persistent_ipc_v1/ancf_kernel.cpp:70 | back substitution returns the unique solution of a triangular system with nonzero pivots |
| LinearSolve.TriangularPasses | src/coupling/cpp_worker_persistent_ipc_v1/ancf_kernel.cpp:69 | an upper triangular system passes elimination unchanged if and only if no diagonal entry lies strictly between -1e-24 and 1e-24 |
| Hermite.ShapeReproducesCubic | src/coupling/multi_slice_mapping/mapping.py:1206-1213 | the four shape functions interpolate every cubic exactly from its end values and slopes |
| Hermite.ValidateMeshNodes | src/coupling/multi_slice_mapping/mapping.py:1192-1203 | accepts exactly the increasing meshes of two or more nodes that start at zero and, when a reference length is given, end there; otherwise it returns the first defect |
| Hermite.AncfHermiteH | src/coupling/multi_slice_mapping/mapping.py:1216-1253 | three rows of H at the clamped position; a defective mesh, a position off the mesh and too few coordinates are refused, each with the error of the first check that fails |
| Boundaries.MeshInNumbers | src/coupling/multi_slice_mapping/mapping.py:1192-1203 | a node list is accepted if and only if it has two nodes, starts within 1e-12 of zero, increases strictly and ends within 1e-10, absolute or relative, of the reference length |
| Boundaries.OffMeshInNumbers | src/coupling/multi_slice_mapping/mapping.py:1232 | a position is off the mesh if and only if it lies more than 1e-10 beyond an end |
| Boundaries.ClampIsNearest | src/coupling/multi_slice_mapping/mapping.py:1234 | no point of the mesh is nearer to a position than its clamped position |
| Hermite.HReproducesCubic | src/coupling/multi_slice_mapping/mapping.py:1216-1253 | H reads every cubic nodal field exactly in its own direction and zero in the other two |
| Hermite.SharedNodeRow | src/coupling/multi_slice_mapping/mapping.py:1239-1253 | at an interior node the elements on either side give the same row |
| Hermite.SameElement | src/coupling/cpp_worker_persistent_ipc_v1/ancf_kernel.cpp:95 | floor division and bisection choose the same element on every uniform mesh and every position, both ends included |
| Hermite.KernelRowIsPythonRow | src/coupling/cpp_worker_persistent_ipc_v1/ancf_kernel.cpp:89-98 | the kernel row equals the Python row on every uniform mesh |
| ForceMapping.MapIntegratedSliceForces | src/coupling/multi_slice_mapping/mapping.py:1383-1415 | accumulates Q, the contribution of every slice and the virtual work audit, or returns the error of the first check that fails, in the order of the checks; the audit error is zero |
| Boundaries.AcceptedInputs | src/coupling/multi_slice_mapping/mapping.py:1383-1415 | the maps are accepted if and only if each slice id, and nothing else, has a block of three rows of one common positive length and a force of three components, and the displacement is as long |
| Boundaries.EntryOfMaps | src/coupling/multi_slice_mapping/mapping.py:1401-1406 | every entry of Q is the sum over the slices of the column of their own block times their own force |
| ForceMapping.CheckInput | src/coupling/multi_slice_mapping/mapping.py:1383-1400 | the checks in their order: keys of H, keys of the forces, every block, equal dof counts, every force |
| ForceMapping.VirtualWork | src/coupling/multi_slice_mapping/mapping.py:1383-1415 | the work of Q over any displacement is the sum of the slice works over the displacements H reads |
| ForceMapping.MomentsConserved | src/coupling/multi_slice_mapping/mapping.py:1206-1253 | for any mesh and slices inside it, nodal and slice forces have the same moment against every cubic field |
| ForceMapping.ForceAndFirstMomentConserved | src/coupling/multi_slice_mapping/mapping.py:1383-1415 | position entries of Q sum to the total force; coordinate times position entry plus slope entry sums to the total first moment |
| KernelMapping.MappingH3 | src/coupling/cpp_worker_persistent_ipc_v1/ancf_kernel.cpp:89-98 | stacks three kernel rows per slice, and refuses exactly when a slice lies off the line |
| KernelMapping.ExternalForce | src/coupling/cpp_worker_persistent_ipc_v1/ancf_kernel.cpp:100-102 | the kernel load is the Python accumulation of the regrouped slice forces; dimension and position errors are exact |
| KernelMapping.ColumnIsGeneralized | src/coupling/cpp_worker_persistent_ipc_v1/ancf_kernel.cpp:101 | a column of the transposed product equals the entry the slice-wise accumulation gives |
| KernelMapping.ExternalConservesMoments | src/coupling/cpp_worker_persistent_ipc_v1/ancf_kernel.cpp:89-102 | the kernel load conserves every moment up to the third |
| KernelMapping.GivenPositions | src/coupling/cpp_worker_persistent_ipc_v1/ancf_kernel.cpp:92-93 | a slice acts at its given position; a single slice without one acts at zero |
| KernelMapping.SpacedPositions | src/coupling/cpp_worker_persistent_ipc_v1/ancf_kernel.cpp:92-93 | without positions two or more slices act at equal distances from zero to the length of the line, all inside it |
| KernelMapping.InsideIff | src/coupling/cpp_worker_persistent_ipc_v1/ancf_kernel.cpp:92-94 | every slice lies on the line if and only if each given position does |
| InternalForce.DerivativeMoments | src/coupling/cpp_worker_persistent_ipc_v1/ancf_kernel.cpp:35-36 | shape derivatives send constants to zero and the arc length to one |
| InternalForce.RotationIsPowerless | src/coupling/cpp_worker_persistent_ipc_v1/ancf_kernel.cpp:78 | turning tangent and curvature together does no work on the element gradients |
| InternalForce.ElementForceInto | src/coupling/cpp_worker_persistent_ipc_v1/ancf_kernel.cpp:75-79 | the force of the quadrature loop into twelve entries; false exactly when a tangent is degenerate |
| InternalForce.AssembleForce | src/coupling/cpp_worker_persistent_ipc_v1/ancf_kernel.cpp:75-105 | the quadrature loops of all elements, in place, give the assembled force, or none exactly where a tangent is degenerate; what that force is, by shapes, points, weights and gradients, LineShape and ForceRate say: the rate of the stored energy of stretch and curvature |
| LineShape.DerivativesOfCubic | src/coupling/cpp_worker_persistent_ipc_v1/ancf_kernel.cpp:33-38 | the first and second derivative rows, applied to the end values and slopes of any cubic, are its first and second derivative at every position |
| LineShape.TangentsOfCurve | src/coupling/cpp_worker_persistent_ipc_v1/ancf_kernel.cpp:75-79 | on a line whose nodes hold the values and slopes of three cubics, the tangent and the second derivative at every quadrature point are those of the cubics there |
| LineShape.FormedIff | src/coupling/cpp_worker_persistent_ipc_v1/ancf_kernel.cpp:78 | the assembled force exists if and only if no tangent at a quadrature point has a squared length below 1e-24 |
| LineShape.DensityInFull | src/structure_ancf_matlab/ancf_internal_force_tangent.m:4-5 | the energy density is half EA times the squared strain and half EI times the squared curvature (|a|^2 |b|^2 - (a.b)^2) / |a|^6 of the curve |
| LineShape.BendIsCurvature | src/structure_ancf_matlab/ancf_internal_force_tangent.m:4-5 | the bending measure times |a|^6 is |a|^2 |b|^2 - (a.b)^2 |
| LineShape.StretchedEnergy | src/structure_ancf_matlab/ancf_internal_force_tangent.m:4-5 | an evenly stretched straight line stores its length times half EA times the squared strain, for any number of elements, whenever the weights of the rule sum to two |
| InternalForce.TranslationInvariant | src/coupling/cpp_worker_persistent_ipc_v1/ancf_kernel.cpp:104-107 | translating the whole line leaves the assembled force, and whether it exists, unchanged |
| InternalForce.ForceBalanced | src/coupling/cpp_worker_persistent_ipc_v1/ancf_kernel.cpp:104-107 | position entries of the assembled force sum to zero in each direction |
| InternalForce.MomentBalanced | src/coupling/cpp_worker_persistent_ipc_v1/ancf_kernel.cpp:104-107 | the assembled force has no resultant moment over positions and slopes |
| InternalForce.ReferenceForceFree | src/coupling/cpp_worker_persistent_ipc_v1/ancf_kernel.cpp:104-111 | the reference line carries no internal force, for any element count |
| TangentRate.TangentMisses | src/coupling/cpp_worker_persistent_ipc_v1/ancf_kernel.cpp:78 | in every direction the tangent blocks give the rate of the gradient by r_s, less a term along r_s: half the rate of the squared normal is missing |
| TangentRate.CurvatureMisses | src/coupling/cpp_worker_persistent_ipc_v1/ancf_kernel.cpp:78 | likewise for the gradient by r_ss, whose missing term lies along r_s x (r_s x r_ss) |
| TangentRate.TangentIsExact | src/coupling/cpp_worker_persistent_ipc_v1/ancf_kernel.cpp:78 | at one quadrature point the blocks are the exact derivative of the gradients in every direction if and only if the bending stiffness is zero or r_s x r_ss vanishes |
| ForceRate.DensityRate | src/structure_ancf_matlab/ancf_internal_force_tangent.m:4-5 | the two gradients of a quadrature point are the rate of the energy density 1/2 EA eps^2 + 1/2 EI |r_s x r_ss|^2 / |r_s|^6 along every pair of directions |
| ForceRate.ForceIsEnergyRate | src/coupling/cpp_worker_persistent_ipc_v1/ancf_kernel.cpp:104-107 | for any element count the work of the assembled force along every direction is the rate of the stored energy |
| ForceRate.ForceMoves | src/coupling/cpp_worker_persistent_ipc_v1/ancf_kernel.cpp:75-105 | the force evaluated on moving coordinates has the assembled force as its value, and its rate is assembled from the rates of the gradients |
| TangentExact.MissOnItself | src/coupling/cpp_worker_persistent_ipc_v1/ancf_kernel.cpp:78 | tested with r_s and r_ss themselves the blocks overstate the rates by nine times the stiffness times |r_s x r_ss|^2 / |r_s|^6, at every regular point |
| TangentExact.LineRowWork | src/coupling/cpp_worker_persistent_ipc_v1/ancf_kernel.cpp:79 | row i of the assembled tangent times a direction, and column i likewise, is entry i of the response assembled from the four blocks of every point |
| TangentExact.RateOnItself | src/coupling/cpp_worker_persistent_ipc_v1/ancf_kernel.cpp:104-107 | tested with the coordinates of the line, the assembled tangent overstates the rate of the force by eighteen times the bending energy, rows and columns alike |
| TangentExact.TangentIsDerivative | src/structure_ancf_matlab/ancf_internal_force_tangent.m:6-7 | for positive weights the assembled tangent, and the symmetrized one, is the derivative of the assembled force along every direction if and only if nothing bends: no stiffness, or r_s and r_ss parallel at every quadrature point of every element |
| TangentExact.BentTangentIsNotDerivative | src/coupling/cpp_worker_persistent_ipc_v1/ancf_kernel.cpp:104-107 | a concrete line of one element, regular under any rule, whose tangent is not the derivative of its force under any rule with a mid point |
| TangentRate.InversePowerRateIs | src/coupling/cpp_worker_persistent_ipc_v1/ancf_kernel.cpp:78 | the rate of an inverse power, evaluated by product and quotient rules, is -n times the next inverse power times the rate of the base |
| Tangent.AddPoint | src/coupling/cpp_worker_persistent_ipc_v1/ancf_kernel.cpp:79 | one quadrature point adds the weighted sum of the four block products to every entry |
| Tangent.ElementTangentInto | src/coupling/cpp_worker_persistent_ipc_v1/ancf_kernel.cpp:75-81 | the element tangent in place, entry by entry; false exactly where the force degenerates |
| Tangent.AddElementMatrix | src/coupling/cpp_worker_persistent_ipc_v1/ancf_kernel.cpp:105 | an element matrix lands on the rows and columns of its two nodes and nowhere else |
| Tangent.Symmetrize | src/coupling/cpp_worker_persistent_ipc_v1/ancf_kernel.cpp:106 | every entry becomes the mean of itself and its mirror image |
| Tangent.AssembleTangent | src/coupling/cpp_worker_persistent_ipc_v1/ancf_kernel.cpp:104-107 | the assembled and symmetrized tangent, formed exactly where the force is, for any number of elements |
| Tangent.FormedWithForce | src/coupling/cpp_worker_persistent_ipc_v1/ancf_kernel.cpp:104-107 | the tangent exists exactly for the states whose force exists |
| Tangent.TranslationCostsNothing | src/coupling/cpp_worker_persistent_ipc_v1/ancf_kernel.cpp:104-107 | every row and every column of the assembled tangent sums to zero over a component of the node positions |
| Tangent.UnsupportedIsSingular | src/coupling/cpp_worker_persistent_ipc_v1/ancf_kernel.cpp:104-107 | the symmetrized tangent of an unsupported line has the translations in its kernel, so its system has no unique solution for any state and load |
| Newmark.Advance | src/coupling/cpp_worker_persistent_ipc_v1/ancf_kernel.cpp:123-210 | the whole new state: on success that of an accepted step (what it satisfies without naming the residual is StepBalance.VirtualWorkOfStep), one step and dt further; on any error exactly the old one, with the error of the first check that fails; every iterate follows from the one before by the tangent assembled there; a line at rest is accepted at once |
| StepBalance.VirtualWorkOfStep | src/coupling/cpp_worker_persistent_ipc_v1/ancf_kernel.cpp:123-210 | the principle of virtual work for every accepted step: along every direction that vanishes at the held coordinates, d.(M qddot) + d.(C qdot) + the rate of the stored energy less base.d less the work of the slice forces is at most the tolerance times the load scale times the sum of |d| |
| StepBalance.StepInFormulas | src/coupling/cpp_worker_persistent_ipc_v1/ancf_kernel.cpp:137-153 | an accepted step in numbers: both Newmark formulas at every coordinate, the bottom node and the transverse coordinates of the top node where they were, one to maxNewton passes |
| StepBalance.CorrectionSolvesLinearized | src/coupling/cpp_worker_persistent_ipc_v1/ancf_kernel.cpp:178-195 | each Newton correction solves the linearized balance: residual plus tangent, mass and damping on the changes of position, acceleration and velocity that go together vanish at every free coordinate |
| StepBalance.EffectiveAnswers | src/coupling/cpp_worker_persistent_ipc_v1/ancf_kernel.cpp:178-182 | the effective stiffness answers a change of position with stiffness, inertia and damping of the changes that go with it |
| Newmark.SolveStep | src/coupling/cpp_worker_persistent_ipc_v1/ancf_kernel.cpp:123-199 | load, predictor and Newton loop on exactly the problem they pose: the accepted trial, or the exact dimension and position errors |
| Newmark.NewtonLoop | src/coupling/cpp_worker_persistent_ipc_v1/ancf_kernel.cpp:148-197 | each pass leads to the next by the reduced system of the assembled tangent; the first pass within tolerance is the result, a degenerate trial, a pivot below the floor and used-up passes are the errors, and held coordinates never move |
| Newmark.OutcomeIsDetermined | src/coupling/cpp_worker_persistent_ipc_v1/ancf_kernel.cpp:148-197 | what the loop is proved to do leaves one outcome: the same passes and the same result or error for every run on one problem |
| Newmark.TangentAt | src/coupling/cpp_worker_persistent_ipc_v1/ancf_kernel.cpp:157 | the matrix of a pass is the symmetrized assembled tangent at its trial, which exists wherever the force does |
| Newmark.NewtonStep | src/coupling/cpp_worker_persistent_ipc_v1/ancf_kernel.cpp:178-195 | the correction of the free coordinates is the unique solution of the restricted system |
| Newmark.FreeNorm | src/coupling/cpp_worker_persistent_ipc_v1/ancf_kernel.cpp:167-168 | the norm is the largest absolute free residual |
| Newmark.RatesAreNewmark | src/coupling/cpp_worker_persistent_ipc_v1/ancf_kernel.cpp:150-153 | rates computed from the position satisfy both Newmark relations |
| Newmark.LoadScaleIsLargest | src/coupling/cpp_worker_persistent_ipc_v1/ancf_kernel.cpp:146-147 | the load scale is the largest absolute load entry, at least one |
| Newmark.RestResidual | src/coupling/cpp_worker_persistent_ipc_v1/ancf_kernel.cpp:160-172 | from rest without loads the first residual vanishes |
| Stabilizer.LoadStabilizer.ApplyLoad | src/coupling/cpp_worker_confirm_v1/stabilizer.py:56-96 | stages the blended load of the next tick, or returns the first failing check and changes nothing |
| Stabilizer.LoadStabilizer.CommitLoad | src/coupling/cpp_worker_confirm_v1/stabilizer.py:98-104 | makes the staged load, step and tick current, or refuses when nothing is staged |
| Stabilizer.LoadStabilizer.RollbackLoad | src/coupling/cpp_worker_confirm_v1/stabilizer.py:106-107 | forgets the staged load and nothing else |
| Stabilizer.RunIsFilter | src/coupling/cpp_worker_confirm_v1/stabilizer.py:56-107 | after any run of apply, commit and rollback the state is the reference filter of the committed loads, whatever was staged or refused in between |
| Stabilizer.FilteredBetween | src/coupling/cpp_worker_confirm_v1/stabilizer.py:76-81 | each filtered component stays between the least and greatest of its start value and committed raw loads |
| Stabilizer.ConstantLoad | src/coupling/cpp_worker_confirm_v1/stabilizer.py:74-81 | under a constant load the result depends on the elapsed ticks alone, however they are split |
| Stabilizer.DecayExists | src/coupling/cpp_worker_confirm_v1/stabilizer.py:71 | the law assumed of the exponential can be met |
| Stabilizer.AppliedGateCanFire | src/coupling/cpp_worker_confirm_v1/stabilizer.py:77-85 | for any elapsed time some raw load is refused by the applied gate if and only if the applied load it starts from is beyond the limit |
| Stabilizer.AppliedGateFires | src/coupling/cpp_worker_confirm_v1/stabilizer.py:33-107 | over all runs from any state: some load is ever refused by the applied gate if and only if the current or staged applied load is beyond the limit at the start |
| Stabilizer.AppliesInNumbers | src/coupling/cpp_worker_confirm_v1/stabilizer.py:56-85 | a raw load is taken if and only if nothing is staged, step and tick follow on, time and tick agree to 5e-13, there are three forces of three components, and raw and blended in-line forces stay within ten times their scale |
| Gather.ParallelMap | src/coupling/multi_slice_driver/scheduler.py:235-262 | whatever order the concurrent calls complete in, the result is the sequential one |
| Gather.SequentialMap | src/coupling/multi_slice_driver/scheduler.py:243-245 | the sequential branch yields the same results in slice order, or nothing when a call fails |
| Gather.ValidateTransaction | src/coupling/multi_slice_mapping/mapping.py:821-855 | accepts exactly the complete transactions of a valid, sealed manifest whose records are genuine, rotation and span checks included, and agree with the first, and returns them in slice order |
| Boundaries.ManifestInNumbers | src/coupling/multi_slice_mapping/mapping.py:323-400 | a manifest is valid if and only if its lengths are positive and sum to the represented length to 1e-12, its slices lie inside and more than 1e-10 apart, its axes are orthonormal and right-handed to 1e-12, and its seal holds |
| Boundaries.MotionIsGenuine | src/coupling/multi_slice_mapping/mapping.py:772-803 | a motion record is genuine if and only if it names the case, a slice with its position to 1e-10 and its length to 1e-12, the step, and the time to 1e-12 |
| Boundaries.LoadIsGenuine | src/coupling/multi_slice_mapping/mapping.py:761-818 | a load record is genuine if and only if a motion record with its metadata is, its span is the slice span to 1e-12, and its local force has, to 1e-13, the components of its global force along the three axes |
| Boundaries.MetadataInNumbers | src/coupling/multi_slice_mapping/mapping.py:844-849 | two records agree if and only if case, step and iteration are equal and the times are to 1e-12 of the first |
| Gather.ArrangedAlike | src/coupling/multi_slice_mapping/mapping.py:821-855 | two accepted orders of the same records give the same result |
| Gather.OnlyTheFirstMatters | src/coupling/multi_slice_mapping/mapping.py:844-849 | acceptance depends on the order of arrival only through the record that comes first |
| Gather.EveryOrderAccepted | src/coupling/multi_slice_mapping/mapping.py:844-849 | every order of arrival is accepted if and only if the records agree pairwise |
| Gather.OrderCanDecide | src/coupling/multi_slice_mapping/mapping.py:151-152 | closeness of times is not transitive: for a valid manifest, three records pass in one order and fail in another |
| Scheduler.StructureAdapter.FinalizeCommitted | src/coupling/multi_slice_driver/mocks.py:111-122 | finalizing makes the pending state committed, tolerates an absent one, and refuses a foreign token |
| Scheduler.StructureAdapter.CorrectAll | src/coupling/multi_slice_driver/mocks.py:85-96 | a correction only stages; the committed state is untouched |
| Scheduler.StructureAdapter.DiscardStaged | src/coupling/multi_slice_driver/mocks.py:124-128 | discarding forgets the pending state, or fails and keeps it |
| Scheduler.CheckpointManager.Commit | src/coupling/checkpoint/atomic_checkpoint.py:350-378 | one manifest becomes durable, or none, or one although the publication raised |
| Scheduler.MultiSliceScheduler.RunStep | src/coupling/multi_slice_driver/scheduler.py:396-545 | the ten-phase step, with a fault at any call and any completion order of the slices, leaves exactly the state and the conclusion of the state machine; which calls a step makes, with which arguments, and what it keeps of them, CoupledExchange.DoneInFull and FailedInFull say; no transition is illegal |
| CoupledExchange.DoneInFull | src/coupling/multi_slice_driver/scheduler.py:396-545 | every completed step, whatever the faults: the motion is predicted from the committed structure and the previous loads; each slice is advanced by its own motion and gives its own raw load; the structure is corrected by the applied loads, which a hook makes of the raw ones at the tick of the time; world and new manifest hold exactly these, with nothing staged |
| CoupledExchange.CallsComplete | src/coupling/multi_slice_driver/scheduler.py:396-545 | conversely, without faults, calls that all succeed at an admissible time complete the step with just these values |
| CoupledExchange.FailedInFull | src/coupling/multi_slice_driver/scheduler.py:372-383 | every step that fails before its commit point leaves each slice where it was, or where its own motion has taken it; a staged structure stays behind only after a refused correction or a failed discard |
| CoupledExchange.FirstStepSeesNoForces | src/coupling/multi_slice_driver/scheduler.py:226 | the first step of a fresh scheduler predicts under three zero components for every slice, and its manifest has no parent |
| CoupledExchange.GridIsTick | src/coupling/checkpoint/atomic_checkpoint.py:308 | a time is accepted if and only if it lies within 5e-13 of a whole number of nanoseconds, and that number is its tick |
| CoupledExchange.RoundedIsNearest | src/coupling/multi_slice_driver/scheduler.py:460 | rounding is to the nearest whole number, and from the middle to the even one |
| Scheduler.MultiSliceScheduler.Exchange | src/coupling/multi_slice_driver/scheduler.py:409-456 | motion barriers, CFD advance and load barriers, then the rest of the step |
| Scheduler.MultiSliceScheduler.Correct | src/coupling/multi_slice_driver/scheduler.py:457-493 | the hook turns raw into applied loads, the structure stages its correction |
| Scheduler.MultiSliceScheduler.Prepare | src/coupling/checkpoint/atomic_checkpoint.py:201-348 | captures slices and staged structure, and refuses a run id without a hook and a time off the tick grid |
| Scheduler.MultiSliceScheduler.Conclude | src/coupling/multi_slice_driver/scheduler.py:512-530 | after the durable point: finalization, bookkeeping and the commit of the hook, each able to fail |
| Scheduler.MultiSliceScheduler.FailPrecommit | src/coupling/multi_slice_driver/scheduler.py:372-383 | rolls the hook back, discards what is recorded as staged, and fails the scheduler |
| Scheduler.MultiSliceScheduler.RecoverFromCheckpoint | src/coupling/multi_slice_driver/scheduler.py:547-572 | recovery from a manifest, with a fault at any of its calls |
| Scheduler.MultiSliceScheduler.RestoreFromCheckpoint | src/coupling/multi_slice_driver/scheduler.py:574-600 | restart before any transaction; a hook without extended fields is an error |
| Scheduler.MultiSliceScheduler.BindRestartSource | src/coupling/multi_slice_driver/scheduler.py:271-296 | binds the parent of a restart only for the first stabilizer schema, the same run and a contiguous step and tick |
| Scheduler.MultiSliceScheduler.LoadRestart | src/coupling/checkpoint/atomic_checkpoint.py:380-428 | restores slices in id order, then the structure; a failure leaves what was restored so far |
| Durability.StepOutcome | src/coupling/multi_slice_driver/scheduler.py:396-545 | every outcome of a step: refused without effect, failed with all committed state as before and the hook rolled back, awaiting recovery behind a durable manifest, or committed with the structure its manifest records |
| Durability.RunKeepsDurable | src/coupling/multi_slice_driver/scheduler.py:349-600 | any run with faults, recoveries and restarts keeps the durability invariant |
| Durability.NewestManifest | src/coupling/multi_slice_driver/scheduler.py:499-530 | the newest durable manifest is that of the last committed step, or of the next one while recovery is due or after a failure that had published |
| Durability.FinalizedIsDurable | src/coupling/multi_slice_driver/scheduler.py:512-521 | the committed structure state is the initial one or stands in a durable manifest |
| Durability.ParentsStepByOne | src/coupling/checkpoint/atomic_checkpoint.py:647-654 | stabilized manifests name parents exactly one step back |
| Durability.RecoveryAccepts | src/coupling/multi_slice_driver/scheduler.py:547-572 | recovery accepts exactly the manifests with the right number of slices and, under a hook, the extended fields, newest or not |
| Durability.RecoveryNeedsNewest | src/coupling/multi_slice_driver/scheduler.py:547-572 | a successful recovery keeps the invariant if and only if it was given the newest manifest |
| Durability.OlderRecoveryFallsBehind | src/coupling/multi_slice_driver/scheduler.py:547-572 | recovering from an older manifest always leaves a newer one ahead of an idle scheduler |
| Witness.OlderManifestIsAccepted | src/coupling/multi_slice_driver/scheduler.py:547-572 | a concrete run: two committed steps and a failed finalization, then the manifest of step 0 is accepted and steps 1 and 2 are left behind |
| Durability.FailedIsFinal | src/coupling/multi_slice_driver/scheduler.py:396-398 | no operation of a failed scheduler changes its phase; steps, recoveries and restores change nothing at all |
| Restart.StepsAlike | src/coupling/multi_slice_driver/scheduler.py:396-545 | worlds that agree on the restart state take the same step under every fault and stay alike |
| Restart.CompletedStepRecords | src/coupling/checkpoint/atomic_checkpoint.py:201-348 | a completed step leaves a manifest that records everything the next step reads |
| Restart.RestartRestores | src/coupling/multi_slice_driver/scheduler.py:271-296 | a restart from the newest manifest is accepted exactly when no hook is used, or the schema is the first stabilizer extension and the tick is contiguous; then it restores the stopped world |
| Restart.RestartRefines | src/coupling/multi_slice_campaign/campaign.py:512-594 | committing a step, restoring its manifest in a fresh scheduler and continuing gives the structure, forces, generalized force, stabilizer state, slices and store of never stopping, for any continuation and any faults |
| Witness.TimeConsistentStepCannotRestart | src/coupling/checkpoint/atomic_checkpoint.py:412-428 | a concrete step with a time-consistent hook completes, and no restart accepts its manifest |
| Restart.RecoveryCompletesTheStep | src/coupling/multi_slice_driver/scheduler.py:517-522 | a failed finalization costs nothing: recovery from the published manifest reaches the world of the successful step |
| Refinement.StepIsCoupledStep | src/coupling/multi_slice_driver/scheduler.py:396-535 | a fault-free step completes if and only if predict, advance, load, stabilize and correct all succeed, the time is on the tick grid and the manifest is acceptable, and then its result is that plain recurrence |
| Refinement.RunIsCoupledRun | src/coupling/multi_slice_driver/scheduler.py:396-535 | over any number of completed steps the scheduler carries exactly what the recurrence computes |
| Refinement.AdvancedIsGathered | src/coupling/multi_slice_driver/scheduler.py:430-433 | slices advanced concurrently are the slices advanced one after another |
| HashCache.Prepare | src/coupling/checkpoint/atomic_checkpoint.py:129-144 | entries and cache hold size, time and digest of exactly the listed files, or the missing file is reported |
| HashCache.ValidateFiles | src/coupling/checkpoint/atomic_checkpoint.py:552-570 | accepts exactly when every entry passes its cached or full check |
| HashCache.CacheIsSound | src/coupling/checkpoint/atomic_checkpoint.py:552-570 | if content changes only with size or time, cached validation accepts exactly what rehashing accepts with every cached file untouched |
| HashCache.CacheFooled | src/coupling/checkpoint/atomic_checkpoint.py:561-568 | without that assumption the cache is fooled exactly by a change of equal size under the same time that the digest would show |
| HashCache.CacheCanBeFooled | src/coupling/checkpoint/atomic_checkpoint.py:561-568 | any two contents of one size and different digests fool the cache when the second keeps the time of the first |
| HashCache.PreparedPasses | src/coupling/checkpoint/atomic_checkpoint.py:129-144 | right after prepare its manifest passes the cached and the full check |
| Packing.ReadWrite | src/coupling/cpp_worker_persistent_ipc_v1/kernel_protocol.py:18-20 | a packed word of each width and signedness reads back as itself |
| Packing.FieldsOfPacked | src/coupling/cpp_worker_persistent_ipc_v1/kernel_protocol.py:123-138 | a packed record reads back wherever it stands in a frame |
| Packing.TakeAll | src/coupling/cpp_worker_persistent_ipc_v1/ancf_worker_main.cpp:31-37 | stepping an offset through a frame yields the fields of the record, or nothing when the frame is too short |
| KernelProtocol.ValidCString | src/coupling/cpp_worker_persistent_ipc_v1/ancf_worker_main.cpp:51-57 | accepts exactly the terminated, non-empty strings without control characters |
| KernelProtocol.ParseRequest | src/coupling/cpp_worker_persistent_ipc_v1/ancf_worker_main.cpp:117-209 | the offset-stepping parser with its return codes does exactly what WireLayout.ParseInBytes and ParsedStands say of the bytes of the frame |
| WireLayout.ParseInBytes | src/coupling/cpp_worker_persistent_ipc_v1/ancf_worker_main.cpp:117-209 | for every frame the return code is the one its bytes at their offsets call for: 2, 3, 4, 5, 6, 7, 13, 14, 8 or 9 in this order of checks, and none exactly when the frame is parsed |
| WireLayout.ParsedStands | src/coupling/cpp_worker_persistent_ipc_v1/ancf_worker_main.cpp:117-209 | every field of a parsed request is the little-endian word, or the text, at its offset: prefix from 0, model from 80, positions from 192, then sizes, ids, digest and arrays |
| WireLayout.WordOfDouble | src/coupling/cpp_worker_persistent_ipc_v1/ancf_worker_main.cpp:65-68 | for every sign, exponent and fraction the word sign 2^63 + exponent 2^52 + fraction is accepted as finite if and only if the exponent is not 2047, and as positive if and only if the sign is clear and another bit is not |
| WireLayout.FiniteDecides | src/coupling/cpp_worker_persistent_ipc_v1/ancf_worker_main.cpp:200-203 | a frame that passes every other check is parsed if and only if no entry of its arrays is infinite or a NaN, and is refused with 9 otherwise |
| WireLayout.OneIsParsedNanIsNot | src/coupling/cpp_worker_persistent_ipc_v1/ancf_worker_main.cpp:200-203 | a concrete printable request with 0.0 and 1.0 in q is parsed back, and the same request with a NaN is refused with 9 |
| RequestRoundTrip.FrameOutcome | src/coupling/cpp_worker_persistent_ipc_v1/ancf_worker_main.cpp:186-203 | a fitting frame with clean ids that does not collide is refused with 13 for its number, with 14 for its identity, with 9 for a non-finite entry, in this order, and otherwise parsed to its fields |
| RequestRoundTrip.PositionsComeBack | src/coupling/cpp_worker_persistent_ipc_v1/kernel_protocol.py:82-87 | given slice positions come back as they are, absent ones as the default ones |
| WireLayout.ParsedIsPrintable | src/coupling/cpp_worker_persistent_ipc_v1/ancf_worker_main.cpp:117-209 | conversely, every parsed request with a step number from zero and a bridge number from one is one the printer could have written, with clean ids |
| RequestRoundTrip.RoundTrip | src/coupling/cpp_worker_persistent_ipc_v1/kernel_protocol.py:76-146 | a printed frame parses back to exactly its fields, absent slice positions filled in, in both layouts, if and only if its four ids have no control characters and, without a mass field, the head of the run id is not the dof |
| RequestRoundTrip.TailInPlace | src/coupling/cpp_worker_persistent_ipc_v1/ancf_worker_main.cpp:167-209 | read in place, the tail gives the request back exactly when the ids are clean |
| RequestRoundTrip.TailShifted | src/coupling/cpp_worker_persistent_ipc_v1/ancf_worker_main.cpp:163-209 | a legacy frame read four bytes late is refused whatever was guessed |
| RequestRoundTrip.OnlyShortIdsCollide | src/coupling/cpp_worker_persistent_ipc_v1/ancf_worker_main.cpp:294 | within the 64 MiB limit only run ids of one or two bytes can read as the dof |
| RequestRoundTrip.LongIdsRoundTrip | src/coupling/cpp_worker_persistent_ipc_v1/kernel_protocol.py:132-146 | every frame within the limit with clean ids and a run id of three or more bytes parses back to its fields |
| RequestRoundTrip.CollidingIsRefused | src/coupling/cpp_worker_persistent_ipc_v1/ancf_worker_main.cpp:179-180 | a colliding frame is refused with code 7, never misread |
| RequestRoundTrip.ShortIdCollides | src/coupling/cpp_worker_persistent_ipc_v1/ancf_worker_main.cpp:163-169 | a concrete collision: run id "B" with ten elements |
| KernelWorker.DecodeResponse | src/coupling/cpp_worker_persistent_ipc_v1/kernel_protocol.py:193-226 | the client decoder, with its five kinds of refusal, does exactly what ResponseLayout.DecodeInBytes says of the bytes of the frame |
| ResponseLayout.DecodeInBytes | src/coupling/cpp_worker_persistent_ipc_v1/kernel_protocol.py:193-226 | for every frame the decoder refuses it for the reason its bytes at their offsets give, a non-finite word among them, and otherwise takes every field from its place |
| ResponseLayout.AnswerInBytes | src/coupling/cpp_worker_persistent_ipc_v1/ancf_worker_main.cpp:260-277 | an answer shows in its bytes the request it answers, with the endpoints exchanged, the eight vectors under their digest, and the checkpoint of the same step |
| ResponseLayout.AcceptedShows | src/coupling/cpp_worker_persistent_ipc_v1/kernel_protocol.py:229-248 | a frame the client accepts for a request shows in its bytes the numbers, ids and tick of that request, a zero code, an acknowledgement, the audit, the checkpoint of its step and the digest of its arrays |
| KernelWorker.ResponseAccepted | src/coupling/cpp_worker_persistent_ipc_v1/kernel_protocol.py:229-248 | every response printed for a request decodes to a record the client accepts, endpoints swapped, checkpoint identity and digest over the eight vectors included |
| KernelWorker.AnswersInSequence | src/coupling/cpp_worker_persistent_ipc_v1/ancf_worker_main.cpp:181-189 | whatever stands in the input, one turn of the loop answers only the next sequence number of the latched run and case, with the kernel result; any refusal ends the worker |
| KernelWorker.StreamInSequence | src/coupling/cpp_worker_persistent_ipc_v1/ancf_worker_main.cpp:279-311 | on any stream of bytes the worker ends, having answered sequence numbers 1 to m, all of one run and case, each with the kernel result for its request, and never wraps round |
| KernelWorker.ConversationIsAnswered | src/coupling/cpp_worker_persistent_ipc_v1/ancf_worker_main.cpp:279-311 | a client that writes its clean requests in order has every one answered, and accepts and reads the kernel result for its own request from each answer |
| KernelWorker.RequestIsAnswered | src/coupling/cpp_worker_persistent_ipc_v1/ancf_worker_main.cpp:278-311 | a clean in-sequence request is answered by a frame from which the client reads the result of the kernel |
| KernelWorker.Worker.ServeFrame | src/coupling/cpp_worker_persistent_ipc_v1/ancf_worker_main.cpp:286-310 | one turn of the frame loop with its exit codes |
| ResponseLayout.ServeInBytes | src/coupling/cpp_worker_persistent_ipc_v1/ancf_worker_main.cpp:289-302 | one turn on any input, in its bytes: exit codes 0, 2, 3, 4, 5 and 6 for end, magic, a length over 64 MiB, a control frame with a payload, an unknown type and a short payload |
| ResponseLayout.AnswerInFull | src/coupling/cpp_worker_persistent_ipc_v1/ancf_worker_main.cpp:296-309 | the answer to a payload: the code of the parser, the code of the kernel, 10 for a result that cannot be printed, or a frame of type 6 around the response and the next number modulo 2^32 |
| KernelWorker.Worker.ServeStep | src/coupling/cpp_worker_persistent_ipc_v1/ancf_worker_main.cpp:296-309 | one step payload: parse, latch, kernel, response, next sequence number |
| KernelWorker.ServeAll | src/coupling/cpp_worker_persistent_ipc_v1/ancf_worker_main.cpp:279-311 | the main loop consumes the stream frame by frame and does exactly what the specification of a stream says |
| Adapter.ResidentWorker.Serve | src/coupling/cpp_worker_confirm_v1/cpp_adapter.py:113-154 | what the adapter, with its one run and case, sees of its worker: a request is served only with the next sequence number and a kernel result; anything else ends the worker |
| WorkerLink.ServedByIsServe | src/coupling/cpp_worker_persistent_ipc_v1/ancf_worker_main.cpp:181-189 | the frame the adapter writes for a call, under its one run and case, does to the frame loop exactly what the call does to the worker the adapter sees, and the state it reads back is the same |
| WorkerLink.LoggedAllIsWireAll | src/coupling/cpp_worker_persistent_ipc_v1/ancf_worker_main.cpp:279-311 | over any sequence of calls, in order or not, both workers return the same states, die at the same call and have served the same numbers |
| WorkerLink.AfterIsAnswered | src/coupling/cpp_worker_confirm_v1/cpp_adapter.py:156-219 | an operation of the adapter is its request, if it makes one, the answer of its worker and what it makes of the answer |
| WorkerLink.RunIsWired | src/coupling/cpp_worker_confirm_v1/cpp_adapter.py:113-247 | any run of the adapter over the frame loop ends with the same fields as over the worker it sees, and leaves the frame loop where the log of that worker says |
| Adapter.KernelAdapter.StartWorker | src/coupling/cpp_worker_confirm_v1/cpp_adapter.py:96-101 | starts once, and never again after an end |
| Adapter.KernelAdapter.PredictMotion | src/coupling/cpp_worker_confirm_v1/cpp_adapter.py:156-187 | prediction from the committed state; only the pending record and the worker change |
| Adapter.KernelAdapter.CorrectState | src/coupling/cpp_worker_confirm_v1/cpp_adapter.py:189-219 | correction of the pending prediction from the committed state; the check for a missing prediction never fires |
| Adapter.KernelAdapter.FinalizeCommitted | src/coupling/cpp_worker_confirm_v1/cpp_adapter.py:237-242 | commits the corrected state, exactly when a correction is pending |
| Adapter.KernelAdapter.DiscardStaged | src/coupling/cpp_worker_confirm_v1/cpp_adapter.py:244-247 | returns to the committed state |
| Adapter.CommittedIsFold | src/coupling/cpp_worker_confirm_v1/cpp_adapter.py:156-242 | over any run the committed state is the fold of the kernel over the forces of the corrections finalized since the last loaded checkpoint, from the loaded state, or from the first one when none was loaded |
| Adapter.ServedInOrder | src/coupling/cpp_worker_confirm_v1/cpp_adapter.py:163-201 | the served log is 1, 2, 3, ... with predictions odd and corrections even |
| Adapter.CommittedStepsAreConsecutive | src/coupling/cpp_worker_confirm_v1/cpp_adapter.py:156-247 | for every run of a fresh adapter, checkpoint loads included: the committed steps are the consecutive ones from the source if and only if no correction is finalized after a staged one was dropped |
| Adapter.CommitsContinue | src/coupling/cpp_worker_confirm_v1/cpp_adapter.py:156-247 | the same from any reachable state, with any number of corrections committed or dropped before |
| Adapter.DiscardCanSkip | src/coupling/cpp_worker_confirm_v1/cpp_adapter.py:244-247 | a concrete run in which a discarded correction lets step 2 be committed without step 1 |
| Boundaries.IdentityInNumbers | src/coupling/cpp_worker_confirm_v1/cpp_adapter.py:103-111 | a step is identified if and only if it comes after the source and its time is that of the step to 1e-12 |
| Boundaries.PredictedInFull | src/coupling/cpp_worker_confirm_v1/cpp_adapter.py:156-187 | with the worker in step, a prediction succeeds if and only if the identity holds, nothing is pending, there are three forces of three components and the kernel succeeds from the committed state, and it returns that result |
| Boundaries.CorrectedInFull | src/coupling/cpp_worker_confirm_v1/cpp_adapter.py:189-219 | likewise a correction, from the committed state, for the predicted step and, to 1e-12, time |
| Boundaries.FreshIsClosed | src/coupling/cpp_worker_confirm_v1/cpp_adapter.py:63-101 | a fresh adapter stands at the initial state and serves nothing until it is started |
| Barrier.SliceBarrier.PrepareStep | src/coupling/cpp_worker_confirm_v1/barrier.py:64-98 | checks the keys of the motions and the identity, hands each slice its own motion, at once in any completion order or in turn, and holds one prepared step; wrong keys or a failing slice end the barrier |
| Barrier.AnswersAlike | src/coupling/cpp_worker_confirm_v1/barrier.py:64-98 | the rows of a step depend on each slice only through the motions that slice has received |
| Barrier.SliceBarrier.CommitPrepared | src/coupling/cpp_worker_confirm_v1/barrier.py:100-137 | publishes the checkpoint, runs the finalizers in the order of the answers and records the step last; a write fault leaves nothing, a finalizer fault leaves the published file and the finalizers before it |
| Barrier.CommitKeepsConsistent | src/coupling/cpp_worker_confirm_v1/barrier.py:100-137 | files on disk are the records or one step beyond them behind a failed commit, and every slice has finalized the one or the other |
| Barrier.AheadIffRaised | src/coupling/cpp_worker_confirm_v1/barrier.py:64-137 | over any run a checkpoint stands on disk that is not on record if and only if a finalizer has failed behind it, and the barrier is then over |
| Barrier.FinalizerFailureLeavesFile | src/coupling/cpp_worker_confirm_v1/barrier.py:100-137 | two operations from the start: a prepared step that all slices answer and a commit whose first finalizer fails leave a published step that is neither recorded nor finalized |
| Barrier.OverForGood | src/coupling/cpp_worker_confirm_v1/barrier.py:64-137 | a failed barrier keeps its files, records and finalizations |
| Barrier.PreparedInFull | src/coupling/cpp_worker_confirm_v1/barrier.py:64-98 | a prepared step advances each of the three slices by the motions it has been handed itself, and holds the step with the three rows in slice order, or fails the barrier |
| Barrier.RefusedInFull | src/coupling/cpp_worker_confirm_v1/barrier.py:64-75 | every other call changes nothing, but that motions for other slices fail the barrier |
| Barrier.CommittedInFull | src/coupling/cpp_worker_confirm_v1/barrier.py:100-137 | a commit publishes, runs the finalizers in the order of the answers up to the one that fails, and records the step last |
| Barrier.StoppedForGood | src/coupling/cpp_worker_confirm_v1/barrier.py:144-153 | a stopped barrier is over for good |
| ConfirmLoop.ConfirmStep | tools/cpp_worker_confirm_v1/run_authorized_confirm_001.py:301-341 | one step of the loop over adapter, barrier and stabilizer advances the recurrence, or leaves the committed side of all three where it was, with the checkpoint file of the step on disk exactly when a slice finalizer failed |
| ConfirmLoop.RunConfirm | tools/cpp_worker_confirm_v1/run_authorized_confirm_001.py:298-370 | the loop stops early only where the recurrence stops or the barrier cannot commit, always stands at a point of the recurrence, and leaves a file beyond its records exactly behind a failed finalizer |
| ConfirmLoop.SentIsCommitted | tools/cpp_worker_confirm_v1/run_authorized_confirm_001.py:304-309 | the motion sent at step j translates the structural state committed at step j |
| ConfirmLoop.StateIsFold | tools/cpp_worker_confirm_v1/run_authorized_confirm_001.py:320-324 | the structure after k steps is the fold of the kernel over the applied loads 0 to k-1 |
| ConfirmLoop.AppliedIsFiltered | tools/cpp_worker_confirm_v1/run_authorized_confirm_001.py:314-318 | the applied load after k steps is the reference filter of the first k raw loads |
| ConfirmLoop.NoLoadActsOnItsOwnStep | tools/cpp_worker_confirm_v1/run_authorized_confirm_001.py:321-324 | what the slices answer from step k on cannot change the state or motion of step k |
| ConfirmLoop.NextInFull | tools/cpp_worker_confirm_v1/run_authorized_confirm_001.py:301-341 | the recurrence takes its step if and only if kernel, translation, slices and filter do, each with its own arguments: kernel with the previous applied load, slice with its own motions, filter over the ticks of one step, inside its gates |
| EnergyLedger.RunCase | src/coupling/online_file_coupling/continuous_fsi_driver.py:222-337 | the step loop of the driver writes rows and running totals equal to the prefix sums of the increments; what these are in the columns of the samples, LedgerColumns.TotalsInColumns and RowInColumns say |
| LedgerColumns.TotalsInColumns | src/coupling/online_file_coupling/continuous_fsi_driver.py:236-262 | every total of the driver is the time step times the sum, over the samples so far, of products of their columns: fluid work of raw load and predicted velocity, structure work of applied load and corrected velocity, projection, temporal part and damping |
| LedgerColumns.RowInColumns | src/coupling/online_file_coupling/continuous_fsi_driver.py:263-337 | a row holds the columns of its sample: raw load, the load applied by branch and mode, velocities, energies before and after, its time and step number |
| EnergyLedger.Powers | src/coupling/online_file_coupling/continuous_fsi_driver.py:236-249 | the planar powers of the driver are the spatial powers of the rows it writes |
| EnergyLedger.ComputeEnergyRows | src/coupling/online_file_coupling/energy_audit.py:70-167 | accepts exactly non-empty integrated rows with positive time steps and no damping below -1e-12, and returns increments and prefix sums |
| EnergyLedger.AuditReproducesDriver | src/coupling/online_file_coupling/energy_audit.py:99-163 | from the rows a driver wrote the audit recomputes every increment and every cumulative column |
| EnergyLedger.AuditAcceptsDriver | src/coupling/online_file_coupling/energy_audit.py:70-125 | the file of a driver is accepted if and only if it has rows, the time step is positive, every load is marked integrated or unmarked, and no damping is below the tolerance |
| LedgerColumns.AuditInColumns | src/coupling/online_file_coupling/energy_audit.py:99-142 | every audited step adds to each total the gap of the row times the products of the columns of that row, with the energies the columns name |
| LedgerColumns.AuditableInColumns | src/coupling/online_file_coupling/energy_audit.py:70-125 | a file is accepted if and only if it has rows, every load is integrated or unmarked, every gap is positive and no damping lies below -1e-12 |
| EnergyLedger.DefectSplits | src/coupling/online_file_coupling/continuous_fsi_driver.py:240-249 | the power defect is the projection part plus the temporal part |
| EnergyLedger.LedgerBalances | src/coupling/online_file_coupling/energy_audit.py:126-142 | cumulatively the defect is projection plus temporal, and the residual is work minus stored-energy change minus damping |
| AuditWindow.SelectWindow | src/coupling/online_file_coupling/energy_audit.py:168-184 | each boundary stands for the initial state or the first row near it; the window is the rows between them, or the last half of the file when none is given, and it is refused exactly when the boundaries select none |
| AuditWindow.WindowIsInterval | src/coupling/online_file_coupling/energy_audit.py:80-83 | the rows of a window are exactly those recorded after the state it starts from, up to the state it ends with |
| Boundaries.WindowEnds | src/coupling/online_file_coupling/energy_audit.py:168-184 | the state before a window is within 1e-10 of its start and its last row of its end; a missing boundary is the beginning or the end of the file, and without any the window is the second half of the rows |
| Boundaries.InitialTimeInColumns | src/coupling/online_file_coupling/energy_audit.py:97-106 | the state before the first row lies its recorded step back, or one share of the time when the step number says how many there were |
| AuditWindow.WindowIsGain | src/coupling/online_file_coupling/energy_audit.py:186-197 | the sums of a window are what the cumulative columns gain over it |
| AuditWindow.WindowsAdd | src/coupling/online_file_coupling/energy_audit.py:186-197 | the sums of two windows that meet are those of the window they make up |
| AuditWindow.WindowBalances | src/coupling/online_file_coupling/energy_audit.py:189-198 | over any window the residual is work less the change of stored energy less damping, the change telescopes, and the closure of the defect is zero |
| AuditWindow.RelativeAtMostThree | src/coupling/online_file_coupling/energy_audit.py:199-200 | the relative residual of any window is between zero and three |
| Boundaries.RelativeIsQuotient | src/coupling/online_file_coupling/energy_audit.py:199-200 | the relative residual is the size of the balance over the largest of structure work, stored change, damping, throughput and 1e-30 |
| Boundaries.AlignmentInNumbers | src/coupling/online_file_coupling/energy_audit.py:61 | a boundary stands for a time if and only if they are within 1e-10, absolute or relative to the boundary |
| AuditWindow.Summarize | src/coupling/online_file_coupling/energy_audit.py:168-252 | the sums and relative residuals of file and window, whether the energy at its start is known, and the readiness flag |
| AuditWindow.DriverIsReady | src/coupling/online_file_coupling/energy_audit.py:238-241 | the file of a driver is ready if and only if the window is chosen and vouched for by the caller and every load is marked integrated |
| AuditWindow.ReadyIsKnown | src/coupling/online_file_coupling/energy_audit.py:201 | behind a ready window stands an energy that was supplied, recorded in the first row or recorded in the row before the window |
| SliceCoverage.ValidateCoverage | src/coupling/multi_slice_campaign/campaign.py:98-138 | accepts exactly the covering manifests and reports their sorted intervals and summed length |
| SliceCoverage.SortedAscends | src/coupling/multi_slice_campaign/campaign.py:117 | sorting keeps the intervals and orders their starts |
| SliceCoverage.LengthsSumToReference | src/coupling/multi_slice_campaign/campaign.py:118-133 | slice lengths of an accepted manifest sum to the reference length within (n+1) tolerances, in any order and number |
| SliceCoverage.EveryPointIsCovered | src/coupling/multi_slice_campaign/campaign.py:118-126 | every point of the reference length lies in an interval, within the tolerance |
| Boundaries.CoversInNumbers | src/coupling/multi_slice_campaign/campaign.py:110-126 | ascending intervals cover if and only if they lie inside to 1e-12, begin at zero, end at the reference and each begins where the one before ends, to 1e-12 absolute or relative |
| Boundaries.PointIsNearCentre | src/coupling/multi_slice_campaign/campaign.py:109-126 | every point of an accepted reference length lies within half a slice length, and the tolerance, of the centre of some slice |
| Boundaries.EvenSlicesAreAccepted | src/coupling/multi_slice_campaign/campaign.py:98-138 | slices that share out a length evenly, each around the middle of its share, are accepted for any number of slices |

## Left out

- Newmark.Advance: `beta` and the time step are nonzero, since the code divides by them; wall-clock diagnostics are dropped.
- InternalForce.AssembleForce: any list of abscissas and weights stands for the 3- and 5-point Gauss rules; the tangent of the same loop is `Tangent.AssembleTangent`.
- InternalForce.ElementForceInto: the tangent of the same loop is `Tangent.ElementTangentInto`.
- Tangent.AddPoint: the sums over the zero entries of the two shape matrices are left out of each entry.
- TangentExact.TangentIsDerivative: a derivative is the rate along every direction by the rules of sum, product and quotient; no limit is taken.
- LinearSolve.Solve: real arithmetic, no `long double`; the double-precision branch of lines 62-65 is the same algorithm.
- Stabilizer.LoadStabilizer.ApplyLoad: the exponential is any decay `E` with `0 < E < 1` and `E(a + b) = E(a) E(b)` on elapsed ticks; audit dictionaries and contract digests are dropped.
- Gather.ParallelMap: which of several failing calls is reported first; results and success do not depend on it.
- The constructors of records and manifests: types, finite numbers, the conversion of the OpenFOAM force. A manifest only says whether the hash it carries is that of its contents.
- Scheduler.MultiSliceScheduler.RunStep: exchange files, hashes of payloads, the transaction log (taken as total), failure files, a hook whose rollback raises, and the sequential slice path, whose leftovers after a failure differ from the parallel one.
- Scheduler.MultiSliceScheduler.Prepare: raw force snapshot manifests are a flag of the configuration; finiteness, shapes and file hashes of the manifest belong to the faults.
- Scheduler.MultiSliceScheduler.RestoreFromCheckpoint: a hook with an `initialize_from_legacy` method, and a constructor started at a committed step.
- Durability.StepOutcome: a correction staged before it was recorded as active stays pending in the structure after a failure, so only committed state is claimed to be unchanged.
- Durability.NewestManifest: recovery and restart are given the newest manifest; `Durability.OlderRecoveryFallsBehind` says that the claim fails for every other.
- Restart.RestartRefines: slices, structure and hook are deterministic functions of their states, and a slice checkpoint captures the whole state of its slice.
- HashCache.ValidateFiles: path resolution, the structure files (always rehashed) and the identity fields of the manifest.
- KernelProtocol.ParseRequest: signed overflow of `6*(elements+1)`, `3*slices` and `4*n`, unreachable for frames within the limit that the printer produces; UTF-8 validity of the ids.
- RequestRoundTrip.RoundTrip: the default spacing of absent slice positions is any function of the model (it is float arithmetic), and order comparisons on the model's doubles are an arbitrary predicate.
- KernelWorker.Worker.ServeStep: the kernel is any function from a request to a result or an error code; bytes after the terminator of an echoed id are zero, as the printer writes them.
- KernelWorker.ResponseAccepted: the comparison of two times is any relation that relates the request's time to itself.
- Adapter.KernelAdapter.PredictMotion: the kernel is a deterministic function of state, slice forces and step; integer ticks are dropped. `WorkerLink.ServedByIsServe` says when that is what the worker and the checks of its answer come to.
- WorkerLink.ServedByIsServe: a request the printer refuses is never sent; the words of a state are read as reals by an arbitrary function.
- ConfirmLoop.RunConfirm: timing rows, preflight, authorization and process cleanup are dropped.
- Barrier.StoppedForGood: a slice whose stop raises, which the source records as a failure.
- Barrier.SliceBarrier.PrepareStep: a slice is a function of its number and the motions it has received; an answer without an audited load counts as a failing slice; after a failure in the sequential mode later slices have not received the step, which no later call can see.
- AuditWindow.Summarize: the unit table, the aliases and the names of the window definition in the summary.
- EnergyLedger.RunCase: waiting for files, the choice among energy columns, and the geometric columns of a row.
- SliceCoverage.ValidateCoverage: the manifest's own validation; slice lengths and the reference length are positive where sums are bounded.
- Floating-point rounding, NaN and infinities in the mechanics.
- `worker_client.py`, whose response type never matches what the decoder and the worker use.
- Evidence, gate and report scripts, subprocess and solver handling, CSV and JSON text, FFT and plotting.
