# MPM 3-D solver core in Dafny

A model of the discrete and exactly-algebraic core of the Taichi MPM 3-D starter solver
(`mpm_3d_starter.py`). The solver has water, jelly and snow particles on a 128³ background grid,
with APIC transfers. The model covers:

- **B-spline kernel** (`kernel.dfy`): the quadratic B-spline kernel shared by particle-to-grid
  (P2G) and grid-to-particle transfer. It holds the stencil base `int(x * inv_dx - 0.5)`, the
  offset `fx` and the three per-axis weights. It proves that the weights are a partition of
  unity, that the 27 product weights sum to 1, and that the weights are non-negative on
  `[0.5, 1.5]`.
- **Grid** (`grid.dfy`): row-major storage of the grid fields, and the per-node momentum step
  of `substep_grid`: momentum to velocity, gravity, and the box boundary rule.
- **Plasticity** (`plasticity.dfy`): the per-singular-value plasticity loop of the constitutive
  update. The singular values are inputs. The snow clamp is proved, and so is the conservation
  of `Jp * J` relative to the product of the singular values.
- **Mass scatter** (`scatter.dfy`): the mass half of P2G, as functions on the flattened
  `grid_m`. It proves the exact per-node deposit, and that every particle in use adds exactly
  `p_mass` to the total.
- **Seeding plan** (`seeding.dfy`): the plan by which `init_vols` shares the budget of
  `n_particles` slots among the cuboids of a preset, and the errors it raises. It proves that
  the ranges tile `[0, N)`, that each non-last count is the floor of its proportional share,
  and that every slot is seeded exactly once.
- **Fields** (`simulation.dfy`): the Taichi fields as arrays of a class `Fields`, with the
  kernels that update them in place as methods with loop invariants. The kernels are
  `substep_zero_out`, the mass scatter and plasticity of `substep_p2g`, `substep_grid`,
  `set_all_unused`, `init_cube_vol`, `init_vols` and `set_color_by_material`.

Other modelling choices:

- Arithmetic is exact: `real` stands for floating point, and `int` for Taichi's 32-bit integers.
- Taichi's parallel loops run as sequential loops in the source's index order.
- Grid fields are stored flat: node `(i, j, k)` sits at `(i * 128 + j) * 128 + k`, and the
  lemmas `CoordOfIdx` and `IdxOfCoord` prove the addressing is a bijection.

The model follows the code in two places where it departs from the textbook MPM scheme:

- **Truncation, not floor.** The stencil base is computed with Taichi's `.cast(int)`, which
  truncates toward zero. It equals the floor only for non-negative arguments.
  `Kernel.TruncationNearOrigin` shows that for a scaled coordinate in `(-0.5, 0.5)` the
  truncated base is 0 where the floor would give -1. There the offset `fx` falls below 0.5,
  outside the kernel's range.
- **Narrower upper band.** The upper-face boundary test is a strict `>` against
  `n_grid - bound`. The upper band is therefore one cell narrower than the lower band
  (`Grid.UpperBandIsNarrower`).

The code never clamps particle positions after advection (line 139). Nothing keeps a particle's
stencil inside the grid, so `Simulation.Fields.SubstepP2G` *requires* every particle in use to
have its stencil inside the grid.

## Model

| member | source | states |
|---|---|---|
| Common.Trunc | mpm_3d_starter.py:56 | `.cast(int)` truncates toward zero: the floor for non-negative arguments, within one above it for negative ones |
| Kernel.BaseAxis | mpm_3d_starter.py:56 | shared by P2G (line 56) and G2P (line 124): the stencil base along one axis equals `floor(x*inv_dx - 0.5)` when `x*inv_dx >= 0.5`, and 0 on `(-0.5, 0.5)` |
| Kernel.FracAxis | mpm_3d_starter.py:57 | shared by P2G (line 57) and G2P (line 125): base + fx reconstructs `x*inv_dx`, and fx lies in `[0.5, 1.5)` when `x*inv_dx >= 0.5` |
| Kernel.TruncationNearOrigin | mpm_3d_starter.py:56-57 | near the origin the truncating cast differs from floor: base 0 instead of -1, and fx below 0.5 |
| Kernel.Locate | mpm_3d_starter.py:56-57 | the base and offset of P2G (lines 56-57) and G2P (lines 124-125); per axis, base + fx == position * inv_dx, with fx in `[0.5, 1.5)` where the scaled position is at least 0.5 |
| Kernel.KernelWeights | mpm_3d_starter.py:59 | the weights of P2G (line 59) and G2P (line 126): three weight vectors; entry `i` on axis `a` is the `i`-th quadratic B-spline polynomial of `fx[a]` |
| Kernel.AxisWeight | mpm_3d_starter.py:59 | the `i`-th quadratic B-spline polynomial `0.5(1.5-f)^2`, `0.75-(f-1)^2`, `0.5(f-0.5)^2`; its sum and range are proved by `WeightsPartitionUnity` and `WeightsNonNegative` |
| Kernel.WeightsPartitionUnity | mpm_3d_starter.py:59 | on every axis the three weights sum to exactly 1, for any offset |
| Kernel.WeightsNonNegative | mpm_3d_starter.py:59 | on `fx ∈ [0.5, 1.5]` every weight lies in `[0, 1]` |
| Kernel.Weight | mpm_3d_starter.py:96 | the weight `w[i][0] * w[j][1] * w[k][2]` of stencil node `base + (i, j, k)`; `StencilWeightsSumToOne` proves the 27 weights sum to 1 and `StencilWeightsNonNegative` that each is non-negative on the kernel's range |
| Kernel.StencilWeightsSumToOne | mpm_3d_starter.py:92-96 | the 27 product weights `w[i][0]*w[j][1]*w[k][2]` sum to 1 |
| Kernel.StencilWeightsNonNegative | mpm_3d_starter.py:96 | on the kernel's range every product weight is non-negative |
| Grid.Idx | mpm_3d_starter.py:31-32 | row-major slot of node `(i, j, k)` in the flat grid storage; `CoordOfIdx` proves it lands in `[0, 128³)` and is undone by `Coord` |
| Grid.Coord | mpm_3d_starter.py:31-32 | the node stored at a flat slot; `IdxOfCoord` proves it is an in-grid node that `Idx` maps back to the slot |
| Grid.CoordOfIdx | mpm_3d_starter.py:31-32 | every node of the 128³ grid has a slot in `[0, 128³)` and the slot gives the node back |
| Grid.IdxOfCoord | mpm_3d_starter.py:31-32 | every slot holds an in-grid node that is stored at that slot |
| Grid.ClampAxis | mpm_3d_starter.py:107-110 | after the two tests of an axis, the component is non-negative in the lower band and non-positive in the upper band; it is kept exactly when it is not outward in a band, and otherwise 0 |
| Grid.FreeVelocity | mpm_3d_starter.py:104-106 | mass times velocity gives the momentum back on x and z, and on y after removing `dt*gravity` |
| Grid.NodeUpdate | mpm_3d_starter.py:102-118 | a massless node is untouched; a massive node gets momentum/mass plus gravity, with no outward component in either band, each component equal to the free velocity or 0, and every component that is not outward in its band (in particular every interior one) equal to the free velocity |
| Grid.UpperBandIsNarrower | mpm_3d_starter.py:107-110 | on the upper face the node at `n_grid - bound` keeps an outward velocity and only `n_grid - bound + 1` loses it, while on the lower face `bound - 1` already loses it and `bound` keeps it |
| Plasticity.SnowClamp | mpm_3d_starter.py:75-76 | the result lies in `[0.975, 1.0045]`; it is the identity inside, the lower limit below and the upper limit above |
| Plasticity.NewSigma | mpm_3d_starter.py:73-76 | the singular value kept by one pass: `SnowClamp` of it for snow, the value itself otherwise; `SnowClamp` carries the range and `NonSnowKeepsJp` the identity |
| Plasticity.JpAfter | mpm_3d_starter.py:72-77 | `Jp` after the passes multiply it by `sig[d] / new_sig` in order; `VolumeConserved`, `NonSnowKeepsJp`, `SnowNeverRaisesJp` and `SnowCompressionLowersJp` state its properties |
| Plasticity.Clamped | mpm_3d_starter.py:72-77 | the kept values have the same length, each the snow clamp of its singular value for snow and the value itself otherwise |
| Plasticity.VolumeConserved | mpm_3d_starter.py:72-79 | new Jp times the product of the kept values equals old Jp times the product of the singular values |
| Plasticity.NonSnowKeepsJp | mpm_3d_starter.py:73-77 | for water and jelly the kept values are the singular values and Jp is unchanged |
| Plasticity.SnowNeverRaisesJp | mpm_3d_starter.py:74-77 | snow with positive singular values not above the upper limit ends with `0 < Jp_new <= Jp` |
| Plasticity.SnowCompressionLowersJp | mpm_3d_starter.py:74-77 | snow compressed below the lower limit on some axis (and nowhere above the upper) strictly loses Jp |
| Plasticity.PlasticityUpdate | mpm_3d_starter.py:71-79 | the loop yields the kept values, the new Jp and `J` as the product of kept values; for snow every kept value lies in the clamp range; otherwise values and Jp are unchanged |
| Scatter.Node | mpm_3d_starter.py:93-95 | the stencil node `pos = base + offset` for offset `(i, j, k)`; `AddAtSlot` proves its slot is in the grid when the stencil is |
| Scatter.AddAt | mpm_3d_starter.py:98 | `grid_m[pos] += weight * p_mass` on the flat grid, keeping its size; `AddAtSlot` states which slot changes and by how much |
| Scatter.AddAtSlot | mpm_3d_starter.py:95-98 | one add `grid_m[pos] += weight * p_mass` changes exactly the in-grid slot of node `base + (i, j, k)` |
| Scatter.Deposit | mpm_3d_starter.py:92-98 | the grid masses after one particle's 27 adds in `ndrange(3, 3, 3)` order, over the whole grid; its total is `DepositTotal` and its value per node `DepositAt` |
| Scatter.Scattered | mpm_3d_starter.py:54-98 | the grid masses after the sweep over particles deposits for each one in use; its total is `ScatteredTotal` and its value per node `ScatteredAt` |
| Scatter.DepositTotal | mpm_3d_starter.py:92-98 | one particle's scatter adds exactly `p_mass` to the total grid mass |
| Scatter.DepositAt | mpm_3d_starter.py:92-98 | each node receives `p_mass` times its kernel weight; nodes outside the stencil are unchanged; on the kernel's range no node loses mass |
| Scatter.ScatteredTotal | mpm_3d_starter.py:54-98 | the sweep over particles adds `p_mass` per particle with `is_used` set and nothing for the others |
| Scatter.ScatteredAt | mpm_3d_starter.py:54-98 | after the sweep each node holds its old mass plus `p_mass` times the weights the particles in use give it |
| Seeding.VolumeSpec.Volume | mpm_3d_starter.py:150 | the `volume` attribute `init_vols` reads: `size.x * size.y * size.z` for a cuboid, the carried value otherwise; `SumVolumes`, `PrefixBounds` and `ShareStepBudget` use it |
| Seeding.ParCount | mpm_3d_starter.py:194-198 | `par_count` of entry `i`: the last entry takes every remaining slot, so that it ends at `N`; any other entry with a non-negative share takes the floor of `vol/total*N` |
| Seeding.PlanFrom | mpm_3d_starter.py:190-203 | the seeding loop from entry `i`: at most one range per remaining entry, no error exactly when every remaining entry got one, the first range starting at `next_p`, and never a missing-volume error; `PlanFromBounded` and `PlanErrorIff` carry the rest |
| Seeding.InitPlan | mpm_3d_starter.py:184-203 | what `init_vols` does with a preset: at most one range per entry, no error exactly when every entry got one, a missing-volume error exactly when some entry has no volume, and the first range starting at slot 0 |
| Seeding.PlanErrorIff | mpm_3d_starter.py:190-203 | the seeding loop ends in an error exactly when some entry is not a cuboid or the total volume is zero |
| Seeding.PlanStopsAtFirstFailure | mpm_3d_starter.py:190-203 | the first failing entry decides the error (non-cuboid or zero total), and every entry before it has been seeded |
| Seeding.MissingVolumeSeedsNothing | mpm_3d_starter.py:186-188 | an entry without a volume attribute fails while summing, before any slot is seeded |
| Seeding.NonCubeRaises | mpm_3d_starter.py:202-203 | a non-cuboid entry after `b` cuboids of positive total volume raises after seeding exactly `b` ranges |
| Seeding.ShareStepBudget | mpm_3d_starter.py:194 | a non-last count is the non-negative floor of `vol/total*N`; it keeps `next_p + count <= N` and `next_p * total <= N * (volume seen)` |
| Seeding.LastStepBudget | mpm_3d_starter.py:195-198 | the remainder `N - next_p` taken by the last cuboid is non-negative |
| Seeding.PlanFromBounded | mpm_3d_starter.py:190-201 | loop invariant: ranges laid end to end from `next_p` inside `[0, N]`, each carrying its cuboid, non-last counts the floor of the share, a completed loop ending at `N` |
| Seeding.PlanBounded | mpm_3d_starter.py:184-203 | the invariant holds for a whole preset with non-negative volumes |
| Seeding.RangeInBudget | mpm_3d_starter.py:199-200 | with non-negative volumes every range passed to `init_cube_vol` satisfies `0 <= first <= last <= N` |
| Seeding.NonNegativeVolumesInBudget | mpm_3d_starter.py:184-203 | with non-negative volumes every non-empty range handed to `init_cube_vol` lies inside `[0, N)` |
| Seeding.NegativeVolumeLeavesBudget | mpm_3d_starter.py:194-201 | with volumes -1, 1, 1 the first count is `-N` and the second cuboid gets `[-N, 0)`, a non-empty range below slot 0 |
| Seeding.PlanTiles | mpm_3d_starter.py:184-203 | a preset of cuboids with positive total volume yields no error and one range per cuboid, in order, tiling `[0, N)`; each non-last count is `floor(vol_i/total*N)` |
| Seeding.PlanStep | mpm_3d_starter.py:199-201 | seeding one cuboid moves its range from the rest of the plan to the seeded prefix |
| Seeding.PlanEnds | mpm_3d_starter.py:190-203 | when the loop ends or raises, the seeded prefix is the whole plan, with the matching error |
| Seeding.Owner | mpm_3d_starter.py:158-168 | the last range covering a slot, or none if no range covers it |
| Seeding.TilingCoversOnce | mpm_3d_starter.py:190-201 | in a tiling every slot lies in exactly one range |
| Seeding.EverySlotSeededOnce | mpm_3d_starter.py:184-203 | seeding a preset of cuboids with positive total volume hands every slot to exactly one cuboid |
| Simulation.Place | mpm_3d_starter.py:159-160 | with draws in `[0, 1]` and non-negative extents the position lies inside the cuboid on every axis |
| Simulation.NodeStep | mpm_3d_starter.py:103-118 | the six sequential boundary tests produce exactly `NodeUpdate` |
| Simulation.SumVolumes | mpm_3d_starter.py:186-188 | the sum succeeds exactly when every entry has a volume, and then equals the total volume |
| Simulation.JpAfterP2G | mpm_3d_starter.py:55-79 | `Jp` of a particle after P2G: `JpAfter` for a particle in use that is not water, unchanged otherwise; `SubstepP2G` states every particle's `Jp` through it |
| Simulation.Fields.constructor | mpm_3d_starter.py:25-38 | every field starts zero-filled |
| Simulation.Fields.ZeroOut | mpm_3d_starter.py:47-50 | every node gets mass 0 and velocity (0, 0, 0); the total grid mass is 0 |
| Simulation.Fields.AddMass | mpm_3d_starter.py:98 | `grid_m[n] += d` changes slot `n` by `d` and no other slot |
| Simulation.Fields.ScatterRow | mpm_3d_starter.py:92-98 | the adds for `k = 0, 1, 2` at fixed `(i, j)` leave `grid_m` equal to `DepositK` of the old masses |
| Simulation.Fields.ScatterPlane | mpm_3d_starter.py:92-98 | the adds for all `(j, k)` at fixed `i` leave `grid_m` equal to `DepositJ` of the old masses |
| Simulation.Fields.ScatterMass | mpm_3d_starter.py:92-98 | the 27 adds of one particle leave `grid_m` equal to `Deposit` of the old masses |
| Simulation.Fields.SubstepP2G | mpm_3d_starter.py:53-98 | `grid_m` becomes `Scattered` of the old masses; total mass grows by `p_mass` per particle in use; Jp follows plasticity for used non-water particles and is unchanged otherwise |
| Simulation.Fields.SubstepGrid | mpm_3d_starter.py:101-118 | every node's velocity becomes `NodeUpdate` of its coordinate, mass and old momentum; mass is not modified |
| Simulation.Fields.SetAllUnused | mpm_3d_starter.py:172-181 | every slot becomes unused, at the sentinel position, with `Jp = 1`, `F = I`, `C = 0` and `v = 0`; materials are kept |
| Simulation.Fields.InitCubeVol | mpm_3d_starter.py:155-168 | slots in `[first, last)` get position, `Jp = 1`, `F = I`, `v = 0`, the material and `is_used = 1`; all other slots are unchanged |
| Simulation.Fields.SeedRange | mpm_3d_starter.py:199-200 | seeding one more range keeps every slot as the extended list of ranges describes |
| Simulation.Fields.SeedCuboid | mpm_3d_starter.py:193-201 | one turn of the loop seeds the range of `ParCount` slots from `next_p`, which is the next range of the plan, and every slot is as the extended list of ranges describes |
| Simulation.Fields.InitVols | mpm_3d_starter.py:184-203 | the error returned is the plan's; each slot holds the data of the last range that seeded it, or stays parked with its old material |
| Simulation.Fields.SetColorByMaterial | mpm_3d_starter.py:207-211 | every particle's colour is its material's RGB with alpha 1 |

## Left out

- `ti.svd` is a foreign call. P2G takes each particle's singular values as the input `sigma[p]`, and the rotations `U`, `V` are not modelled.
- The deformation-gradient update, the hardening factor `exp(10 (1 - Jp))` and the jelly override `h = 0.3` are not modelled. Neither are the snow reconstruction `F = U sig V^T`, the stress and affine matrices, or the momentum half of the scatter into `grid_v`. All of this is floating-point continuum mechanics with no crisp contract, so `Simulation.Fields.SubstepP2G` changes only `grid_m` and `Jp`.
- The G2P gather, APIC reconstruction, advection and the trace update of `Jp` are not modelled. Its base, offset and weights are the same `Kernel` functions.
- `ti.random()` draws for positions are the input `samples[p]`, one per slot. The random colours `colors_random` are not modelled.
- Floating-point rounding (float32 fields, `int(vol / total * N)` in float64) is replaced by exact reals. The loss of mass or budget through rounding is not captured.
- Taichi's parallel execution and the atomic adds of the scatter are not modelled. Loops run sequentially in index order.
- The presets, GUI, camera, rendering and the main window loop (line 216 onward) are not modelled.
- Plasticity.PlasticityUpdate: the conservation `Jp_new * J = Jp_old * prod(sig)` is not an ensures of the method. It follows from the method's ensures together with the lemma `Plasticity.VolumeConserved`.
- Simulation.Fields.SubstepP2G: requires every particle in use to have its whole stencil inside the grid. The source does not check this, and Taichi would address memory outside the field.
- Simulation.Fields.SubstepP2G: requires the kept singular values of jelly and snow to be non-zero. For jelly, a zero singular value makes the source divide 0 by 0.
- Simulation.Fields.InitVols: requires every non-empty range of the plan to lie inside `[0, n_particles)`, because Taichi does not check the indices `init_cube_vol` writes. `Seeding.NonNegativeVolumesInBudget` shows that non-negative volumes always meet this. A negative volume before the last entry, with a positive total, can break it: `Seeding.NegativeVolumeLeavesBudget` gives such a preset. A lone cuboid takes exactly `[0, n_particles)` whatever its non-zero volume, of either sign; a zero total volume raises before any range is seeded.
- Simulation.Fields.InitCubeVol: requires a non-empty range to lie inside `[0, n_particles)`, which Taichi does not check.
- Simulation.Fields.SetColorByMaterial: requires every material id to index the colour table, which the source does not check.
