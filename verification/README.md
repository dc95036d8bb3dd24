# Verified model of a flight stack

This project models the core of a Rust robotics flight stack and proves laws that its own tests can
only sample. The original is a `no_std` kernel (`flight-core`) with backends and tools around it. The
model follows the code branch by branch: where the code assigns fields or walks a buffer there is a
class or a loop over an array, proved against a function, and the laws are proved about that function;
where the code is an expression there is a function and lemmas.

Single-precision numbers are reals, so every value is finite. Integers that the code keeps in a fixed
width saturate or wrap explicitly. Square roots are a parameter. The shallow-water results ask of it, at
every non-negative argument, the relative error of `Roots.NearRoot`; the bit-trick root of the code meets
that error on zero and on exactly those floats that `FastRoot.RootIsNearIff` names - every normal one, and
the upper fifth of the subnormals. The rigid-body and attitude results assume an exact root
(`Roots.ExactRoot`).

## What is here

| file | subject |
|---|---|
| `options.dfy`, `roots.dfy`, `fast_root.dfy` | a shared option type; what a square root must satisfy; the exponent-shift guess with three Newton steps |
| `hydro_kernel.dfy`, `hydro_state.dfy` | the shallow-water step as functions, and as in-place loops over flat arrays |
| `hydro_flux.dfy` | numerical flux, cell update and relaxation against the equations they discretise |
| `hydro_faces.dfy` | what crosses each face, and the momentum of a whole sweep |
| `hydro_conservation.dfy` | face fluxes telescope over a row-major grid with any land mask; what a step does to the water |
| `hydro_cfl.dfy` | the sub-step count, and why a full step under it never draws a cell below zero |
| `hydro_rest.dfy`, `hydro_waves.dfy` | a lake at rest, steps that gain water, and the initial wave |
| `vectors.dfy`, `contact.dfy`, `friction.dfy` | sphere contact and Coulomb friction with spin |
| `rotation.dfy`, `turning.dfy`, `euler.dfy`, `attitude.dfy` | quaternions, the turn of an integration step, Euler's equations, the complementary attitude filter |
| `tilt.dfy` | how fast the filter's tilt correction settles, and where specific force leads it |
| `clock.dfy`, `safety.dfy`, `safety_runs.dfy`, `authority.dfy` | saturating time, the safety kernel, what its sessions remember, and permits over its runs |
| `px4_backend.dfy` | the PX4 companion backend: latch, revocation bit, epoch |
| `px4_heard.dfy`, `px4_flags.dfy`, `px4_setpoints.dfy` | all that hearing messages does to it, its flags and epoch after any operation, and the setpoint it streams |
| `timing.dfy`, `ground.dfy`, `marine.dfy`, `rack.dfy` | deadlines, the rover and hull machines, and the rack that trips all of them |
| `rack_calls.dfy`, `rack_commands.dfy`, `rack_runs.dfy` | when each call of the rack goes through, which command reaches which body, and what every run keeps |
| `bytes.dfy`, `cdr.dfy`, `cdr_layout.dfy`, `ulog.dfy`, `ulog_layout.dfy`, `ulog_mixed.dfy`, `sensors.dfy` | byte formats (CDR as in section 10 of OMG DDSI-RTPS, PX4 ULog) and sequence tracking |

## Where the code falls short of its words

Most of these come with an input and with the exact condition under which the code keeps the promise.

- Water can be created. A step never loses any, and keeps the amount if and only if no clamp changes a depth
  (`HydroConservation.StepConservesIff`). It gains some wherever the north sweep of a sub-step asks a cell for
  more than it holds (`HydroRest.OverdrawnStepGainsWater`). That happens with the sub-step count capped at 16
  (`HydroRest.CappedStepGainsWater`), with a count beyond the largest `i32`, where `ceilf` returns 0 and the
  count falls back to 1 (`HydroRest.OverflownStepGainsWater`), and with cells of less than a millimetre,
  which the count takes for a millimetre (`HydroRest.FineGridGainsWater`). It also happens with none of these:
  the count is taken once, and an uncapped one makes the first sub-step safe (`HydroCfl.FirstSubstepFits`), but
  the wind of that sub-step can outrun it before the second (`HydroRest.WindOutrunsTheCount`). Only an
  uncapped count of one makes a whole step safe (`HydroCfl.CflStepConserves`).
- The `step` guard lets a scratch buffer longer than three grids through, and the snapshot copy then
  panics: `HydroState.State.Step` says exactly when.
- `apply_wave_mode` documents that total volume is unchanged. That holds exactly when no trough reaches
  below the bottom (`HydroWaves.VolumeUnchangedIff`); in `HydroWaves.DeepTroughAddsWater` a pond of two columns
  ends up fuller by two fifths or more, for any sine of at least 0.9 in size there.
- `sqrtf` loses its accuracy on subnormals with an encoding below 0x66d755 and on no other positive finite
  float (`FastRoot.RootIsNearIff`); on the smallest its square is more than ten thousand times too large
  (`FastRoot.SubnormalRootIsFarOff`).
- A body of at most 1e-9 kg counts as immovable. A blow between one of these and a movable body creates
  momentum (`SphereContact.MomentumKeptIff`), and energy if it is the faster of the two along the normal
  (`SphereContact.EnergyNotRaisedIff`); `SphereContact.LightBlowCreatesMotion` does both. Friction between
  them creates momentum too (`SphereFriction.FrictionMomentumIff`).
- The contact checker rejects a resolution exactly when neither body can move and they overlap by more than
  its tolerance (`SphereContact.InvariantsHoldIff`, `SphereContact.StatuesFailTheCheck`). Overlapping centres
  less than 1e-8 apart are pushed east, and unless they already lay in that line a little overlap is left
  (`SphereContact.ResolveSeparates`, `SphereContact.ResolveIsIdempotentIff`), where gripping friction then
  changes angular momentum (`SphereFriction.FrictionAfterResolveIff`).
- The attitude filter promises a tilt correction from specific force, and its correction turns the seen
  vertical towards the measured acceleration, as if a sensor at rest read +g. Specific force points the other
  way when a vehicle is held up. Under a force of s along a direction v one update does not turn the seen
  vertical away from v if and only if s > 0 or the two are parallel already (`Tilt.ForceAlignsIff`), and over
  a run it closes in on v or, for s < 0, on the opposite (`Tilt.ForceRun`, `Tilt.ForceRunTurns`). The plant's
  own accelerometer returns thrust over mass, so on a vehicle held up by its thrust the filter turns away
  from true down and settles upside down (`Tilt.HoverTurnsAway`); a drone's thrust turns with it, so there
  the reading is straight up the body whatever the attitude (`Tilt.CollectiveReadsUp`).
- `Touchdown` leaves offboard without moving the epoch, so a permit outlives it
  (`Authority.PermitOutlivesTouchdown`). An epoch at its maximum cannot revoke
  (`Authority.LastEpochCannotRevoke`). `Authority.PermitSurvivesIff` is the exact rule.
- `Px4Backend::enter_offboard` checks its latch before it streams and not after, so offboard and latch
  can stand together: `Px4.OffboardIsBlockedIff` says exactly when, `Px4.OffboardCanOutlastLatch` is such a
  stream. Setpoints are refused all the same. An injected IMU fault on an unarmed, unblocked backend blocks
  nothing: `Px4.InjectBlocksIff`.
- The PX4 backend keeps the setpoint it streams in the fields that position reports are written to. What goes
  out is whichever was written last: a staged setpoint outlasts a run without another one exactly when no
  report came, or the last one happened to carry it (`Px4Setpoints.VelocityOutlastsIff`,
  `Px4Setpoints.PositionOutlastsIff`); a vehicle told to climb that reports standing still is from then on
  streamed standing still (`Px4Setpoints.ReportReplacesSetpoint`). And the age check on the position estimate
  lets setpoints through as long as there was none at all (`Px4Setpoints.SetpointPassesIff`).
- The documented way to arm leads through the preflight check. The kernel has two ways round it: a `Disarm` from
  any connected phase, and a `Touchdown` or `Disarm` from a failsafe, both lead to `Ready`
  (`SafetyRuns.DisarmSkipsCheck`, `SafetyRuns.TouchdownSkipsCheck`). An armed vehicle has been checked in its session
  exactly when neither came before the check (`SafetyRuns.ArmedIsCheckedIff`).
- A command is "within its deadline" to 99 ms and "within its age bound" to just under 100 ms; the two
  differ exactly in between (`Timing.DeadlineDisagreesIff`).
- A deadline period that belongs to no whole rate makes every frame a miss (`Timing.FrameMissedIff`), which a caller can tell beforehand (`Timing.RatePeriodIff`); 0.3 s is such a
  period (`Timing.OddPeriodAlwaysMisses`).
- `WorldRack::inject_revoke` trips the drone but leaves its handle's staged setpoint, which every later frame
  flushes onto the failsafed body. The plant step drops it again, so no scored frame leaves it there; a frame
  whose plant step is rejected does: `Rack.InjectedFailsafeKeepsSetpointIff`, and `Rack.FreshRackKeepsSetpoint`
  for a rack fresh from its grants.
- `CdrReader` ignores padding values and trailing bytes, and reads any non-zero byte as true, so writing what
  was read need not restore the bytes: `Cdr.ReencodesIff`, `Cdr.ModeReencodesIff` and
  `Cdr.SetpointReencodesIff` say exactly when it does, `Cdr.LargeFlagIsNotKept` is a message it does not.
- `SequenceTracker` counts the samples between two numbers if and only if the second is later by less than a
  wrap (`Sensors.MissedIsGapIff`); a late sample counts as almost a whole wrap
  (`Sensors.LateSampleCountsAWrap`).
- A file cut at a message boundary, or less than three bytes past one, reads as a shorter log rather
  than as an error (`Ulog.CutFile`).

## Model

| member | source | states |
|---|---|---|
| FastRoot.GuessIsClose | crates/flight-core/src/math.rs:3-10 | on every positive normal float, for both exponent parities and with the odd mantissa carry, the shifted-exponent guess squares into [x(1 - 2^-22), 1.125x] |
| FastRoot.NewtonMapsError | crates/flight-core/src/math.rs:11-14 | one Newton step takes relative square error d to exactly d²/(4(1+d)), and stays positive |
| FastRoot.RootIsNear | crates/flight-core/src/math.rs:3-15 | three steps leave 0 <= y² - x <= 2.3e-12·x on every positive normal float |
| FastRoot.RootIsNearIff | crates/flight-core/src/math.rs:3-15 | on positive finite floats the bound holds if and only if the encoding is at least 0x66d755, subnormals included |
| FastRoot.SubnormalRootIsFarOff | crates/flight-core/src/math.rs:3-15 | how far off it can be: on the smallest subnormal y² exceeds 10000x |
| Roots.RootGrowth | crates/flight-core/src/math.rs:3-15 | any root that accurate grows by at most r when its argument grows by k, given (1 + error)k <= r²; what the shallow-water bounds need of a root |
| HydroFlux.FluxIsConsistent | crates/flight-core/src/hydro.rs:186-225 | between equal wet states the numerical flux is the shallow-water flux itself, (hu, hu² + gh²/2) |
| HydroFlux.FluxMirrors | crates/flight-core/src/hydro.rs:186-225 | swapping the sides and both velocities negates the mass flux and keeps the momentum flux |
| HydroFlux.CellMovesMomentum | crates/flight-core/src/hydro.rs:336-374 | a wet cell moves its momentum along the sweep by the net momentum flux, is stopped when it dries, and keeps the other velocity |
| HydroFlux.RelaxationContracts | crates/flight-core/src/hydro.rs:376-387 | wind and friction leave depth alone and contract each velocity towards its wind equilibrium by 1/(1 + dt·friction) |
| HydroFaces.OpenFace | crates/flight-core/src/hydro.rs:186-225 | between two wet cells both sides see one and the same flux cross: for mass and momentum alike the mean of the two physical fluxes less half the larger signal speed times the jump from left to right, from depths and velocities of those two cells |
| HydroFaces.FarWall | crates/flight-core/src/hydro.rs:299-334 | against a wall, a shore or the grid's end ahead a cell feels hu² + gh²/2 + s·hu, and no water crosses |
| HydroFaces.NearWall | crates/flight-core/src/hydro.rs:299-334 | behind it, hu² + gh²/2 - s·hu |
| HydroFaces.SweepMovesMomentum | crates/flight-core/src/hydro.rs:261-374 | over any grid, mask and field a sweep changes total momentum by the pushes of walls and shores and by what is dropped with cells that dry, and by nothing else: open faces only pass it on |
| HydroState.State.UpdateCell | crates/flight-core/src/hydro.rs:336-374 | writes the cell's new depth and velocity at its index and nothing else |
| HydroState.State.Snapshot | crates/flight-core/src/hydro.rs:261-276 | the scratch buffer ends up holding depth and both velocities, in that order |
| HydroState.State.FacePair | crates/flight-core/src/hydro.rs:277-297 | both face fluxes of a cell come from the snapshot, not from cells already updated |
| HydroState.State.SweepCell | crates/flight-core/src/hydro.rs:277-297 | one cell of the sweep takes its final value while visited and unvisited cells stay as they are |
| HydroState.State.Sweep | crates/flight-core/src/hydro.rs:261-297 | the in-place sweep, column by column or row by row, is the simultaneous update of all cells |
| HydroState.State.ApplySource | crates/flight-core/src/hydro.rs:376-387 | the in-place source pass is the per-cell source on every wet cell |
| HydroState.State.PinLandAndDry | crates/flight-core/src/hydro.rs:389-410 | the in-place pin pass zeroes land cells, clamps depth and stops dry cells |
| HydroState.State.Relax | crates/flight-core/src/hydro.rs:114-117 | source, then pin |
| HydroState.State.CountSubsteps | crates/flight-core/src/hydro.rs:243-259 | the two running maxima over the grid give the sub-step count of the whole field |
| HydroState.State.Substep | crates/flight-core/src/hydro.rs:106-110 | north sweep, east sweep, relax, in this order |
| HydroState.State.Step | crates/flight-core/src/hydro.rs:91-111 | the whole step on arrays equals the step on values; with a dt out of range or short buffers it changes nothing; it panics exactly when it gets past its guards with a scratch buffer longer than three grids |
| HydroState.State.Volume | crates/flight-core/src/hydro.rs:133-141 | the accumulated volume is the column sum times the cell area |
| HydroConservation.ReflectingWallHasNoMassFlux | crates/flight-core/src/hydro.rs:314-334 | no mass crosses a reflecting wall from either side, nor a face with no water |
| HydroConservation.ClosedFace | crates/flight-core/src/hydro.rs:299-334 | no mass crosses a face with land or the outside on one of its sides |
| HydroConservation.FluxesCancel | crates/flight-core/src/hydro.rs:261-334 | over any grid and land mask the cells' net outflows along either axis sum to zero |
| HydroConservation.DryCellIsIsolated | crates/flight-core/src/hydro.rs:314-334 | nothing flows into or out of a land cell |
| HydroConservation.SweepMovesWater | crates/flight-core/src/hydro.rs:261-374 | before clamping a sweep only moves water: the column sum is unchanged |
| HydroConservation.SweepIsLegal | crates/flight-core/src/hydro.rs:336-374 | after a sweep no depth is negative and land is dry and still, from any field |
| HydroConservation.SweepNeverLosesWater | crates/flight-core/src/hydro.rs:261-374 | a sweep never loses water, and keeps the amount if and only if the clamp changes no cell |
| HydroConservation.StepNeverLosesWater | crates/flight-core/src/hydro.rs:91-111 | for every grid, mask, dt and wind, from dry land a step never loses water; when it runs at all it leaves depths non-negative and land dry and still |
| HydroConservation.StepConservesIff | crates/flight-core/src/hydro.rs:91-111 | from non-negative depths over dry land, whatever the velocities, a step keeps the total exactly if and only if no clamp changes a depth in any of its sweeps |
| HydroConservation.StepStopsThinWater | crates/flight-core/src/hydro.rs:389-410 | after any step that runs, whatever the wind, water thinner than a tenth of a millimetre stands still |
| HydroCfl.CeilBounds | crates/flight-core/src/math.rs:18-28 | rounding up is right for every value, of either sign, as far as the i32 range reaches, and gives 0 beyond |
| HydroCfl.SubstepCountIs | crates/flight-core/src/hydro.rs:243-259 | the count is the Courant ratio rounded up to 16, is 16 above that, and falls back to 1 beyond the integer range |
| HydroCfl.SignalIsAttained | crates/flight-core/src/hydro.rs:243-259 | the depth and the speed behind the count are those of some cell, or zero, and no cell exceeds either: gravity wave of the depth, both velocity components added, and a millimetre per second |
| HydroCfl.SingleSubstepIff | crates/flight-core/src/hydro.rs:243-259 | one sub-step means a ratio of at most one, or one out of range |
| HydroCfl.CellBudget | crates/flight-core/src/hydro.rs:186-208 | if each face's share of dt/dx times signal speed is at most q <= 1, a cell's new depth lies in [0, (1+q)·deepest] |
| HydroCfl.CellFits | crates/flight-core/src/hydro.rs:314-374 | the same for every cell of a real grid, at walls, coasts and in open water |
| HydroCfl.SweepFits | crates/flight-core/src/hydro.rs:261-297 | so a sweep within the bound never needs its clamp, and depth grows by at most 1 + q |
| HydroCfl.CourantSubstepFits | crates/flight-core/src/hydro.rs:106-110 | when dt·c <= 0.45·dx holds at the start, the north sweep and then the east sweep (on depths up to 1.45 times larger) both need no clamp |
| HydroCfl.BoundedSubstepsFit | crates/flight-core/src/hydro.rs:106-110 | the same over any number of sub-steps that each meet the bound |
| HydroCfl.FirstSubstepFits | crates/flight-core/src/hydro.rs:243-259 | while the ratio is at most 16, on cells of at least a millimetre, the sub-step count keeps the first sub-step from clamping, whatever the field |
| HydroCfl.CflStepConserves | crates/flight-core/src/hydro.rs:91-111 | with one uncapped sub-step, from non-negative depths over dry land and whatever the mask, velocities and wind, a step keeps the total exactly and leaves a legal field, no clamp firing |
| HydroCfl.CflStepPassesInvariants | crates/flight-core/src/hydro.rs:143-183 | such a step keeps the repository's own invariant checker satisfied, against any reference volume and on buffers of any length, and leaves the volume itself unchanged |
| HydroCfl.FilledGridPasses | crates/flight-core/src/hydro.rs:143-183 | a field of non-negative depths over dry land that just fills its grid satisfies that checker to begin with |
| HydroRest.LakeIsFixedPoint | crates/flight-core/src/hydro.rs:91-117 | a lake of uniform depth on any mask, calm and without wind, is left exactly as it is, for every dt |
| HydroRest.OverdrawnStepGainsWater | crates/flight-core/src/hydro.rs:336-374 | any step in which the north sweep of any of its sub-steps asks some cell for more than it holds gains water |
| HydroRest.CappedStepGainsWater | crates/flight-core/src/hydro.rs:243-259 | a legal two-cell field with a capped count does so |
| HydroRest.OverflownStepGainsWater | crates/flight-core/src/hydro.rs:243-259 | so does one fast enough to take the count out of the integer range, where it is 1 again |
| HydroRest.FineGridGainsWater | crates/flight-core/src/hydro.rs:243-259 | so does one on cells of a hundredth of a millimetre, with one sub-step and a ratio below one |
| HydroRest.WindOutrunsTheCount | crates/flight-core/src/hydro.rs:91-117 | so does a legal field with a ratio of exactly two, uncapped, on cells of a millimetre: the wind of the first sub-step outruns the count before the second |
| HydroWaves.RaiseCell | crates/flight-core/src/hydro.rs:476-487 | one cell is set to still depth plus wave if wet and to zero if not, and joins count and sum accordingly |
| HydroWaves.LowerAll | crates/flight-core/src/hydro.rs:489-494 | the second pass takes the mean from every wet cell and cuts at the bottom |
| HydroWaves.ApplyWaveMode | crates/flight-core/src/hydro.rs:460-495 | both passes together, in place; too short buffers are left alone |
| HydroWaves.PerturbationIsZeroMean | crates/flight-core/src/hydro.rs:473-489 | the mean that is removed accounts for the whole perturbation of the wet cells |
| HydroWaves.WaveHoldsStillWater | crates/flight-core/src/hydro.rs:459-495 | before the cut the wave holds exactly the still water's volume |
| HydroWaves.VolumeUnchangedIff | crates/flight-core/src/hydro.rs:459-495 | after the cut there is at least the still volume, and exactly it if and only if no trough lies below the bottom |
| HydroWaves.WaveIsFixedInTheWorld | crates/flight-core/src/hydro.rs:476-484 | the wave stands in the world and not on the grid: a grid that starts some cells further north sees the same wave that many rows earlier |
| HydroWaves.DeepTroughAddsWater | crates/flight-core/src/hydro.rs:459-495 | a pond whose volume the wave raises from 2 to 2.8 or more, for any sine within a tenth of its extremes there |
| SphereContact.ResolveSphereContact | crates/flight-core/src/mech.rs:130-197 | the field-by-field resolution computes the push and then the stopping impulse, or returns the contact untouched but for its impulse |
| SphereContact.NormalIsUnit | crates/flight-core/src/mech.rs:145-158 | the normal has length one, coincident centres included |
| SphereContact.ResolveConserves | crates/flight-core/src/mech.rs:130-197 | between movable bodies momentum and centre of mass are kept exactly |
| SphereContact.MomentumKeptIff | crates/flight-core/src/mech.rs:130-197 | for all masses: momentum is kept if and only if both bodies or neither can move, or the pair is not resolved, or it is not closing along the normal |
| SphereContact.ResolveSeparates | crates/flight-core/src/mech.rs:142-178 | an overlap ends exactly at touching distance; when the centres all but coincide it ends below that by at most twice their distance, and exactly there if and only if they lay in line with the push; separated spheres stay where they are |
| SphereContact.ResolveStopsApproach | crates/flight-core/src/mech.rs:180-197 | closing speed goes to exactly zero and separating speed stays; the impulse is the one that does this |
| SphereContact.ResolveLosesEnergy | crates/flight-core/src/mech.rs:180-197 | for all masses: the exact kinetic energy taken out - between movable bodies that of the approach, never negative; with an immovable one what the other loses or gains in taking over its speed |
| SphereContact.EnergyNotRaisedIff | crates/flight-core/src/mech.rs:180-197 | for all masses: kinetic energy does not rise if and only if both bodies or neither can move, nothing is resolved or closing, or the immovable body is not the faster along the normal |
| SphereContact.LightBlowCreatesMotion | crates/flight-core/src/mech.rs:160-197 | a massless sphere sets a resting kilogram in motion: momentum from 0 to 1 and energy from 0 to 1/2 |
| SphereContact.ResolveIsIdempotentIff | crates/flight-core/src/mech.rs:130-197 | for all pairs: resolving twice is resolving once, with no second impulse, unless overlapping centres less than 1e-8 apart were not in line with the push |
| SphereContact.InvariantsHoldIff | crates/flight-core/src/mech.rs:201-225 | the repository's checker accepts the result if and only if some body can move or the spheres do not overlap beyond its tolerance |
| SphereContact.StatuesFailTheCheck | crates/flight-core/src/mech.rs:201-225 | two massless spheres in one place fail it |
| SphereFriction.ApplySphereFriction | crates/flight-core/src/mech.rs:257-349 | the step-by-step update of both bodies and spins is one tangential impulse, or nothing |
| SphereFriction.FrictionInCone | crates/flight-core/src/mech.rs:352-360 | the impulse is non-negative, at most mu times the normal impulse, and positive exactly when friction grips |
| SphereFriction.TangentIsUnit | crates/flight-core/src/mech.rs:294-309 | the slip direction is a unit vector across the normal |
| SphereFriction.PointSpeedsUp | crates/flight-core/src/mech.rs:257-349 | impulse and torque together move the contact point along the slip by the compliance the code uses |
| SphereFriction.FrictionSlowsSlip | crates/flight-core/src/mech.rs:257-349 | slip keeps its direction and shrinks by impulse times compliance, never reversing |
| SphereFriction.StickOrSlide | crates/flight-core/src/mech.rs:310-349 | for all masses and inertias: friction that grips stops the slip if and only if slip is at most mu times the normal impulse times the compliance, and otherwise pulls with the whole of mu times that impulse |
| SphereFriction.FrictionMomentumIff | crates/flight-core/src/mech.rs:310-333 | for all masses: linear momentum is kept if and only if nothing grips, or both bodies or neither can move |
| SphereFriction.FrictionWork | crates/flight-core/src/mech.rs:310-349 | for all masses and inertias: linear plus spin energy changes by exactly the work of the two opposite impulses on what each body and each spin takes of them |
| SphereFriction.FrictionLosesEnergy | crates/flight-core/src/mech.rs:257-349 | for all masses and inertias the exact change of that energy, none without a grip; between movable bodies of proper inertia a fall of j·v - j²k/2, which is at least j·v/2 and positive |
| SphereFriction.AngularBalanceIff | crates/flight-core/src/mech.rs:257-349 | for all masses and inertias: angular momentum about the origin is kept if and only if nothing grips or the moments that the two impulses bring in balance |
| SphereFriction.AngularMomentumKeptIff | crates/flight-core/src/mech.rs:257-349 | the same for all masses and inertias, and between movable bodies of proper inertia the moments balance if and only if the spheres exactly touch |
| SphereFriction.FrictionAfterResolveIff | crates/flight-core/src/mech.rs:257-349 | so after a resolution angular momentum is kept if and only if nothing grips or the moments balance; for movable bodies of proper inertia that means the spheres touched or overlapped and - if their centres all but coincided - lay in line with the push |
| Rotation.NormOfProduct | crates/flight-core/src/mech.rs:596-603 | squared norms multiply |
| Rotation.MulAssociates | crates/flight-core/src/mech.rs:596-603 | the Hamilton product is associative |
| Rotation.RotateComposes | crates/flight-core/src/mech.rs:623-636 | rotating by a product is rotating twice |
| Rotation.RotateRoundTrip | crates/flight-core/src/mech.rs:628-640 | a unit rotation and its inverse undo each other, in both orders |
| Rotation.RotateScalesLength | crates/flight-core/src/mech.rs:628-636 | any quaternion scales squared length by its squared norm squared |
| Rotation.RotateKeepsLength | crates/flight-core/src/mech.rs:628-640 | a unit one keeps it, in both directions |
| Rotation.RotateKeepsDot | crates/flight-core/src/mech.rs:628-636 | and keeps angles |
| Rotation.WrenchIsLimited | crates/flight-core/src/mech.rs:700-709 | body axes end within the limit, length never grows, limiting twice is limiting once, and a force is untouched if and only if it was within |
| Rotation.WrenchIsNearest | crates/flight-core/src/mech.rs:700-709 | no allowed force is nearer to the requested one |
| Rotation.NudgeGrows | crates/flight-core/src/mech.rs:580-594 | the explicit quaternion step multiplies squared norm by exactly 1 + (dt/2)²·omega² |
| Rotation.IntegrateKeepsUnit | crates/flight-core/src/mech.rs:580-613 | integration returns a unit quaternion, and from one the renormalising divisor is at least 1 |
| Turning.RotateIsRodrigues | crates/flight-core/src/mech.rs:596-636 | rotating by any quaternion w + u is (w² - |u|²) v + 2w (u x v) + 2 (u.v) u |
| Turning.IntegrateTurns | crates/flight-core/src/mech.rs:580-613 | one integration step turns every direction fixed in the world, seen from the body, by exactly ((1 - |u|²) v - 2 u x v + 2 (u.v) u) / (1 + |u|²), u = omega dt/2 |
| Euler.RateObeysEuler | crates/flight-core/src/mech.rs:555-577 | Euler's equation as a vector law, I a + omega x I omega = torque; the gyroscopic term does no work and changes no length of angular momentum |
| Euler.StepTurnsMomentum | crates/flight-core/src/mech.rs:555-577 | one step moves the angular-momentum vector by exactly dt (torque - omega x I omega) |
| Euler.StepEnergy | crates/flight-core/src/mech.rs:542-577 | a step changes spin energy by the torque's work plus an exact second-order term |
| Euler.StepMomentum | crates/flight-core/src/mech.rs:555-577 | and squared angular momentum likewise |
| Euler.FreeStepGains | crates/flight-core/src/mech.rs:542-577 | without torque neither falls, and either stays if and only if the spin did not change |
| Euler.FreeRunGains | crates/flight-core/src/mech.rs:542-577 | the same over any torque-free run with any step lengths |
| Euler.FreeRunStandsStill | crates/flight-core/src/mech.rs:555-577 | a free run that ends where it began never moved |
| Attitude.ComplementaryAttitude.constructor | crates/flight-core/src/nav.rs:35-41 | starts level, with no samples, not valid |
| Attitude.ComplementaryAttitude.Invalidate | crates/flight-core/src/nav.rs:59-61 | clears validity and nothing else |
| Attitude.ComplementaryAttitude.Update | crates/flight-core/src/nav.rs:70-121 | the in-place update: unusable samples only clear validity; others correct, integrate, normalise, count and report |
| Attitude.SeenDownIsRotated | crates/flight-core/src/nav.rs:95-99 | the filter's predicted down is the world's down rotated into the body |
| Attitude.UpdateTurns | crates/flight-core/src/nav.rs:70-121 | the gyro law for every usable sample: with the rates gyro plus half of measured x seen down, or the gyro alone when the accelerometer is not trusted, any world direction seen from the body turns by exactly the same formula |
| Attitude.FallbackIsUnreachable | crates/flight-core/src/nav.rs:130-141 | from a unit quaternion the norm before normalising is exactly 1 + (dt/2)²·rate² under the root, so the identity fallback is never taken |
| Attitude.RunIsUnitAndValidIff | crates/flight-core/src/nav.rs:59-121 | after any run: unit norm, sample count equal to usable updates (saturated), valid if and only if the last operation was a usable update and at least eight have happened |
| Attitude.CorrectionAligns | crates/flight-core/src/nav.rs:85-121 | with a still gyro one update raises the cosine between predicted and measured down by an exact amount, which is zero only when they are parallel |
| Attitude.RestAligns | crates/flight-core/src/nav.rs:70-121 | over any run of one reading that cosine never falls, stays only without samples or parallel, and the norm stays one |
| Tilt.GainsExactly | crates/flight-core/src/nav.rs:70-121 | what one update leaves of 1 - cosine and of 1 + cosine, as exact shares: the measured direction attracts and its opposite repels |
| Tilt.RestContracts | crates/flight-core/src/nav.rs:70-121 | over any run of one reading 1 - cosine shrinks by a product of shares, one per sample, fixed by the starting cosine and the sample lengths |
| Tilt.RestSettles | crates/flight-core/src/nav.rs:70-121 | a settling time: from any start but dead opposite, enough samples of at least tau bring 1 - cosine under any tolerance |
| Tilt.VerticalForce | crates/flight-sim/src/world_backend/shared.rs:137-154 | a vertical thrust reads, in the body, as thrust over mass along true down |
| Tilt.ForceAlignsIff | crates/flight-core/src/nav.rs:63-121 | under specific force s along a unit direction v one update does not turn the seen vertical away from v if and only if s is positive or the two are parallel |
| Tilt.ForceRun | crates/flight-core/src/nav.rs:63-121 | over any run it closes in on v or, for a negative s, on the opposite of v, by the same shares |
| Tilt.ForceRunTurns | crates/flight-core/src/nav.rs:63-121 | so alignment with v never falls or never rises, by the sign of s, and stays only without samples or parallel |
| Tilt.HoverTurnsAway | crates/flight-sim/src/world_backend/shared.rs:137-154 | fed from the plant's accelerometer with a weight of thrust straight up, at any true attitude, the filter turns away from true down and closes in on up |
| Tilt.CollectiveReadsUp | crates/flight-core/src/mech.rs:671-674 | a thrust along the body's own up reads the same, straight up the body, at every attitude |
| Safety.EnterFailsafe | crates/flight-core/src/safety.rs:564-569 | latches, leaves offboard, keeps arming and health |
| Safety.StepSession | crates/flight-core/src/safety.rs:616-803 | connection, preflight and recovery events against the table of allowed phases, conditions and effects |
| Safety.StepHealth | crates/flight-core/src/safety.rs:658-679 | sensor and estimator events likewise, with when they latch |
| Safety.StepLink | crates/flight-core/src/safety.rs:723-793 | heartbeat and failsafe events likewise, with when they latch |
| Safety.StepArming | crates/flight-core/src/safety.rs:680-754 | arm, disarm and take-off likewise |
| Safety.StepFlight | crates/flight-core/src/safety.rs:755-776 | altitude, land and touchdown likewise |
| Safety.StepControl | crates/flight-core/src/safety.rs:707-790 | offboard, actuator and mission events likewise |
| Safety.Step | crates/flight-core/src/safety.rs:585-812 | the whole kernel step, error reasons and their order included |
| Safety.StepAll | crates/flight-core/src/safety.rs:815-820 | succeeds if and only if every event is accepted in turn; otherwise reports the first refusal |
| Safety.StepIsSound | crates/flight-core/src/safety.rs:523-555 | every event keeps the stated invariants and offboard implies armed, fresh and no failsafe |
| Safety.RunIsSound | crates/flight-core/src/safety.rs:523-555 | so does every run |
| SafetyRuns.RunIsPossible | crates/flight-core/src/safety.rs:523-555 | every state of every session keeps the invariants, and is armed only in flight, armed or failsafe |
| SafetyRuns.RefusedBecause | crates/flight-core/src/safety.rs:585-812 | in any session, each of the seven refusals if and only if its own condition on phase and flags; a mission command passes exactly when armed, driven and out of failsafe; four of the code's checks never fire |
| SafetyRuns.FlagsAreHistory | crates/flight-core/src/safety.rs:616-803 | armed, driven, offboard and the three health flags are each decided by the last accepted event that sets or clears them |
| SafetyRuns.FailsafeIsHistory | crates/flight-core/src/safety.rs:564-569 | the latch stands if and only if the last event that could move it was a failsafe, a fault while armed or a lost link while offboard |
| SafetyRuns.PhaseIsTold | crates/flight-core/src/safety.rs:616-803 | the phase tells what happened last: airborne means armed, took off, reached altitude with no other move in between, and likewise for each phase |
| SafetyRuns.ArmedIsCheckedIff | crates/flight-core/src/safety.rs:331-346 | an armed or ready vehicle has passed its check in this session if and only if no disarm and no touchdown was accepted before the check |
| SafetyRuns.DisarmSkipsCheck | crates/flight-core/src/safety.rs:693-706 | a session that arms unchecked by way of a disarm, every event accepted |
| SafetyRuns.TouchdownSkipsCheck | crates/flight-core/src/safety.rs:769-778 | and one by way of a touchdown, without ever connecting |
| Authority.Body.constructor | crates/robot-world/src/body.rs:77-135 | a new body is at epoch zero with no command |
| Authority.Body.BumpAuthority | crates/robot-world/src/body.rs:283-285 | the epoch moves by one and saturates |
| Authority.Body.Post | crates/flight-sim/src/world_backend/shared.rs:74-93 | an accepted revoking event moves the epoch; failsafe, touchdown and recovery clear the command; a refused event changes nothing |
| Authority.EpochMovesIff | crates/flight-core/src/safety.rs:435-437 | over any run time and epoch never go back, and an unsaturated epoch moves if and only if the run revokes |
| Authority.PermitSurvivesIff | crates/flight-core/src/contracts/permit.rs:96-169 | after any run a permit is granted if and only if nothing revoked (or the epoch was saturated) and its lease is live |
| Authority.OtherVehicleNeverGranted | crates/flight-core/src/contracts/permit.rs:149-168 | a permit for one vehicle is refused at another at every point of every run |
| Authority.DeadPermitStaysDead | crates/flight-core/src/contracts/permit.rs:149-168 | a refused permit is refused for the rest of every run |
| Authority.OffboardLasts | crates/flight-core/src/safety.rs:317-320 | offboard is lost only by a revoking event or a touchdown |
| Authority.GrantedMeansControl | crates/flight-core/src/vehicle/authority.rs:7-36 | a permit issued offboard that still passes implies armed, offboard, fresh and no failsafe, unless a touchdown intervened |
| Authority.PermitOutlivesTouchdown | crates/flight-core/src/safety.rs:435-437 | and a touchdown does break it: the permit passes on a disarmed vehicle |
| Authority.LastEpochCannotRevoke | crates/flight-core/src/contracts/permit.rs:51-53 | at the last epoch a failsafe leaves old permits granted |
| Px4.Backend.constructor | crates/flight-px4/src/lib.rs:88-106 | starts unlinked, disarmed, unlatched, at epoch zero |
| Px4.Backend.RevokeAuthority | crates/flight-px4/src/lib.rs:554-556 | one saturating bump |
| Px4.Backend.ApplyVehicleHeartbeat | crates/flight-px4/src/lib.rs:251-272 | failsafe latches, an unexpected disarm revokes, either leaves offboard, and the epoch moves at most once and never while latched |
| Px4.Backend.IngestHeartbeat | crates/flight-px4/src/lib.rs:243-247 | stamps the heartbeat, then applies it |
| Px4.Backend.IngestInbox | crates/flight-px4/src/lib.rs:119-144 | drains at most 64 messages, in order, and none without a link |
| Px4.Backend.MaybeRevokeStaleEstimator | crates/flight-px4/src/lib.rs:201-213 | an estimate of 250 ms or more latches and bumps, once |
| Px4.Backend.RefuseRevokedSetpoint | crates/flight-px4/src/lib.rs:535-540 | refuses exactly while latched or revoked |
| Px4.Backend.Stream | crates/flight-px4/src/lib.rs:423-427 | the pump loop stops at the first send that fails and drains after each that works |
| Px4.Backend.WaitInbox | crates/flight-px4/src/lib.rs:150-163 | drains until a vehicle heartbeat was seen or time runs out |
| Px4.Backend.Connect | crates/flight-px4/src/lib.rs:343-366 | binding, waiting and its timeout; flags that survive a reconnect |
| Px4.Backend.Arm | crates/flight-px4/src/lib.rs:388-403 | streams first, then arms and lifts revocation but not the latch |
| Px4.Backend.Disarm | crates/flight-px4/src/lib.rs:405-416 | disarms, leaves offboard, revokes and bumps, if the send worked |
| Px4.Backend.EnterOffboard | crates/flight-px4/src/lib.rs:418-435 | refused while blocked, else streams and enters |
| Px4.Backend.SetVelocity | crates/flight-px4/src/lib.rs:437-444 | ages the estimate, then refuses or stages the velocity |
| Px4.Backend.SetPosition | crates/flight-px4/src/lib.rs:446-453 | likewise for a position |
| Px4.Backend.TriggerFailsafe | crates/flight-px4/src/lib.rs:513-523 | latches and bumps even when the send fails |
| Px4.Backend.InjectRevoke | crates/flight-px4/src/lib.rs:281-335 | the body for each revoking event, then the fallback bump and the check that the epoch moved |
| Px4.Backend.Strike | crates/flight-px4/src/lib.rs:286-327 | each event's own way of taking authority |
| Px4.OpKeeps | crates/flight-px4/src/lib.rs:535-556 | every operation keeps the epoch from falling, the latch up to a disconnect, the revocation bit up to a restore or a completed arm, and refuses gated calls while blocked |
| Px4.EpochNeverFalls | crates/flight-px4/src/lib.rs:554-556 | over any run |
| Px4.LatchBlocks | crates/flight-px4/src/lib.rs:251-272 | a latch lasts over any run without a disconnect; after one the backend stays blocked until a restore or an arm |
| Px4.LatchedRefuses | crates/flight-px4/src/lib.rs:577-599 | so every setpoint, offboard, climb and actuator call is refused from a latch on |
| Px4.InjectBumpsOnce | crates/flight-px4/src/lib.rs:281-335 | a revoking injection moves an unsaturated epoch by exactly one, whatever its body did; other events change nothing |
| Px4.InjectBlocksIff | crates/flight-px4/src/lib.rs:281-335 | it leaves the backend blocked unless it is an IMU fault on an unarmed, unblocked one |
| Px4.BeatsBumpAtMostTwice | crates/flight-px4/src/lib.rs:243-272 | the exact epoch, saturation included, after a heartbeat stream of any length: one for a disarm before any failsafe, one for the first failsafe, none once latched |
| Px4.OffboardIsBlockedIff | crates/flight-px4/src/lib.rs:418-435 | a completed entry into offboard is blocked if and only if a failsafe or an unexpected disarm was among the messages its stream drained |
| Px4.OffboardCanOutlastLatch | crates/flight-px4/src/lib.rs:418-435 | and one failsafe heartbeat during the stream suffices |
| Px4Heard.Hearing | crates/flight-px4/src/lib.rs:119-144 | flags, epoch and setpoint fields after any messages in any order, in closed form |
| Px4Heard.HearingDates | crates/flight-px4/src/lib.rs:119-144 | the report and heartbeat stamps after them |
| Px4Flags.OpHolds | crates/flight-px4/src/lib.rs:243-599 | after any operation, exactly: armed, offboard, latch, revocation and link, each from the operation, whether it completed and what it heard, and how far the epoch moved |
| Px4Flags.ConnectsIff | crates/flight-px4/src/lib.rs:343-366 | a connect completes if and only if its socket is bound and a heartbeat is among the messages it hears |
| Px4Flags.UnmovedEpochIsIntact | crates/flight-px4/src/lib.rs:554-556 | over any run from an unblocked backend: an epoch that is still the same below its maximum means that nothing was latched or revoked and that arming, offboard and link are not lost |
| Px4Setpoints.OpWrites | crates/flight-px4/src/lib.rs:119-144 | what any operation leaves to be streamed: its own staged setpoint in its own mode, else the last position report it heard, else what was there |
| Px4Setpoints.SetpointPassesIff | crates/flight-px4/src/lib.rs:437-453 | a setpoint call passes if and only if nothing blocks before it, none of the at most 64 messages it drains takes authority, and the estimate came with them or is less than 250 ms old or there never was one |
| Px4Setpoints.VelocityOutlastsIff | crates/flight-px4/src/lib.rs:215-241 | over any run without another setpoint a staged velocity is still what goes out if and only if no position report was heard, or the last one carried it |
| Px4Setpoints.PositionOutlastsIff | crates/flight-px4/src/lib.rs:215-241 | likewise for a position |
| Px4Setpoints.ReportReplacesSetpoint | crates/flight-px4/src/lib.rs:119-144 | one report after a climb setpoint replaces it |
| Timing.TripleQuotient | crates/flight-core/src/temporal.rs:358-373 | three floored divisions are one |
| Timing.RateIsStable | crates/flight-core/src/temporal.rs:358-373 | rate to period and back is the identity on rates that come from a period, for every period |
| Timing.FrameMissedIff | crates/flight-hitl/src/rack.rs:435-452 | the three checks together count a miss if and only if the budget was overrun or no whole rate has the period |
| Timing.RatePeriodIff | crates/flight-core/src/temporal.rs:358-373 | a period is that of a whole rate if and only if the rate read off it is not zero and has it back |
| Timing.OddPeriodAlwaysMisses | crates/flight-hitl/src/rack.rs:435-452 | with a period of 0.3 s every frame is missed, whatever its budget and however fast |
| Timing.WithinDeadlineIff | crates/flight-core/src/temporal.rs:334-341 | a command is within its deadline up to 99 ms of age |
| Timing.DeadlineDisagreesIff | crates/flight-core/src/temporal.rs:320-341 | deadline and age bound differ exactly for ages strictly between 99 and 100 ms |
| Ground.Step | crates/flight-core/src/ground.rs:201-243 | accepted exactly when the table says, keeps the rover's invariants, and an emergency stop refuses drive commands with its own error |
| Ground.AcceptsIff | crates/flight-core/src/ground.rs:201-243 | in any session each event is accepted by drive grant and emergency stop alone |
| Ground.HistoryDecides | crates/flight-core/src/ground.rs:201-243 | the rover may drive if and only if the last word was a release, and is stopped if and only if of all stops and clearances the last was a stop |
| Marine.Step | crates/flight-core/src/marine.rs:215-280 | accepted exactly when the table says, keeps the hull's invariants, and failsafe hears only recovery, failsafe and docking |
| Marine.AcceptsIff | crates/flight-core/src/marine.rs:215-280 | in any session what each event needs of phase, thrust and failsafe |
| Marine.HistoryDecides | crates/flight-core/src/marine.rs:215-280 | the hull may thrust if and only if the last word was an undocking, station or resumption, and is in failsafe if and only if of all failures, recoveries and dockings the last was a failure |
| Rack.WorldRack.constructor | crates/flight-hitl/src/rack.rs:137-169 | a catalogue rack starts granted, at 50 Hz, with no misses: the drone in take-off with actuators live and a zero hover staged, rover driving, hulls underway |
| Rack.WorldRack.WriteGrantedSetpoints | crates/flight-hitl/src/rack.rs:404-433 | each granted body in order up to the first error, a standing hold kept from idle frames |
| Rack.WorldRack.Flush | crates/flight-hitl/src/rack.rs:382-391 | every handle posts what it holds staged |
| Rack.WorldRack.TripDeadlineFailsafe | crates/flight-hitl/src/rack.rs:474-514 | trips every body, first miss or later |
| Rack.WorldRack.Finish | crates/flight-hitl/src/rack.rs:435-470 | counts, latches and trips on a miss, clears the latch otherwise |
| Rack.WorldRack.StepPlant | crates/robot-world/src/world.rs:285-374 | a plant step drops the command of every body whose machine does not grant actuation, whose battery is empty, or that is out of its element: rotors wet, rover off the ground, hull out of the water |
| Rack.WorldRack.FrameTimed | crates/flight-hitl/src/rack.rs:355-399 | a whole frame: zeroed and skipped writes after a miss, flush, plant step, scoring |
| Rack.WorldRack.RecoverDeadline | crates/flight-hitl/src/rack.rs:261-268 | recovers body by body and clears the latch only if all of it worked |
| Rack.WorldRack.GrantAll | crates/flight-hitl/src/rack.rs:271-277 | take-off, drive, undock, in order up to the first error |
| Rack.WorldRack.ReturnAll | crates/flight-hitl/src/rack.rs:281-288 | land, touch down, park, dock, likewise |
| Rack.MissedFrameDowns | crates/flight-hitl/src/rack.rs:444-450 | after a missed frame every machine is tripped and no body or handle holds a command |
| Rack.FrameSkipsCut | crates/flight-hitl/src/rack.rs:365-433 | on a rack with no grant a frame writes nothing, whatever its commands: only the scoring is left |
| Rack.OnTimeFrameOnlyClearsLatch | crates/flight-hitl/src/rack.rs:450-453 | an on-time frame clears the miss latch and grants nothing |
| Rack.RoutineIsRefused | crates/flight-hitl/src/rack.rs:281-344 | return, climb, station, resume, dock, park and hold are protocol errors there, with no effect |
| Rack.PlaceLasts | crates/flight-hitl/src/rack.rs:261-433 | body by body: cut until a grant in which its own walk goes through, down until a recovery in which its own walk does, and out of a grant's reach while down, whatever the other bodies do |
| Rack.CutLasts | crates/flight-hitl/src/rack.rs:261-433 | no operation but a grant gives any body of a cut rack a command again |
| Rack.DownLasts | crates/flight-hitl/src/rack.rs:261-514 | tripped machines stay tripped through everything but recovery, a grant included |
| Rack.CutUntilRegranted | crates/flight-hitl/src/rack.rs:257-288 | over any run and for each body: down until its own recovery, not granted before that, and cut until its own grant; refused calls change nothing |
| Rack.NoSetpointUntilRegranted | crates/flight-hitl/src/rack.rs:365-433 | from a missed frame on, over any run and for each body by itself, no frame delivers anything to it before a grant in which its own take-off, drive or undock goes through |
| Rack.FrameDeliversIff | crates/robot-world/src/world.rs:285-374 | what a scored frame leaves each body to follow: what was flushed, if the frame was on time, its machine grants actuation, it has charge and is in its element, else nothing |
| Rack.ScoredFrameNeedsGrant | crates/robot-world/src/body.rs:331-351 | so after any scored frame a failsafed, e-stopped or ungranted body holds no command |
| Rack.TrippedBodiesHoldNothing | crates/robot-world/src/body.rs:301-307 | over any run in which the plant steps verify, no tripped body is left with a command after any operation |
| Rack.TakeOffFromReady | crates/flight-sim/src/world_backend/session.rs:109-123 | the six-event walk from ready with good sensors ends in one state exactly, in take-off with everything on and a zero hover staged, and else refuses at its first event with nothing changed |
| RackCalls.DroneLands | crates/flight-sim/src/world_backend/session.rs:245-253 | landing in closed form, for any drone: reply and new state from phase, failsafe and heartbeat |
| RackCalls.DroneTouchesDown | crates/flight-sim/src/world_backend/session.rs:255-263 | likewise touching down, from landing or failsafe |
| RackCalls.DroneRecovers | crates/flight-sim/src/world_backend/session.rs:354-372 | likewise recovery, from failsafe or recovery |
| RackCalls.RoverCalls | crates/flight-hitl/src/rack.rs:615-643 | likewise drive, park and reset of the rover |
| RackCalls.HullCalls | crates/flight-hitl/src/rack.rs:542-595 | likewise all five calls of a hull |
| RackCalls.GrantIff | crates/flight-hitl/src/rack.rs:271-277 | a grant goes through if and only if the drone is ready with good sensors, the rover parked and the hulls docked; then all are out |
| RackCalls.ReturnIff | crates/flight-hitl/src/rack.rs:281-288 | a return if and only if the drone is in the air with a fresh heartbeat, the rover moving and the hulls sailing; then all are at rest without a command |
| RackCalls.RecoverIff | crates/flight-hitl/src/rack.rs:261-268 | a recovery if and only if every body is tripped; then all are at rest; the miss latch is released exactly then |
| RackCalls.ReturnUndoesGrant | crates/flight-hitl/src/rack.rs:271-288 | any rack that can be granted can then be returned, and afterwards stands as before and can be granted again |
| RackCalls.ClimbAndHoldIff | crates/flight-hitl/src/rack.rs:291-345 | when climbing and holding go through, and the whole rack after them; a hold is followed at once |
| RackCalls.StationIff | crates/flight-hitl/src/rack.rs:298-318 | when keeping station and resuming do; they move the hulls' machines alone |
| RackCalls.DockAndParkIff | crates/flight-hitl/src/rack.rs:320-339 | when docking and parking do, and the whole rack after them |
| RackCalls.ResumeUndoesStation | crates/flight-hitl/src/rack.rs:298-318 | station and resume put any rack whose hulls are under way back exactly as it was |
| RackCalls.InjectIff | crates/flight-hitl/src/rack.rs:740-742 | which revocations can be injected, and when |
| RackCommands.FrameCommands | crates/flight-hitl/src/rack.rs:404-433 | after a scored frame on time each body follows its own command of the frame - drone aerial, rover ground, skiff marine, surveyor underwater - if it is under control and may act where it is; the drone keeps a standing hold instead when the frame is at most 1e-6 on every axis |
| RackCommands.HoldStands | crates/flight-hitl/src/rack.rs:404-433 | a hold that was taken is followed over any run of on-time frames that are idle for the drone, whatever they command the others |
| RackRuns.RunIsPossible | crates/flight-hitl/src/rack.rs:261-433 | over any run of operations all four machines keep their invariants, so the laws above hold at every point |
| RackRuns.CountsAreTrue | crates/flight-hitl/src/rack.rs:435-470 | over any run, spec changes and rejected frames included, the counters are the number of scored frames and of those that overran or had no whole rate, saturated |
| Rack.GrantReachesInOrder | crates/flight-hitl/src/rack.rs:271-277 | from any state a grant changes ground and water only past a drone that climbed, and only parked or docked bodies |
| Rack.RecoverThenGrant | crates/flight-hitl/src/rack.rs:257-277 | after any trip, recovery and grant succeed and put every body back in command, given good sensors |
| Rack.FrameCountsIff | crates/flight-hitl/src/rack.rs:171-177 | in any run, spec changes included, a scored frame is a miss if and only if it overran its budget or the period is that of no whole rate |
| Rack.InjectedFailsafeKeepsSetpointIff | crates/flight-hitl/src/rack.rs:740-742 | after an injected failsafe the next frame leaves the drone its staged setpoint if and only if there was one and the plant step is rejected |
| Rack.FreshRackKeepsSetpoint | crates/flight-hitl/src/rack.rs:740-742 | such a rack: fresh from its grants, failed by injection and stepped into a rejection, the tripped drone is left following its hover |
| Bytes.LeRoundTrip | crates/flight-ros2/src/px4.rs:203-211 | little-endian bytes give their number back |
| Bytes.FromLeRoundTrip | crates/flight-ros2/src/px4.rs:255-269 | and a number its bytes |
| Cdr.CdrWriter.constructor | crates/flight-ros2/src/px4.rs:190-194 | an empty payload |
| Cdr.CdrWriter.Align | crates/flight-ros2/src/px4.rs:196-201 | pads with zeros up to the next multiple |
| Cdr.CdrWriter.PutU64 | crates/flight-ros2/src/px4.rs:203-206 | appends one aligned field |
| Cdr.CdrWriter.PutF32 | crates/flight-ros2/src/px4.rs:208-211 | likewise, by bit pattern |
| Cdr.CdrWriter.PutF32s | crates/flight-ros2/src/px4.rs:213-217 | three of them, in order |
| Cdr.CdrWriter.PutBool | crates/flight-ros2/src/px4.rs:219-221 | one unaligned byte |
| Cdr.CdrWriter.Finish | crates/flight-ros2/src/px4.rs:223-228 | the encapsulation header and the payload |
| Cdr.CdrReader.Open | crates/flight-ros2/src/px4.rs:236-245 | none exactly when the header is missing or wrong, else a reader that starts behind it |
| Cdr.CdrReader.Align | crates/flight-ros2/src/px4.rs:247-253 | skips the same padding |
| Cdr.CdrReader.GetU64 | crates/flight-ros2/src/px4.rs:255-261 | reads the next field in bounds, or reports that the message cannot be read |
| Cdr.CdrReader.GetF32 | crates/flight-ros2/src/px4.rs:263-269 | likewise |
| Cdr.CdrReader.GetF32s | crates/flight-ros2/src/px4.rs:271-273 | likewise for three |
| Cdr.CdrReader.GetBool | crates/flight-ros2/src/px4.rs:275-279 | likewise for one byte |
| Cdr.ModeToCdr | crates/flight-ros2/src/px4.rs:59-70 | the message of the mode's eight fields |
| Cdr.ModeFromCdr | crates/flight-ros2/src/px4.rs:72-84 | none if the fields cannot be read, else the mode with exactly those fields |
| Cdr.SetpointToCdr | crates/flight-ros2/src/px4.rs:148-158 | the message of the setpoint's fifteen fields |
| CdrLayout.ModeLayout | crates/flight-ros2/src/px4.rs:59-70 | a written mode byte by byte: header, timestamp, then one byte for each of the seven flags by name and order |
| CdrLayout.SetpointLayout | crates/flight-ros2/src/px4.rs:148-158 | a written setpoint byte by byte: header, timestamp, position, velocity, acceleration, jerk by axis, yaw, yaw rate |
| Cdr.SetpointFromCdr | crates/flight-ros2/src/px4.rs:160-171 | none, or the setpoint with exactly the fields read |
| Cdr.ReadsBack | crates/flight-ros2/src/px4.rs:185-280 | reading from the end of the k-th field returns the remaining fields and ends at the writer's length, padding included, for every field list |
| Cdr.RoundTrip | crates/flight-ros2/src/px4.rs:185-280 | every list of u64, f32 and bool fields reads back, whatever follows it |
| Cdr.MessageRoundTrip | crates/flight-ros2/src/px4.rs:185-280 | the same with the header |
| Cdr.ModeRoundTrip | crates/flight-ros2/src/px4.rs:59-84 | a written mode reads back as itself |
| Cdr.SetpointRoundTrip | crates/flight-ros2/src/px4.rs:148-171 | a written setpoint reads back as itself, bit for bit |
| Cdr.FieldsDetermineMessages | crates/flight-ros2/src/px4.rs:59-171 | different messages have different fields, so the two above recover the message |
| Cdr.ReadsIffLongEnough | crates/flight-ros2/src/px4.rs:231-280 | a payload is readable at given kinds if and only if it reaches the end of the last field |
| Cdr.MessagesAreLongEnough | crates/flight-ros2/src/px4.rs:59-171 | a mode is readable from 19 bytes with the right header and a setpoint from 68, and from no fewer |
| Cdr.ReencodesIff | crates/flight-ros2/src/px4.rs:185-280 | for any list of kinds: writing what was read restores the bytes if and only if nothing trails, the padding is zero and every bool byte is 0 or 1 |
| Cdr.ModeReencodesIff | crates/flight-ros2/src/px4.rs:59-84 | for a mode: if and only if there are 19 bytes and the last seven are 0 or 1 |
| Cdr.SetpointReencodesIff | crates/flight-ros2/src/px4.rs:148-171 | for a setpoint: if and only if there are 68 bytes |
| Cdr.LargeFlagIsNotKept | crates/flight-ros2/src/px4.rs:275-279 | a mode with a flag byte of 2 is not restored |
| Ulog.EncodeSample | crates/flight-sim/src/ulog.rs:39-55 | the data message pushed field by field is the sample's layout |
| Ulog.WriteMsg | crates/flight-sim/src/ulog.rs:60-65 | size, type, payload |
| Ulog.WriteUlog | crates/flight-sim/src/ulog.rs:23-58 | header, format, subscription and one message per sample |
| Ulog.ParseUlog | crates/flight-sim/src/ulog.rs:68-133 | the index loop, all reads in bounds and terminating, is the recursive scan with its errors |
| Ulog.StampStatusEpochs | crates/flight-sim/src/ulog.rs:235-246 | the in-place accumulator gives each sample the number of failsafe entries so far |
| Ulog.StampedEpochs | crates/flight-sim/src/ulog.rs:235-246 | so for lists of any length epochs never fall, and rise by one exactly on entry into failsafe below the maximum; nothing else changes |
| Ulog.EstimatorKeptIff | crates/flight-sim/src/ulog.rs:39-55 | an estimator stamp survives the log if and only if it does not saturate in microseconds |
| Ulog.TimeKeptIff | crates/flight-sim/src/ulog.rs:39-55 | a time survives if and only if it is a whole number of microseconds in range |
| Ulog.DataRoundTrip | crates/flight-sim/src/ulog.rs:135-174 | a data message reads back as the sample, quantised |
| Ulog.ScanStream | crates/flight-sim/src/ulog.rs:68-133 | scanning a stream of messages handles each exactly once, in order |
| Ulog.ScanCut | crates/flight-sim/src/ulog.rs:68-133 | a cut message is an error if its length and type are there and is ignored if not |
| Ulog.RoundTrip | crates/flight-sim/src/ulog.rs:23-133 | any non-empty list, under any ASCII format text that fits a message, reads back in order and quantised; an empty one is refused |
| Ulog.TraceRoundTrip | crates/flight-sim/src/ulog.rs:23-133 | the same under the text the code writes |
| Ulog.CutFile | crates/flight-sim/src/ulog.rs:68-133 | every prefix of at least 16 bytes parses to an error or to exactly the samples whose messages are complete, and which of these is decided by the bytes left over |
| UlogLayout.DataFollowsFormat | crates/flight-sim/src/ulog.rs:18-58 | the format text a file declares is true of its data: it is the columns' types and names in this order, and a reader that goes by the declared types alone finds each named column of any sample where it is |
| UlogMixed.MixedFile | crates/flight-sim/src/ulog.rs:68-133 | any file of both topics, with padded topic names, unknown messages, unsubscribed ids and second subscriptions anywhere: it reads as its traces in order if there are any, else as its status records with recounted epochs, and is refused without either |
| UlogMixed.FirstFaultDecides | crates/flight-sim/src/ulog.rs:68-133 | any file of whole messages is refused for the first malformed one, with its own error, and otherwise for nothing but having no samples |
| Sensors.SequenceTracker.constructor | crates/flight-core/src/sensors.rs:177-183 | nothing seen, nothing dropped |
| Sensors.SequenceTracker.Observe | crates/flight-core/src/sensors.rs:185-196 | adds the wrapped gap, saturating, and remembers the number |
| Sensors.DropsAreSpanLessArrivals | crates/flight-core/src/sensors.rs:177-200 | over any advancing sequence taken modulo 2^32, across any number of wraps, drops are the span less the arrivals, capped |
| Sensors.MissedIsWrapped | crates/flight-core/src/sensors.rs:185-196 | between any two true numbers the count is their difference modulo 2^32 less one, or nothing for a repeat |
| Sensors.MissedIsGapIff | crates/flight-core/src/sensors.rs:185-196 | it is the number of samples between them if and only if the second is later by less than a wrap |
| Sensors.LateSampleCountsAWrap | crates/flight-core/src/sensors.rs:185-196 | a late sample, from before a wraparound too, counts almost a full wrap |

## Left out

- Rounding, infinities and NaN: every number is a real, so finiteness guards hold trivially.
- `sinf`, `atan2` and yaw: the wave takes any function as its sine; no accuracy is claimed.
- Field sampling between cells and the two-cell periodic demonstration of the shallow-water file.
- Vertical contact, drag, buoyancy, thrust gates and batteries: single-expression laws.
- World stepping: the rack model takes from it that a body which may not act loses its command. Where a step
  finds each body - its charge, ground under it, water around it - and whether the step verifies are inputs.
- The GPU solver, UDP and `FCH1` traffic, MAVLink encoding, wall-clock waiting and the demo server.
- PX4 motor thrust, landing, holding, telemetry and preflight calls; each operation sees one `now` and one
  verdict for its final send, and the heartbeat timestamp since boot is not modelled.
- The typestate vehicle modules, except the event walks that the rack's attach calls make and their
  heartbeat-age refusal; body epochs and yaw rate on the rack.
- The text format of `vehicle_status` and UTF-8 validity: parameters of the ULog reader; format texts
  other than ASCII.
- Overflow of the reader position in CDR, which needs a message near the address-space limit.
- `Fresh`, `Estimate` and `Observation` wrappers, covariance checks, units, frames and transforms.
- `flight-ardupilot` (the latch protocol of PX4 again) and `flight-mhs` tables.
- HydroState.State.Step: the five buffers are distinct arrays, as the borrow checker makes them.
- HydroCfl.CflStepConserves: asks for dx >= 1e-3, below which it is false (HydroRest.FineGridGainsWater).
- FastRoot.RootIsNear: exact Newton arithmetic, not rounded.
- Safety.Step: dispatches to one method per group of events, where the code has a single match.
- UlogMixed.MixedFile: no format texts in such a file, so that status records read alike throughout.
- Tilt.HoverTurnsAway: holds the attitude and the thrust still over the run, with a still gyro.
