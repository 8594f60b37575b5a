# XB-70 Valkyrie vessel plug-in: actuator and airfoil model

This project models the control core of the XB-70 Valkyrie vessel module for
the Orbiter space-flight simulator, in both of its builds (Linux and Windows):

- the deployment timers of the landing gear, the bay door and (Linux
  build only) the nose cone: a four-valued status plus a progress value in
  [0, 1], toggled from the keyboard and advanced once per simulation step at
  `LANDING_GEAR_OPERATING_SPEED` (0.25 per second, so a full travel takes 4 s);
- the touchdown-point set the landing gear switches between while it moves;
- the particle-stream levels: the sonic-boom cloud near Mach 1 and (Linux
  build) the canard contrails above Mach 2 and 15000 m;
- the keyboard dispatch (`G` gear, `K` door, `C` nose cone on Linux);
- the table lookup inside the two airfoil callbacks, which interpolates the
  lift and moment coefficients piecewise linearly in the angle of attack or
  the sideslip angle.

The three timers share one shape, so module `Actuator` states it once
(`Advance`, `Toggled`, `Run`) over a numbering common to the three enums, and
proves what a sequence of steps does. The vessel classes (`LinuxVessel.XB70`,
`WindowsVessel.XB70`) keep the source's fields and update them in place; each
update method is proved against `Advance`. `LiftTable` holds the bracket
search as a method with a loop and a reference definition `PiecewiseLinear`
it is proved to meet. The host's getters (Mach number, altitude) and the
constant `RAD` are parameters; `SetTouchdownPoints` and `SetAnimation` are
recorded in ghost fields holding the last value written.

Three behaviours of the code are easy to misread and the model keeps them:
a timer reaches its bound on one step and changes status only on the NEXT
step (which leaves progress unchanged); the touchdown set is written on
every step the gear moves, not once when it settles; and `GEAR_DEPLOYING`
drives progress toward 0 (progress 0 is gear down).

## Model

| member | source | states |
|---|---|---|
| Actuator.Toggled | Linux/XB70Valkyrie.cpp:474-487 | a toggle always selects a moving status; it turns toward 1 exactly when the timer is at 0 or heading there |
| Actuator.Advance | Linux/XB70Valkyrie.cpp:513-556 | one step: idle statuses are untouched; a step changes status or progress, never both; a status change is a settle at the bound already reached; a consistent timer stays consistent for a non-negative step |
| Actuator.ToggleTwice | Linux/XB70Valkyrie.cpp:474-487 | toggling a moving timer twice restores its direction |
| Actuator.ToggleKeepsConsistent | Linux/XB70Valkyrie.cpp:474-487 | toggling leaves progress alone, so consistency survives it |
| Actuator.SumTicks | Linux/XB70Valkyrie.cpp:515 | the increments of a run sum to speed times the elapsed time |
| Actuator.TicksNonNegative | Linux/XB70Valkyrie.cpp:515 | non-negative step lengths give non-negative increments |
| Actuator.RunIdle | Linux/XB70Valkyrie.cpp:514 | a settled timer stays put under any number of steps |
| Actuator.RunKeepsConsistent | Linux/XB70Valkyrie.cpp:513-556 | progress stays in [0, 1] and settled statuses sit at their bound over any run of non-negative steps |
| Actuator.RunTowardOne | Linux/XB70Valkyrie.cpp:520-523 | moving toward 1, progress is min(1, p + elapsed increments), and the status settles exactly when progress had reached 1 before the last step |
| Actuator.RunTowardZero | Linux/XB70Valkyrie.cpp:516-519 | moving toward 0, progress is max(0, p - elapsed increments), and the status settles exactly when progress had reached 0 before the last step |
| Actuator.RunTowardOneMonotone | Linux/XB70Valkyrie.cpp:520-523 | progress toward 1 never goes back |
| Actuator.RunTowardZeroMonotone | Linux/XB70Valkyrie.cpp:516-519 | progress toward 0 never goes up |
| Actuator.SumPrefix | Linux/XB70Valkyrie.cpp:515 | a prefix of non-negative increments sums to at most the whole |
| Effects.SoundBarrierLevel | Linux/XB70Valkyrie.cpp:558-567 | the sonic-boom level is 1 exactly when 0.999 <= Mach <= 1.001 and 0 otherwise |
| Effects.CanardContrailLevel | Linux/XB70Valkyrie.cpp:569-580 | the contrail level is 1 exactly when Mach > 2 and altitude > 15000, and 0 otherwise |
| Effects.EffectsExclusive | Linux/XB70Valkyrie.cpp:558-580 | the two effects are never on together |
| LiftTable.IncreasingPairwise | Linux/XB70Valkyrie.cpp:26 | in an increasing table any earlier abscissa is below any later one |
| LiftTable.Bracket | Linux/XB70Valkyrie.cpp:32 | the search stops at the first index whose successor is not below x, or at the last index, having passed every abscissa (after the first) that lies below x |
| LiftTable.LerpAtLeft | Linux/XB70Valkyrie.cpp:34-35 | the interpolation returns the left table value at the left abscissa |
| LiftTable.LerpAtRight | Linux/XB70Valkyrie.cpp:34-35 | the interpolation returns the right table value at the right abscissa |
| LiftTable.LerpBetween | Linux/XB70Valkyrie.cpp:34-35 | inside a segment the interpolated value lies between the two table values |
| LiftTable.FractionInUnit | Linux/XB70Valkyrie.cpp:34 | the interpolation fraction lies in [0, 1] inside a segment |
| LiftTable.StepUp | Linux/XB70Valkyrie.cpp:35 | moving a fraction in [0, 1] of the way up from one table value to a larger one stays between them |
| LiftTable.StepDown | Linux/XB70Valkyrie.cpp:35 | moving a fraction in [0, 1] of the way down from one table value to a smaller one stays between them |
| LiftTable.LerpProductForm | Linux/XB70Valkyrie.cpp:58 | HLiftCoeff's multiply-then-divide form is the same line as VLiftCoeff's |
| LiftTable.BracketEvaluates | Linux/XB70Valkyrie.cpp:32-41 | search then interpolate meets the piecewise-linear reference for every x, extrapolating below the table and holding the last value above it |
| LiftTable.PiecewiseLinearAtBreakpoint | Linux/XB70Valkyrie.cpp:26-28 | at a table abscissa the lookup returns that row's value |
| LiftTable.PiecewiseLinearBetween | Linux/XB70Valkyrie.cpp:33-37 | inside a segment the lookup lies between that segment's two values |
| LiftTable.SegmentExists | Linux/XB70Valkyrie.cpp:32 | every x within the table's range lies in some segment |
| LiftTable.PiecewiseLinearUnique | Linux/XB70Valkyrie.cpp:32-41 | the reference definition determines the coefficient uniquely |
| LinuxHeader.EnumsFollowActuatorOrder | Linux/XB70Valkyrie.h:79-80 | gear and door enumerators have the actuator numbering, and `>= *_DEPLOYING`/`>= DOOR_CLOSING` picks exactly the moving statuses |
| LinuxHeader.TouchdownTables | Linux/XB70Valkyrie.h:42-73 | the declared counts match the tables, and the gear-down set is the three wheels followed by the gear-up set |
| LinuxHeader.FullTravelTakesFourSeconds | Linux/XB70Valkyrie.h:23 | from rest at 0, progress reaches 1 exactly when 4 s have elapsed |
| LinuxVessel.KeyActionOf | Linux/XB70Valkyrie.cpp:582-597 | a key-down of G, K or C selects the gear, door or nose-cone toggle respectively; nothing else does |
| LinuxVessel.XB70.constructor | Linux/XB70Valkyrie.cpp:69-83 | gear down and door closed at progress 0, and (corrected) the nose cone deployed at progress 0; the vessel starts consistent |
| LinuxVessel.XB70.AsWritten | Linux/XB70Valkyrie.cpp:69-83 | gear and door as above; the nose-cone status and progress are left unconstrained |
| LinuxVessel.XB70.ActivateLandingGear | Linux/XB70Valkyrie.cpp:493-495 | stores the requested gear status |
| LinuxVessel.XB70.ActivateDoor | Linux/XB70Valkyrie.cpp:497-499 | stores the requested door status |
| LinuxVessel.XB70.ActivateNoseCone | Linux/XB70Valkyrie.cpp:489-491 | stores the requested nose-cone status |
| LinuxVessel.XB70.SetGearDown | Linux/XB70Valkyrie.cpp:474-477 | the gear status becomes its toggle; consistency is kept |
| LinuxVessel.XB70.CloseDoor | Linux/XB70Valkyrie.cpp:479-482 | the door status becomes its toggle; consistency is kept |
| LinuxVessel.XB70.DeployNoseCone | Linux/XB70Valkyrie.cpp:484-487 | the nose-cone status becomes its toggle; consistency is kept |
| LinuxVessel.XB70.UpdateLandingGearAnimation | Linux/XB70Valkyrie.cpp:513-527 | the gear advances one step; the gear-down or gear-up touchdown set is written on every DEPLOYING or STOWING step; the animation follows progress |
| LinuxVessel.XB70.UpdateDoorAnimation | Linux/XB70Valkyrie.cpp:529-541 | the door advances one step and its animation follows |
| LinuxVessel.XB70.UpdateNoseConeAnimation | Linux/XB70Valkyrie.cpp:543-556 | the nose cone advances one step and its animation follows |
| LinuxVessel.XB70.PostStep | Linux/XB70Valkyrie.cpp:503-509 | all three timers advance by one step, both levels are recomputed, and a consistent vessel stays consistent |
| LinuxVessel.XB70.ConsumeBufferedKey | Linux/XB70Valkyrie.cpp:582-597 | a recognised key-down runs exactly its toggle and returns 1; anything else changes nothing and returns 0 |
| LinuxVessel.UninitialisedNoseCone | Linux/XB70Valkyrie.cpp:543-556 | a leftover nose-cone state moves with no key pressed, and one outside [0, 1] stays outside |
| LinuxVessel.VLiftTables | Linux/XB70Valkyrie.cpp:25-28 | the vertical-lift tables have 9 rows, increasing abscissae, and an all-zero moment column |
| LinuxVessel.HLiftTables | Linux/XB70Valkyrie.cpp:53-55 | the horizontal-lift tables have 8 rows and increasing abscissae |
| LinuxVessel.VLiftCoeff | Linux/XB70Valkyrie.cpp:23-41 | the lift coefficient is the piecewise-linear interpolation of the table in the angle of attack; the moment coefficient is 0 |
| LinuxVessel.HLiftCoeff | Linux/XB70Valkyrie.cpp:50-63 | the lift coefficient is the piecewise-linear interpolation of the table in the sideslip angle; the moment coefficient is 0 |
| WindowsHeader.EnumsFollowActuatorOrder | Windows/XB70Valkyrie.h:85-86 | gear and door enumerators have the actuator numbering, and the `>=` tests pick exactly the moving statuses |
| WindowsHeader.TouchdownTables | Windows/XB70Valkyrie.h:41-79 | the declared counts match the tables, and the gear-down set is the three wheels followed by the gear-up set |
| WindowsHeader.FullTravelTakesFourSeconds | Windows/XB70Valkyrie.h:22 | from rest at 0, progress reaches 1 exactly when 4 s have elapsed |
| WindowsVessel.KeyActionOf | Windows/XB70Valkyrie.cpp:365-376 | a key-down of G or K selects the gear or door toggle; C and every other key select nothing |
| WindowsVessel.XB70.constructor | Windows/XB70Valkyrie.cpp:68-80 | gear down and door closed at progress 0; the vessel starts consistent |
| WindowsVessel.XB70.ActivateLandingGear | Windows/XB70Valkyrie.cpp:306-308 | stores the requested gear status |
| WindowsVessel.XB70.ActivateDoor | Windows/XB70Valkyrie.cpp:310-312 | stores the requested door status |
| WindowsVessel.XB70.SetGearDown | Windows/XB70Valkyrie.cpp:296-299 | the gear status becomes its toggle; consistency is kept |
| WindowsVessel.XB70.CloseDoor | Windows/XB70Valkyrie.cpp:301-304 | the door status becomes its toggle; consistency is kept |
| WindowsVessel.XB70.UpdateLandingGearAnimation | Windows/XB70Valkyrie.cpp:324-338 | the gear advances one step; the touchdown set is written on every moving step; the animation follows progress |
| WindowsVessel.XB70.UpdateDoorAnimation | Windows/XB70Valkyrie.cpp:340-352 | the door advances one step and its animation follows |
| WindowsVessel.XB70.PostStep | Windows/XB70Valkyrie.cpp:316-320 | gear and door advance by one step, the sonic-boom level is recomputed (UpdateParticleLvl, lines 354-363), and a consistent vessel stays consistent |
| WindowsVessel.XB70.ConsumeBufferedKey | Windows/XB70Valkyrie.cpp:365-376 | a G or K key-down runs exactly its toggle and returns 1; anything else changes nothing and returns 0 |
| WindowsVessel.VLiftTables | Windows/XB70Valkyrie.cpp:26-29 | the vertical-lift tables have 9 rows and increasing abscissae |
| WindowsVessel.HLiftTables | Windows/XB70Valkyrie.cpp:52-54 | the horizontal-lift tables have 8 rows and increasing abscissae |
| WindowsVessel.VLiftCoeff | Windows/XB70Valkyrie.cpp:24-40 | the lift and moment coefficients are both the piecewise-linear interpolation of their tables in the angle of attack |
| WindowsVessel.HLiftCoeff | Windows/XB70Valkyrie.cpp:49-62 | the lift coefficient is the piecewise-linear interpolation of the table in the sideslip angle; the moment coefficient is 0 |

## Left out

- Scenario loading and saving (`clbkLoadStateEx`, `clbkSaveState`) are file I/O. The model keeps their one effect on the core by typing statuses as unchecked integers. The Linux loader does not read or write the nose cone.
- `DefineAnimations`, `clbkSetClassCaps`, the mesh and its group numbers, the particle-stream specifications, the control surfaces, and the DLL entry points (`InitModule`, `ovcInit`, `ovcExit`) are set-up calls into the host. Only the animation handles' last state is kept, as ghost fields.
- The drag coefficient (`*cd`) in VLiftCoeff and HLiftCoeff is left out. It calls the host's induced-drag and wave-drag functions and `sin`.
- All arithmetic is over the reals. IEEE double rounding is not modelled, so the lookup's fraction and the per-step increment are exact.
- `GetMachNumber`, `GetAltitude` and `RAD` are parameters. `RAD` is only required to be positive.
- The key codes are the DirectInput scan codes of `OrbiterAPI.h`, which is not part of this model.
- The Linux header declares neither the nose-cone enum nor the fields `nosecone_status`, `nosecone_proc`, `anim_nosecone` and `lvlcontrailcanards`, although the Linux source uses them. The model declares the enum as NOSEC_DEPLOYED, NOSEC_STOWED, NOSEC_DEPLOYING, NOSEC_STOWING (0 to 3), following the order the update code needs.
- The Linux touchdown tables name positions through macros from `Linux/XB70_mesh_definitions.h`. The spellings in the header differ from the names that file defines, so the model keeps each position symbolically by its macro name. The first wheel is the literal position written in the header.

## Findings

| source | as written | input that shows it | evidently intended | confidence | as-written member | corrected member |
|---|---|---|---|---|---|---|
| Linux/XB70Valkyrie.cpp:69-83 | the constructor never assigns `nosecone_status` or `nosecone_proc`, and neither does the scenario loader, so the first `UpdateNoseConeAnimation` reads uninitialised fields | a leftover status of NOSEC_STOWING with progress 0.5 starts moving on the first step with no key pressed; a leftover progress of 7.0 stays outside [0, 1] | start the nose cone at rest, deployed at progress 0, like the gear and the door | medium, not executed | LinuxVessel.XB70.AsWritten, LinuxVessel.UninitialisedNoseCone | LinuxVessel.XB70.constructor |
