# CubeSat simulator rule logic in Dafny

This project models the self-contained rule logic of a CubeSat attitude and
orbit simulator written in Java. The physics integration is delegated to Orekit
and Hipparchus and is not modelled. The logic that is modelled:

- the torque command providers: three scenario scanners, the memcached
  acquisition buffer, the provider registry and the provider enumeration;
- the rigid-body formulas: Euler's equations, the variant that divides every
  axis by I1, torque to spin, the Wilcox quaternion step and the angular
  momentum;
- the layout of the secondary-state derivative buffer and the ODEs that write
  fixed slices of it in place;
- the satellite states and the assembly of body and states;
- the cadence of the simulation loop (tick counter, ephemeris period, stop
  condition), the initialization order and the dashboard's guarded setters and
  four-clause configuration check;
- the ground station's work period and its TLE column slicing;
- the raw memcached transcoder (big-endian bytes of a binary64 bit pattern);
- the ADCS magnetorquer clamp, the identity-orientation magnetorquer, the
  low-pass filter, the B-dot estimator and the B-dot controller;
- the infrared helper vectors, the sensor data record and the thresholding pass;
- the change of interval of Gauss quadrature rules from the vendored Hipparchus
  factory.

Conventions:

- Java `double` is modelled as Dafny `real`. Rounding is not modelled.
- `exp`, `sqrt`, `acos` and pi are parameters of the members that use them.
  Where a property needs one, a ghost predicate states what it must satisfy.
- Java `int` and `long` overflow, the cast of a double to a long, `FastMath.round`
  and `floorMod` are written out in `JavaArith`.
- Static fields become explicit objects that are passed in. The dashboard's
  settings are the `Configuration` class. A shared scenario list is the
  `StepList` class, so aliasing between providers stays visible.
- A thrown exception becomes an `ok` flag, an `Option` result or a
  `CheckOutcome`.

## Model

Paths are relative to the repository root.

| member | source | states |
|---|---|---|
| JavaArith.WrapInt | simulator/src/main/java/msp/simulator/NumericalSimulator.java:410 | an int increment wraps modulo 2^32 into [-2^31, 2^31-1]; values already in range are kept |
| JavaArith.WrapLong | simulator/src/main/java/msp/simulator/user/Dashboard.java:416-419 | a long product wraps modulo 2^64 into the long range; values in range are kept |
| JavaArith.Truncate | simulator/src/main/java/msp/simulator/user/Dashboard.java:418 | the cast drops the fraction toward zero: within one unit of x, on the side of zero |
| JavaArith.DoubleToLong | simulator/src/main/java/msp/simulator/user/Dashboard.java:418 | `(long)` of a double is always a long, equals the truncation inside the long range and is non-negative for positive input |
| JavaArith.Round | simulator/src/main/java/msp/simulator/NumericalSimulator.java:357-359 | the rounded value r satisfies r <= x + 1/2 < r + 1 inside the long range and is always a long |
| JavaArith.FloorMod | simulator/src/main/java/msp/simulator/NumericalSimulator.java:400-402 | floorMod takes the sign of the divisor, lies strictly within it and is zero exactly when m divides x |
| JavaArith.EuclideanUnique | simulator/src/main/java/msp/simulator/NumericalSimulator.java:400-402 | a quotient and remainder in range are the only ones, so they equal x % m |
| JavaArith.FloorModIsFloorRemainder | simulator/src/main/java/msp/simulator/NumericalSimulator.java:400-402 | floorMod(x, m) == x - floor(x/m)·m for every nonzero m, the definition Java documents |
| JavaArith.FloorQuotientBounds | simulator/src/main/java/msp/simulator/NumericalSimulator.java:400-402 | the remainder left by the floor of the exact quotient has the divisor's sign and is smaller than it |
| TorqueScenario.FirstActive | simulator/src/main/java/msp/simulator/dynamic/torques/TorqueOverTimeScenarioProvider.java:118-128 | the index found is active and no earlier step is active; none is found iff no step is active |
| TorqueScenario.ScanScenario | simulator/src/main/java/msp/simulator/dynamic/torques/TorqueOverTimeScenarioProvider.java:116-130 | the loop with its success flag and break succeeds iff some step's window holds the offset, and yields the first such step |
| TorqueScenario.ScenarioTorque | simulator/src/main/java/msp/simulator/dynamic/torques/TorqueOverTimeScenarioProvider.java:116-133 | the torque at an offset is the first operating step's rotation vector times the intensity, and zero when no step operates; ScanScenario is proved to find that step |
| TorqueScenario.FirstMatchWins | simulator/src/main/java/msp/simulator/dynamic/torques/TorqueOverTimeScenarioProvider.java:121-127 | when steps overlap, the torque is the scaled rotation of the earliest active step |
| TorqueScenario.WindowIsHalfOpen | simulator/src/main/java/msp/simulator/dynamic/torques/TorqueOverTimeScenarioProvider.java:121-123 | a step is not active at start+duration and, with a positive duration, is active at its start |
| TorqueScenario.NoActiveStepGivesZero | simulator/src/main/java/msp/simulator/dynamic/torques/TorqueOverTimeScenarioProvider.java:131-133 | with no active step the torque is the zero vector |
| TorqueScenario.AppendingKnownStepsKeepsTorque | simulator/src/main/java/msp/simulator/dynamic/torques/AutomaticManoeuvre.java:85-88 | appending steps already in the list never changes the torque at any offset |
| TorqueScenario.Repeat | simulator/src/main/java/msp/simulator/dynamic/torques/AutomaticManoeuvre.java:62-65 | n copies of a block have n times its length |
| TorqueScenario.RepeatElements | simulator/src/main/java/msp/simulator/dynamic/torques/AutomaticManoeuvre.java:62-65 | every step of the repeated list is a step of the block |
| TorqueScenario.RepeatKeepsTorque | simulator/src/main/java/msp/simulator/dynamic/torques/AutomaticManoeuvre.java:62-65 | one or more copies of a block give the torque of a single copy at every offset |
| TorqueScenario.RepeatHasBlockElements | simulator/src/main/java/msp/simulator/dynamic/torques/AutomaticManoeuvre.java:62-65 | every step of the block occurs in one or more copies of it |
| TorqueScenario.StepList.constructor | simulator/src/main/java/msp/simulator/dynamic/torques/TorqueOverTimeScenarioProvider.java:38-39 | a new list holds the given steps |
| TorqueScenario.StepList.Add | simulator/src/main/java/msp/simulator/dynamic/torques/TorqueOverTimeScenarioProvider.java:106-108 | `add` appends exactly one step at the end, keeps the earlier ones and returns true |
| TorqueOverTime.TorqueOverTimeScenarioProvider.WithDefaultScenario | simulator/src/main/java/msp/simulator/dynamic/torques/TorqueOverTimeScenarioProvider.java:85-87 | the one-argument constructor shares the global scenario list; it does not copy it |
| TorqueOverTime.TorqueOverTimeScenarioProvider.constructor | simulator/src/main/java/msp/simulator/dynamic/torques/TorqueOverTimeScenarioProvider.java:94-97 | the provider keeps its start date and the list it is given |
| TorqueOverTime.TorqueOverTimeScenarioProvider.AddStep | simulator/src/main/java/msp/simulator/dynamic/torques/TorqueOverTimeScenarioProvider.java:106-108 | the step is appended to the (possibly shared) list and true is returned |
| TorqueOverTime.TorqueOverTimeScenarioProvider.GetTorque | simulator/src/main/java/msp/simulator/dynamic/torques/TorqueOverTimeScenarioProvider.java:112-135 | the torque is the first active step's rotation times 0.1 at offset date - startDate, or zero |
| TorqueOverTime.DefaultScenarioIsShared | simulator/src/main/java/msp/simulator/dynamic/torques/TorqueOverTimeScenarioProvider.java:38-39 | a step added through a default-scenario provider lands in the global list itself, and the provider then commands its torque |
| TorqueLaw.AutomaticTorqueLaw.WithDefaultScenario | simulator/src/main/java/msp/simulator/dynamic/torques/AutomaticTorqueLaw.java:68-70 | the default constructor shares the global scenario list |
| TorqueLaw.AutomaticTorqueLaw.constructor | simulator/src/main/java/msp/simulator/dynamic/torques/AutomaticTorqueLaw.java:77-80 | the law keeps its start date and the list it is given |
| TorqueLaw.AutomaticTorqueLaw.AddStep | simulator/src/main/java/msp/simulator/dynamic/torques/AutomaticTorqueLaw.java:89-91 | one step is appended at the end and true is returned |
| TorqueLaw.AutomaticTorqueLaw.GetTorque | simulator/src/main/java/msp/simulator/dynamic/torques/AutomaticTorqueLaw.java:95-118 | the first active step's vector times 0.1, or zero when no step matches |
| Manoeuvre.DefaultSteps | simulator/src/main/java/msp/simulator/dynamic/torques/AutomaticManoeuvre.java:62-65 | the default manoeuvre has four steps |
| Manoeuvre.AutomaticManoeuvre.WithDefaultScenario | simulator/src/main/java/msp/simulator/dynamic/torques/AutomaticManoeuvre.java:56-58 | the default constructor appends the four default steps to the global list and uses that list |
| Manoeuvre.AutomaticManoeuvre.constructor | simulator/src/main/java/msp/simulator/dynamic/torques/AutomaticManoeuvre.java:60-69 | the four default steps are appended to the global list even when another list is passed in; the instance aliases the list it is given |
| Manoeuvre.AutomaticManoeuvre.GetTorque | simulator/src/main/java/msp/simulator/dynamic/torques/AutomaticManoeuvre.java:73-96 | the first active step's vector times 1e-4, or zero |
| Manoeuvre.AppendDefaults | simulator/src/main/java/msp/simulator/dynamic/torques/AutomaticManoeuvre.java:62-65 | the four additions extend the global list by exactly the default steps |
| Manoeuvre.ConstructMany | simulator/src/main/java/msp/simulator/dynamic/torques/AutomaticManoeuvre.java:60-65 | after n constructions the global list is n copies of the default steps (4n steps) |
| Manoeuvre.DuplicatesKeepTorque | simulator/src/main/java/msp/simulator/dynamic/torques/AutomaticManoeuvre.java:85-88 | the duplicated default list gives the same torque as one copy at every offset |
| Manoeuvre.DefaultWindows | simulator/src/main/java/msp/simulator/dynamic/torques/AutomaticManoeuvre.java:62-65 | the windows are [1,21), [25,45), [50,60) and [65,75), each with its vector; the gaps and the outside give zero |
| TorqueProviders.Index | simulator/src/main/java/msp/simulator/dynamic/torques/TorqueProviderEnum.java:24-51 | every index lies in 0..4, and it is 0 exactly for MEMCACHED, SCENARIO and CONTROLLER |
| TorqueProviders.IndicesOfDisturbancesAreDistinct | simulator/src/main/java/msp/simulator/dynamic/torques/TorqueProviderEnum.java:28-31 | a disturbance's index differs from that of every other constant |
| MemCachedTorque.Pwm2Torque | simulator/src/main/java/msp/simulator/dynamic/torques/MemCachedTorqueProvider.java:83-91 | the torque is dipole × b_field: orthogonal to the field and to the scaled dipole, and zero for a zero command |
| MemCachedTorque.Pwm2TorqueIsLinear | simulator/src/main/java/msp/simulator/dynamic/torques/MemCachedTorqueProvider.java:83-91 | the torque scales linearly with the PWM command |
| MemCachedTorque.Acquires | simulator/src/main/java/msp/simulator/dynamic/torques/MemCachedTorqueProvider.java:141-147 | a new command is acquired only when the query date is both the expected acquisition date and the start of the current step |
| MemCachedTorque.MemCachedTorqueProvider.constructor | simulator/src/main/java/msp/simulator/dynamic/torques/MemCachedTorqueProvider.java:99-122 | the buffered torque starts at zero and the first acquisition is due at the initial state's date |
| MemCachedTorque.MemCachedTorqueProvider.GetTorque | simulator/src/main/java/msp/simulator/dynamic/torques/MemCachedTorqueProvider.java:135-206 | the field is refreshed every call; the command is acquired iff the date is both the acquisition date and the step start and the reading is finite, which then moves the next date one step on; otherwise the buffer is kept; the buffer is returned |
| MemCachedTorque.SameStepKeepsTorque | simulator/src/main/java/msp/simulator/dynamic/torques/MemCachedTorqueProvider.java:141-205 | a second call inside the same step returns the torque acquired at its start, whatever the store holds |
| TorqueRegistry.Torques.constructor | simulator/src/main/java/msp/simulator/dynamic/torques/Torques.java:54-83 | MEMCACHED registers one memcached provider, SCENARIO one scenario provider starting at the initial date, and any other value none |
| TorqueRegistry.Insert | simulator/src/main/java/msp/simulator/dynamic/torques/Torques.java:62-78 | `add(index, x)` puts x at the index and shifts the later elements by one |
| RigidBody.EulerEquations | simulator/src/main/java/msp/simulator/dynamic/propagation/integration/RotAccProvider.java:114-145 | the result satisfies Euler's three equations I_i·ω̇_i + (I_k - I_j)·ω_j·ω_k = M_i |
| RigidBody.EulerEquationsUnique | simulator/src/main/java/msp/simulator/dynamic/propagation/integration/RotAccProvider.java:140-142 | any acceleration satisfying the three equations is the computed one |
| RigidBody.EulerReadsOnlyDiagonal | simulator/src/main/java/msp/simulator/dynamic/propagation/integration/RotAccProvider.java:133-135 | two matrices with the same diagonal give the same acceleration |
| RigidBody.EulerWithoutSpin | simulator/src/main/java/msp/simulator/dynamic/propagation/integration/RotAccProvider.java:140-142 | with zero spin each component is M_i / I_i |
| RigidBody.EulerIsotropic | simulator/src/main/java/msp/simulator/dynamic/propagation/integration/RotAccProvider.java:140-142 | with equal diagonal entries the gyroscopic terms vanish and the acceleration is M / I |
| RigidBody.SumTorquesAppend | simulator/src/main/java/msp/simulator/dynamic/propagation/integration/RotAccProvider.java:85-90 | the torque of a concatenated provider list is the sum of the torques of its parts |
| RigidBody.SumTorques | simulator/src/main/java/msp/simulator/dynamic/propagation/integration/RotAccProvider.java:85-90 | the loop's running sum of the provider torques; its additivity is SumTorquesAppend |
| RigidBody.RotAccAdditionalState | simulator/src/main/java/msp/simulator/dynamic/propagation/integration/RotAccProvider.java:81-103 | the additional state has three components: Euler's equations applied to the sum of all provider torques |
| RigidBody.RotAccelerationAsWritten | simulator/src/main/java/msp/simulator/dynamic/torques/RotAccelerationProvider.java:79-81 | the x component is Euler's; the y and z components satisfy the equations with I1 in place of I2 and I3 |
| RigidBody.RotAccelerationWithoutSpin | simulator/src/main/java/msp/simulator/dynamic/torques/RotAccelerationProvider.java:79-81 | with zero spin every axis is M_i / I1 |
| RigidBody.RotAccelerationAgreesWhenIsotropic | simulator/src/main/java/msp/simulator/dynamic/torques/RotAccelerationProvider.java:79-81 | with I1 = I2 = I3 the variant agrees with Euler's equations |
| RigidBody.RotAccelerationDisagreesOtherwise | simulator/src/main/java/msp/simulator/dynamic/torques/RotAccelerationProvider.java:79-81 | with unequal diagonal entries there is a torque at which the variant and Euler's equations differ |
| RigidBody.RotAccelerationCounterexample | simulator/src/main/java/msp/simulator/dynamic/torques/RotAccelerationProvider.java:80-81 | for inertia diag(1,2,3), zero spin and torque (0,2,0) the variant gives 2 on the second axis where Euler gives 1 |
| RigidBody.TorqueToSpinDerivatives | simulator/src/main/java/msp/simulator/dynamic/torques/TorqueToSpinEquation.java:95-128 | pDot[0..3) becomes torque_i / cs1_inertia and the entries from index 3 on are untouched |
| RigidBody.AngularMomentumLinear | simulator/src/main/java/msp/simulator/satellite/assembly/Assembly.java:103-107 | H is linear in spin, and zero spin gives zero momentum |
| RigidBody.AngularMomentumDiagonal | simulator/src/main/java/msp/simulator/satellite/assembly/Assembly.java:103-107 | for a diagonal inertia matrix H_i = I_ii·ω_i |
| RigidBody.AngularMomentumUsesOffDiagonal | simulator/src/main/java/msp/simulator/satellite/assembly/Assembly.java:97-107 | the off-diagonal entries contribute: spin (0,1,0) gives the whole column (I01, I11, I21) |
| RigidBody.AngularMomentum | simulator/src/main/java/msp/simulator/satellite/assembly/Assembly.java:103-107 | the full inertia matrix times the spin; linearity, the diagonal case and the off-diagonal column are the three lemmas above |
| Attitude.DeltaQNorm | simulator/src/main/java/msp/simulator/dynamic/propagation/StepHandler.java:102-105 | the squared norm of dQ is 1 - s²/192 + s³/2304 for s = abs(θ)², so dQ is a unit quaternion only up to fourth order in the angle |
| Attitude.MultiplyNorm | simulator/src/main/java/msp/simulator/dynamic/propagation/StepHandler.java:110 | the Hamilton product multiplies squared norms |
| Attitude.MultiplyIdentity | simulator/src/main/java/msp/simulator/dynamic/propagation/StepHandler.java:110 | multiplying on the right by (1,0,0,0) leaves the quaternion unchanged |
| Attitude.WilcoxWithoutRotation | simulator/src/main/java/msp/simulator/dynamic/propagation/StepHandler.java:96-113 | zero spin or a zero step gives Qj = Qi |
| Attitude.WilcoxNormDrift | simulator/src/main/java/msp/simulator/dynamic/propagation/StepHandler.java:96-113 | from a unit Qi, the squared norm of Qj is 1 - s²/192 + s³/2304 for s = abs(dt·spin)², the drift of one step |
| Attitude.StepHandler.constructor | simulator/src/main/java/msp/simulator/dynamic/propagation/StepHandler.java:44-47 | the given step size becomes the integration time step |
| Attitude.DeltaQ | simulator/src/main/java/msp/simulator/dynamic/propagation/StepHandler.java:102-105 | the truncated-series rotation increment of θ; its exact norm is DeltaQNorm |
| Attitude.Wilcox | simulator/src/main/java/msp/simulator/dynamic/propagation/StepHandler.java:96-113 | the attitude right-multiplied by the increment of dt·spin; WilcoxWithoutRotation and WilcoxNormDrift state its properties |
| Attitude.StepHandler.HandleStep | simulator/src/main/java/msp/simulator/dynamic/propagation/StepHandler.java:66-80 | changes nothing, last step or not (an empty frame) |
| SecondaryStates.Cardinal | simulator/src/main/java/msp/simulator/dynamic/propagation/integration/SecondaryStates.java:54 | there are two secondary states |
| SecondaryStates.GetFullArraySize | simulator/src/main/java/msp/simulator/dynamic/propagation/integration/SecondaryStates.java:59-65 | the accumulating loop returns the sum of the sizes of all states |
| SecondaryStates.Index | simulator/src/main/java/msp/simulator/dynamic/propagation/integration/SecondaryStates.java:24-25 | SPIN starts at slot 0 and THETA at slot 3; LayoutIsContiguous proves the layout has no gap |
| SecondaryStates.Size | simulator/src/main/java/msp/simulator/dynamic/propagation/integration/SecondaryStates.java:24-25 | each state holds 3 slots; SlotsBelongToOneState proves every slot of [0, 6) is in exactly one state |
| SecondaryStates.LayoutIsContiguous | simulator/src/main/java/msp/simulator/dynamic/propagation/integration/SecondaryStates.java:24-25 | each state starts where the previous ones end, and the full size is 6 |
| SecondaryStates.SlotsBelongToOneState | simulator/src/main/java/msp/simulator/dynamic/propagation/integration/SecondaryStates.java:24-25 | every slot of the array belongs to exactly one state: SPIN [0,3) and THETA [3,6) are disjoint and cover it |
| SecondaryStates.ExtractState | simulator/src/main/java/msp/simulator/dynamic/propagation/integration/SecondaryStates.java:73-82 | a fresh array equal to source[index .. index+size), given that the source is long enough |
| AdditionalEquations.Overwrite | simulator/src/main/java/msp/simulator/dynamic/propagation/integration/SecondaryStatesODE.java:98-113 | a slice copy changes exactly the slots [at, at+length) and keeps the length |
| AdditionalEquations.ArrayCopy | simulator/src/main/java/msp/simulator/dynamic/propagation/integration/SecondaryStatesODE.java:98-104 | `System.arraycopy` succeeds iff both ranges are in bounds; it then overwrites only the target slice, and otherwise changes nothing |
| AdditionalEquations.CopiedComponents | simulator/src/main/java/msp/simulator/dynamic/propagation/integration/SpinODE.java:88-90 | the number of components written before an index falls out of bounds is at most 3 and is bounded by both lengths |
| AdditionalEquations.CopyThree | simulator/src/main/java/msp/simulator/dynamic/propagation/integration/SpinODE.java:88-90 | three element writes succeed iff both arrays have three entries; a failure keeps the writes made before it |
| AdditionalEquations.SecondaryStatesDerivatives | simulator/src/main/java/msp/simulator/dynamic/propagation/integration/SecondaryStatesODE.java:95-131 | pDot[0..3) receives "RotAcc" and pDot[3..6) the SPIN slice; nothing else is written; a missing "RotAcc" writes nothing, and a missing "SecondaryStates" (or a short one) leaves pDot[0..3) already written |
| AdditionalEquations.SpinDerivatives | simulator/src/main/java/msp/simulator/dynamic/propagation/integration/SpinODE.java:85-110 | pDot[0..3) receives "RotAcc" component-wise and the entries from index 3 on are untouched; a short source or pDot keeps the components written before the failing index |
| AdditionalEquations.ThetaDerivatives | simulator/src/main/java/msp/simulator/dynamic/propagation/integration/ThetaODE.java:47-59 | when "Spin" exists it is copied to pDot[0..3), a short one keeping the components written before the failing index; otherwise pDot is left unchanged |
| SatelliteStatesModel.UpdateState | simulator/src/main/java/msp/simulator/satellite/assembly/SatelliteStates.java:175-204 | copying the additional states entry by entry rebuilds the new state exactly, so the compatibility check never fails |
| SatelliteStatesModel.SatelliteStates.constructor | simulator/src/main/java/msp/simulator/satellite/assembly/SatelliteStates.java:74-151 | the initial state carries the configured attitude, spin, acceleration and mass, "RotAcc" and the 6-slot secondary array; the current state is the initial one |
| SatelliteStatesModel.SatelliteStates.SetInitialState | simulator/src/main/java/msp/simulator/satellite/assembly/SatelliteStates.java:211-213 | only the initial state changes |
| SatelliteStatesModel.SatelliteStates.SetCurrentState | simulator/src/main/java/msp/simulator/satellite/assembly/SatelliteStates.java:220-222 | only the current state changes |
| AssemblyModel.Assembly.constructor | simulator/src/main/java/msp/simulator/satellite/assembly/Assembly.java:49-55 | the body is built first and the states receive its mass |
| AssemblyModel.Assembly.GetAngularMomentum | simulator/src/main/java/msp/simulator/satellite/assembly/Assembly.java:93-110 | the momentum is the inertia matrix times the current spin, and zero spin gives zero |
| Simulation.EphemerisPeriod | simulator/src/main/java/msp/simulator/NumericalSimulator.java:357-359 | the period is an int and, when no wrap-around occurs, the nearest integer to ephemerisStep / integrationStep |
| Simulation.RenderOnMultiples | simulator/src/main/java/msp/simulator/NumericalSimulator.java:400-402 | for a positive period an ephemeris is rendered iff the counter is a multiple of the period |
| Simulation.RenderEphemeris | simulator/src/main/java/msp/simulator/NumericalSimulator.java:400-402 | the flag is set when floorMod(counter, period) is below EPSILON; RenderOnMultiples and NegativePeriodRendersAlways say when that is |
| Simulation.NegativePeriodRendersAlways | simulator/src/main/java/msp/simulator/NumericalSimulator.java:400-402 | for a negative period every tick renders, since floorMod is then never positive |
| Simulation.OffsetIsMultiple | simulator/src/main/java/msp/simulator/NumericalSimulator.java:374 | the offset after n ticks is n·step |
| Simulation.Offset | simulator/src/main/java/msp/simulator/NumericalSimulator.java:374 | the offset accumulated one step per tick; OffsetIsMultiple gives its closed form |
| Simulation.EphemerisOffsets | simulator/src/main/java/msp/simulator/NumericalSimulator.java:400-410 | at most one ephemeris per tick |
| Simulation.EphemerisCount | simulator/src/main/java/msp/simulator/NumericalSimulator.java:360-410 | with a positive period, n ticks from counter 1 write exactly n / period ephemerides |
| Simulation.MainSimulationTask.constructor | simulator/src/main/java/msp/simulator/NumericalSimulator.java:341-361 | offset 0, counter 1, period round(ephemerisStep / integrationStep) |
| Simulation.MainSimulationTask.Run | simulator/src/main/java/msp/simulator/NumericalSimulator.java:366-419 | when not running nothing changes; otherwise the offset advances by one step, the counter increments (wrapping) and an ephemeris is written iff floorMod(counter, period) is 0; a zero period throws |
| Simulation.MainSimulationTask.IsRunning | simulator/src/main/java/msp/simulator/NumericalSimulator.java:425-430 | the task runs while the offset plus EPSILON is before the duration; Run changes nothing once it is false, and ProcessWallClock stops exactly then |
| Simulation.ProcessWallClock | simulator/src/main/java/msp/simulator/NumericalSimulator.java:201-205 | the loop stops exactly when the task stops running, after n ticks with offset n·step and the ephemerides EphemerisOffsets(n) |
| Simulation.NumericalSimulator.constructor | simulator/src/main/java/msp/simulator/NumericalSimulator.java:96-101 | the real-time flag is copied from the configuration |
| Simulation.NumericalSimulator.Initialize | simulator/src/main/java/msp/simulator/NumericalSimulator.java:122-180 | succeeds iff the configuration check passes; only then is the status set and one ephemeris written at offset 0 |
| Simulation.NumericalSimulator.Process | simulator/src/main/java/msp/simulator/NumericalSimulator.java:186-262 | the wall-clock branch runs the task until offset + ε reaches the duration and appends its ephemerides; a zero period throws |
| DashboardModel.StepDividesDuration | simulator/src/main/java/msp/simulator/user/Dashboard.java:416-419 | check 1 throws iff (long)(step·1000) is 0; otherwise it holds iff floorMod(duration·1000, that long) is 0, with long wrap-around |
| DashboardModel.EphemerisWithinDuration | simulator/src/main/java/msp/simulator/user/Dashboard.java:432 | check 2: the ephemeris step is at most the simulation duration |
| DashboardModel.MemCachedProviderConnected | simulator/src/main/java/msp/simulator/user/Dashboard.java:447-449 | check 3: the MemCached provider is chosen only with the MemCached connection on |
| DashboardModel.ScenarioStartsAtZero | simulator/src/main/java/msp/simulator/user/Dashboard.java:461-465 | the case where check 4 compares accelerations: the SCENARIO provider, a non-empty scenario and a first step at offset 0 |
| DashboardModel.ScenarioStartAcceleration | simulator/src/main/java/msp/simulator/user/Dashboard.java:469-474 | the acceleration check 4 expects: Euler's equations for the first step's rotation vector times the scenario intensity, at the initial spin and inertia |
| DashboardModel.LateScenarioIsIncoherent | simulator/src/main/java/msp/simulator/user/Dashboard.java:461-478 | a SCENARIO whose first step starts after 0 always fails check 4 |
| DashboardModel.ScenarioCoherent | simulator/src/main/java/msp/simulator/user/Dashboard.java:461-478 | check 4: not the scenario provider, an empty scenario, or a first step at 0 whose Euler acceleration is the initial one |
| DashboardModel.InitialDurationWraps | simulator/src/main/java/msp/simulator/NumericalSimulator.java:50 | the initial duration Long.MAX_VALUE times 1000 wraps to -1000, which still passes check 1 for a 0.1 s step |
| DashboardModel.DefaultChecksPass | simulator/src/main/java/msp/simulator/user/Dashboard.java:97-123 | the default step, duration, ephemeris step and provider pass checks 1 to 3 |
| DashboardModel.Configuration.constructor | simulator/src/main/java/msp/simulator/NumericalSimulator.java:50-53 | the settings start at the initial values of the classes that hold them (duration Long.MAX_VALUE, SCENARIO, empty scenario, no connection) |
| DashboardModel.Configuration.SetRealTimeProcessing | simulator/src/main/java/msp/simulator/user/Dashboard.java:187-189 | only the real-time flag changes |
| DashboardModel.Configuration.SetIntegrationTimeStep | simulator/src/main/java/msp/simulator/user/Dashboard.java:199-207 | the step is stored only when positive, so the stored step stays positive |
| DashboardModel.Configuration.SetEphemerisTimeStep | simulator/src/main/java/msp/simulator/user/Dashboard.java:213-221 | the step is stored only when positive, so the stored step stays positive |
| DashboardModel.Configuration.SetSimulationDuration | simulator/src/main/java/msp/simulator/user/Dashboard.java:230-232 | only the duration changes |
| DashboardModel.Configuration.SetGroundStationWorkPeriod | simulator/src/main/java/msp/simulator/user/Dashboard.java:239-241 | only the work period changes |
| DashboardModel.Configuration.SetInitialAttitudeQuaternion | simulator/src/main/java/msp/simulator/user/Dashboard.java:268-270 | the stored attitude is the quaternion divided by its norm; a zero norm throws and stores nothing |
| DashboardModel.Configuration.SetInitialSpin | simulator/src/main/java/msp/simulator/user/Dashboard.java:276-278 | only the initial spin changes |
| DashboardModel.Configuration.SetInitialRotAcceleration | simulator/src/main/java/msp/simulator/user/Dashboard.java:284-286 | only the initial rotational acceleration changes |
| DashboardModel.Configuration.SetSatelliteMass | simulator/src/main/java/msp/simulator/user/Dashboard.java:292-294 | only the mass changes |
| DashboardModel.Configuration.SetSatelliteInertiaMatrix | simulator/src/main/java/msp/simulator/user/Dashboard.java:300-302 | only the inertia matrix changes |
| DashboardModel.Configuration.SetTorqueProvider | simulator/src/main/java/msp/simulator/user/Dashboard.java:316-318 | only the command provider changes |
| DashboardModel.Configuration.SetTorqueScenario | simulator/src/main/java/msp/simulator/user/Dashboard.java:330-351 | a fresh copy of the scenario is stored; a scenario starting at 0 sets the initial acceleration so that check 4 holds |
| DashboardModel.Configuration.SetMemCachedConnection | simulator/src/main/java/msp/simulator/user/Dashboard.java:380-383 | only the connection flag and address change |
| DashboardModel.Configuration.SetTorqueCommandKey | simulator/src/main/java/msp/simulator/user/Dashboard.java:389-391 | only the command key changes |
| DashboardModel.Configuration.SetVtsConnection | simulator/src/main/java/msp/simulator/user/Dashboard.java:397-399 | only the VTS flag changes |
| DashboardModel.Configuration.CheckConfiguration | simulator/src/main/java/msp/simulator/user/Dashboard.java:410-503 | an arithmetic error iff check 1 divides by zero; otherwise it passes iff all four checks hold |
| DashboardModel.Configuration.ChecksPass | simulator/src/main/java/msp/simulator/user/Dashboard.java:410-503 | the four checks all hold, the first without throwing; CheckConfiguration passes iff it holds |
| DashboardModel.Configuration.SetDefaultSimulation | simulator/src/main/java/msp/simulator/user/Dashboard.java:97-101 | no real time, 0.1 s step, 1.0 s ephemeris step, work period 10, duration 10 |
| DashboardModel.Configuration.SetDefaultDynamics | simulator/src/main/java/msp/simulator/user/Dashboard.java:114-118 | identity attitude, zero spin and acceleration, SCENARIO with an empty scenario |
| DashboardModel.Configuration.SetDefaultStructureAndIO | simulator/src/main/java/msp/simulator/user/Dashboard.java:122-133 | unit mass, the balanced inertia matrix, no memcached or VTS connection |
| DashboardModel.Configuration.SetDefaultConfiguration | simulator/src/main/java/msp/simulator/user/Dashboard.java:88-141 | all the defaults are set and the configuration check passes on them |
| TleFormat.IndexOf | simulator/src/main/java/msp/simulator/groundStation/GroundStation.java:144-151 | the first index of a character, or the length when absent |
| TleFormat.ExponentMarkerIndex | simulator/src/main/java/msp/simulator/groundStation/GroundStation.java:144-151 | the first 'e' or 'E' of a number text, or its length |
| TleFormat.TrimLeading | simulator/src/main/java/msp/simulator/groundStation/GroundStation.java:144-151 | a suffix of the text that is empty or starts with a non-blank, and every dropped character is a blank (<= ' ') |
| TleFormat.TrimTrailing | simulator/src/main/java/msp/simulator/groundStation/GroundStation.java:144-151 | a prefix of the text that is empty or ends with a non-blank, and every dropped character is a blank (<= ' ') |
| TleFormat.Trim | simulator/src/main/java/msp/simulator/groundStation/GroundStation.java:144-151 | String.trim: both ends dropped up to ' '; TrimKeeps and TrimDropsOneBlank are its cases |
| TleFormat.ValueOf | simulator/src/main/java/msp/simulator/groundStation/GroundStation.java:136-171 | Double.valueOf on decimal text, None where Java throws NumberFormatException; the value lemmas below state what it reads |
| TleFormat.ExponentFieldAsWritten | simulator/src/main/java/msp/simulator/groundStation/GroundStation.java:144-145 | the text as the program builds it; TrimAsWritten and AsWrittenExponentValue state what it reads |
| TleFormat.ExponentFieldCorrected | simulator/src/main/java/msp/simulator/groundStation/GroundStation.java:144-145 | the text with the sign, "0." and signed exponent; CorrectedExponentValue states that it reads as the encoded value |
| TleFormat.DigitsValueOfOne | simulator/src/main/java/msp/simulator/groundStation/GroundStation.java:144-151 | a single digit is read as its value |
| TleFormat.TrimKeeps | simulator/src/main/java/msp/simulator/groundStation/GroundStation.java:144-151 | trimming keeps a text with non-blank ends |
| TleFormat.TrimDropsOneBlank | simulator/src/main/java/msp/simulator/groundStation/GroundStation.java:144-151 | trimming drops one leading blank |
| TleFormat.MarkerAfter | simulator/src/main/java/msp/simulator/groundStation/GroundStation.java:144-151 | in m + "e" + x the marker is found after m |
| TleFormat.UnsignedDigits | simulator/src/main/java/msp/simulator/groundStation/GroundStation.java:144-151 | a digit string is read as its integer value |
| TleFormat.UnsignedZeroPoint | simulator/src/main/java/msp/simulator/groundStation/GroundStation.java:144-151 | "0." followed by digits d is read as value(d) / 10^len(d) |
| TleFormat.SignedExponent | simulator/src/main/java/msp/simulator/groundStation/GroundStation.java:144-151 | the two exponent columns, sign and digit, are read as a signed exponent |
| TleFormat.ValueOfWithExponent | simulator/src/main/java/msp/simulator/groundStation/GroundStation.java:144-151 | a mantissa, "e" and an exponent are read as mantissa·10^exponent |
| TleFormat.SignPrefix | simulator/src/main/java/msp/simulator/groundStation/GroundStation.java:144-151 | a sign before a number negates it only for '-' |
| TleFormat.MantissaDigits | simulator/src/main/java/msp/simulator/groundStation/GroundStation.java:144-151 | the five mantissa digits with their sign are read as a signed integer |
| TleFormat.ZeroPoint | simulator/src/main/java/msp/simulator/groundStation/GroundStation.java:144-151 | an unsigned "0." field is read as its fraction |
| TleFormat.SignedZeroPoint | simulator/src/main/java/msp/simulator/groundStation/GroundStation.java:144-151 | a signed "0." field is read as its signed fraction |
| TleFormat.TrimAsWritten | simulator/src/main/java/msp/simulator/groundStation/GroundStation.java:144-145 | the exported text is the sign and five digits, "e" and the exponent digit, without the exponent's sign |
| TleFormat.TrimCorrected | simulator/src/main/java/msp/simulator/groundStation/GroundStation.java:144-145 | the corrected text keeps the sign, the implied "0." and the signed exponent |
| TleFormat.AsWrittenExponentValue | simulator/src/main/java/msp/simulator/groundStation/GroundStation.java:144-151 | the text as exported reads as ±digits·10^(+exponent digit) |
| TleFormat.CorrectedExponentValue | simulator/src/main/java/msp/simulator/groundStation/GroundStation.java:144-151 | the corrected text reads as the value the TLE field encodes |
| TleFormat.AsWrittenExponentCounterexample | simulator/src/main/java/msp/simulator/groundStation/GroundStation.java:144-145 | the field "-11606-4" encodes -0.000011606 but its exported text reads as -116060000.0 |
| GroundStationModel.Columns | simulator/src/main/java/msp/simulator/groundStation/GroundStation.java:136-171 | a slice holds the columns first..last of the line, numbered from 1 |
| GroundStationModel.ExtractFields | simulator/src/main/java/msp/simulator/groundStation/GroundStation.java:136-171 | the ten slices the program cuts from the two lines; SlicesAreTleColumns names their TLE columns |
| GroundStationModel.SlicesAreTleColumns | simulator/src/main/java/msp/simulator/groundStation/GroundStation.java:136-171 | each exported field is the TLE format's column range for it, the exponential fields as written |
| GroundStationModel.Calls | simulator/src/main/java/msp/simulator/groundStation/GroundStation.java:241-251 | a sequence of calls yields one answer per date |
| GroundStationModel.NextAdvancesOncePerTrue | simulator/src/main/java/msp/simulator/groundStation/GroundStation.java:245-248 | after any sequence of calls the next working date is the start plus one period per true answer |
| GroundStationModel.CallsAtOneDate | simulator/src/main/java/msp/simulator/groundStation/GroundStation.java:245-248 | repeated calls at one date answer true while start + i·period has not passed it, so a far date keeps answering true until the schedule catches up |
| GroundStationModel.GroundStation.constructor | simulator/src/main/java/msp/simulator/groundStation/GroundStation.java:68-75 | the next working date is the initial state's date and the period is captured |
| GroundStationModel.GroundStation.IsTeamWorking | simulator/src/main/java/msp/simulator/groundStation/GroundStation.java:241-251 | true iff the date has reached the next working date, which then advances by exactly one period; on false nothing changes |
| GroundStationModel.GroundStation.ExecuteMission | simulator/src/main/java/msp/simulator/groundStation/GroundStation.java:81-233 | the fields are exported only when the team works and memcached is connected |
| GroundStationModel.FirstCallWorks | simulator/src/main/java/msp/simulator/groundStation/GroundStation.java:48-75 | a new station works at its initial date and not again within the default period of 10800 s |
| RawTranscoder.BigEndianBytes | simulator/src/main/java/msp/simulator/satellite/io/MemcachedRawTranscoder.java:26 | the output has exactly 8 bytes |
| RawTranscoder.PrefixValue | simulator/src/main/java/msp/simulator/satellite/io/MemcachedRawTranscoder.java:27-31 | the first k bytes read big-endian are the bits shifted right by 8·(8-k) |
| RawTranscoder.BitsRoundTrip | simulator/src/main/java/msp/simulator/satellite/io/MemcachedRawTranscoder.java:25-34 | reassembling the 8 bytes big-endian yields the bit pattern again |
| RawTranscoder.FromBigEndianBound | simulator/src/main/java/msp/simulator/satellite/io/MemcachedRawTranscoder.java:25-34 | n bytes read big-endian are below 256^n |
| RawTranscoder.SplitValue | simulator/src/main/java/msp/simulator/satellite/io/MemcachedRawTranscoder.java:25-34 | big-endian reading of a concatenation shifts the first part |
| RawTranscoder.BytesRoundTrip | simulator/src/main/java/msp/simulator/satellite/io/MemcachedRawTranscoder.java:25-34 | every 8 bytes are the encoding of the value they read as |
| RawTranscoder.ToRawByteArray | simulator/src/main/java/msp/simulator/satellite/io/MemcachedRawTranscoder.java:25-34 | a fresh 8-byte array, byte i being (bits >> 8·(7-i)) & 0xff, which reads back as the bits |
| RawTranscoder.Encode | simulator/src/main/java/msp/simulator/satellite/io/MemcachedRawTranscoder.java:67-73 | data up to the maximum size is tagged FLAG_RAW_DATA = 0xE; longer data is refused |
| RawTranscoder.AsyncDecode | simulator/src/main/java/msp/simulator/satellite/io/MemcachedRawTranscoder.java:57-59 | asynchronous decoding is never requested |
| RawTranscoder.Decode | simulator/src/main/java/msp/simulator/satellite/io/MemcachedRawTranscoder.java:46-48 | decode returns the stored bytes whatever the flags; DecodeEncode and EncodeDecode make it the inverse of Encode |
| RawTranscoder.DecodeEncode | simulator/src/main/java/msp/simulator/satellite/io/MemcachedRawTranscoder.java:46-73 | decoding an encoding returns the same bytes |
| RawTranscoder.EncodeDecode | simulator/src/main/java/msp/simulator/satellite/io/MemcachedRawTranscoder.java:46-73 | encoding the decoding of raw data returns the same cached data |
| RawTranscoder.EncodeDouble | simulator/src/main/java/msp/simulator/satellite/io/MemcachedRawTranscoder.java:25-73 | a double's bytes encoded and decoded read back as its bit pattern |
| Saturation.Abs | simulator/src/main/java/msp/simulator/satellite/ADCS/Actuators/MagnetoTorquers.java:58-69 | the magnitude is non-negative and is x or -x |
| AdcsMagnetoTorquers.ConstrainAxis | simulator/src/main/java/msp/simulator/satellite/ADCS/Actuators/MagnetoTorquers.java:58-61 | the output magnitude is at most the maximum; a value within bounds is kept; the sign is preserved |
| AdcsMagnetoTorquers.ConstrainAxisIsClamp | simulator/src/main/java/msp/simulator/satellite/ADCS/Actuators/MagnetoTorquers.java:58-61 | the axis constraint is the clamp to [-max, max] |
| AdcsMagnetoTorquers.ConstrainAxisIdempotent | simulator/src/main/java/msp/simulator/satellite/ADCS/Actuators/MagnetoTorquers.java:58-61 | constraining twice is constraining once |
| AdcsMagnetoTorquers.ComputeDipole | simulator/src/main/java/msp/simulator/satellite/ADCS/Actuators/MagnetoTorquers.java:46-72 | each axis is clamped independently to [-0.1, 0.1] |
| AdcsMagnetoTorquers.WithinBoundsUnchanged | simulator/src/main/java/msp/simulator/satellite/ADCS/Actuators/MagnetoTorquers.java:58-69 | a duty cycle within bounds is returned unchanged |
| AdcsMagnetoTorquers.ComputeDipoleIdempotent | simulator/src/main/java/msp/simulator/satellite/ADCS/Actuators/MagnetoTorquers.java:52-72 | clamping is idempotent |
| ActuatorMagnetoTorquers.ComputeDipole | simulator/src/main/java/msp/simulator/satellite/actuators/MagnetoTorquers.java:46-53 | with orientation (1,1,1) the dipole is the duty cycle unchanged |
| ActuatorMagnetoTorquers.DipoleIsUnbounded | simulator/src/main/java/msp/simulator/satellite/actuators/MagnetoTorquers.java:43-53 | the maximum dipole is never applied: a duty cycle of 1 gives ten times it |
| ActuatorMagnetoTorquers.ComputeDipoleIsLinear | simulator/src/main/java/msp/simulator/satellite/actuators/MagnetoTorquers.java:47-51 | the dipole is linear in the duty cycle |
| LowPass.BlendError | simulator/src/main/java/msp/simulator/satellite/ADCS/Estimators/BdotEstimator/LowPassFilter.java:48-51 | the update scales the distance to the sample by α |
| LowPass.BlendBetween | simulator/src/main/java/msp/simulator/satellite/ADCS/Estimators/BdotEstimator/LowPassFilter.java:48-58 | with 0 <= α <= 1 the new state lies between the old state and the sample |
| LowPass.BlendFixedPoint | simulator/src/main/java/msp/simulator/satellite/ADCS/Estimators/BdotEstimator/LowPassFilter.java:48-58 | a sample equal to the state leaves it unchanged |
| LowPass.Blend | simulator/src/main/java/msp/simulator/satellite/ADCS/Estimators/BdotEstimator/LowPassFilter.java:48-55 | α·state + (1-α)·sample; BlendError, BlendBetween and BlendFixedPoint state its properties |
| LowPass.LowPassFilter.Scalar | simulator/src/main/java/msp/simulator/satellite/ADCS/Estimators/BdotEstimator/LowPassFilter.java:32-38 | the scalar filter's α is exp(+spms/tc) |
| LowPass.LowPassFilter.Vector | simulator/src/main/java/msp/simulator/satellite/ADCS/Estimators/BdotEstimator/LowPassFilter.java:39-47 | the vector filter's α is exp(-spms/tc) and its state starts at the given vector |
| LowPass.LowPassFilter.ProcessSample | simulator/src/main/java/msp/simulator/satellite/ADCS/Estimators/BdotEstimator/LowPassFilter.java:48-51 | state := α·state + (1-α)·sample, and the new state is returned |
| LowPass.LowPassFilter.ProcessSample3d | simulator/src/main/java/msp/simulator/satellite/ADCS/Estimators/BdotEstimator/LowPassFilter.java:52-58 | the same rule is applied to each component |
| LowPass.LowPassFilter.GetSamplePeriod | simulator/src/main/java/msp/simulator/satellite/ADCS/Estimators/BdotEstimator/LowPassFilter.java:59-61 | the sample period in seconds is spms / 1000 |
| LowPass.LowPassFilter.GetTimeConstant | simulator/src/main/java/msp/simulator/satellite/ADCS/Estimators/BdotEstimator/LowPassFilter.java:63-65 | the time constant as given |
| LowPass.ScalarAlphaAboveOne | simulator/src/main/java/msp/simulator/satellite/ADCS/Estimators/BdotEstimator/LowPassFilter.java:35 | for positive tc and spms the scalar α exceeds 1 |
| LowPass.VectorAlphaBelowOne | simulator/src/main/java/msp/simulator/satellite/ADCS/Estimators/BdotEstimator/LowPassFilter.java:42 | for positive tc and spms the vector α lies strictly between 0 and 1 |
| LowPass.ScalarFilterDiverges | simulator/src/main/java/msp/simulator/satellite/ADCS/Estimators/BdotEstimator/LowPassFilter.java:35-51 | the scalar filter as written moves the state away from a constant sample |
| LowPass.CorrectedScalarFilterConverges | simulator/src/main/java/msp/simulator/satellite/ADCS/Estimators/BdotEstimator/LowPassFilter.java:35-51 | with α = exp(-spms/tc) the state moves toward the sample and stays between the two |
| LowPass.CorrectedScalarAlpha | simulator/src/main/java/msp/simulator/satellite/ADCS/Estimators/BdotEstimator/LowPassFilter.java:42 | the vector constructor's α, exp(-spms/tc), applied to the scalar filter; CorrectedScalarFilterConverges states its effect |
| Bdot.FirstOrderDiff | simulator/src/main/java/msp/simulator/satellite/ADCS/Estimators/BdotEstimator/BdotEstimator.java:42-47 | timestep × B-dot equals reading - last reading |
| Bdot.BdotEstimator.constructor | simulator/src/main/java/msp/simulator/satellite/ADCS/Estimators/BdotEstimator/BdotEstimator.java:31-35 | timestep 0.1 and a vector filter with tc 5.0, spms 0.25 and zero state; no previous reading |
| Bdot.BdotEstimator.GetFirstOrderDiff | simulator/src/main/java/msp/simulator/satellite/ADCS/Estimators/BdotEstimator/BdotEstimator.java:41-49 | the difference quotient against the previous reading, which becomes the current reading |
| Bdot.BdotEstimator.ComputeBdot | simulator/src/main/java/msp/simulator/satellite/ADCS/Estimators/BdotEstimator/BdotEstimator.java:36-40 | the difference passes through the filter exactly once and the filter's new state is returned |
| Bdot.B_Dot.constructor | simulator/src/main/java/msp/simulator/satellite/ADCS/Controller/B_Dot.java:31-34 | a fresh estimator with no previous reading |
| Bdot.B_Dot.ComputeDipole | simulator/src/main/java/msp/simulator/satellite/ADCS/Controller/B_Dot.java:35-39 | the estimator advances exactly once: the filter state becomes the blend of the old state with the difference quotient against the previous reading, which becomes the given reading; the dipole is the clamp of that state + gains, so every component is in [-0.1, 0.1] |
| Bdot.DutyCycleAsWritten | simulator/src/main/java/msp/simulator/satellite/ADCS/Controller/B_Dot.java:36 | the linear combination 1.0·bdot + 1.0·gains; AsWrittenDipoleIsConstant states its effect |
| Bdot.DutyCycleCorrected | simulator/src/main/java/msp/simulator/satellite/ADCS/Controller/B_Dot.java:36 | the gains times the estimate axis by axis; CorrectedDipoleOpposesBdot and CorrectedDipoleVanishes state its effect |
| Bdot.AsWrittenDipoleIsConstant | simulator/src/main/java/msp/simulator/satellite/ADCS/Controller/B_Dot.java:36 | for every B-dot component below 53999.9 in magnitude the dipole is (-0.1, -0.1, -0.1) |
| Bdot.CorrectedDipoleOpposesBdot | simulator/src/main/java/msp/simulator/satellite/ADCS/Controller/B_Dot.java:36 | with the gains multiplied, each dipole axis opposes B-dot |
| Bdot.CorrectedDipoleVanishes | simulator/src/main/java/msp/simulator/satellite/ADCS/Controller/B_Dot.java:36 | with the gains multiplied, a zero B-dot gives a zero dipole |
| InfraredVectors.SumSquares | simulator/src/main/java/msp/simulator/satellite/sensors/infrared/Main.java:61-67 | a sum of squares is non-negative |
| InfraredVectors.ScaleSeq | simulator/src/main/java/msp/simulator/satellite/sensors/infrared/Main.java:72-78 | scaling keeps the length |
| InfraredVectors.Combine | simulator/src/main/java/msp/simulator/satellite/sensors/infrared/Main.java:83-98 | the result has the length of the first vector |
| InfraredVectors.DotProduct | simulator/src/main/java/msp/simulator/satellite/sensors/infrared/Main.java:50-56 | the loop computes the sum of A[i]·B[i] over the length of A |
| InfraredVectors.DotSeqPrefix | simulator/src/main/java/msp/simulator/satellite/sensors/infrared/Main.java:50-56 | entries of B beyond the length of A are ignored |
| InfraredVectors.DotSeq | simulator/src/main/java/msp/simulator/satellite/sensors/infrared/Main.java:50-56 | the sum of A[i]·B[i] over A's length; the lemmas around it give symmetry, scaling and the sum of squares |
| InfraredVectors.DotSeqSymmetric | simulator/src/main/java/msp/simulator/satellite/sensors/infrared/Main.java:50-56 | the dot product of equal-length vectors is symmetric |
| InfraredVectors.DotSelfIsSumSquares | simulator/src/main/java/msp/simulator/satellite/sensors/infrared/Main.java:50-67 | v·v is the sum of squares under the magnitude's root |
| InfraredVectors.DotScale | simulator/src/main/java/msp/simulator/satellite/sensors/infrared/Main.java:50-78 | scaling A scales the dot product |
| InfraredVectors.DotProductExample | simulator/src/main/java/msp/simulator/satellite/sensors/infrared/JUnitTests.java:63-69 | (1,2,3)·(3,2,1) = 10 |
| InfraredVectors.VectorMagnitude | simulator/src/main/java/msp/simulator/satellite/sensors/infrared/Main.java:61-67 | the loop computes the square root of the sum of squares |
| InfraredVectors.MagnitudeExample | simulator/src/main/java/msp/simulator/satellite/sensors/infrared/JUnitTests.java:72-78 | the magnitude of (3,4,0) is 5 |
| InfraredVectors.VectorScalarMultiplier | simulator/src/main/java/msp/simulator/satellite/sensors/infrared/Main.java:72-78 | a fresh array of the same length with v[i]·s |
| InfraredVectors.BasicVectorOperations | simulator/src/main/java/msp/simulator/satellite/sensors/infrared/Main.java:83-98 | "add" gives the element-wise sum, "minus" the difference, anything else a zero array of length abs(A) |
| InfraredVectors.AddThenMinus | simulator/src/main/java/msp/simulator/satellite/sensors/infrared/Main.java:83-98 | adding then subtracting B gives A back |
| InfraredVectors.UnknownOperationIsZero | simulator/src/main/java/msp/simulator/satellite/sensors/infrared/Main.java:96-97 | an unknown operation yields only zeros |
| InfraredModel.AngleToInfrared | simulator/src/main/java/msp/simulator/satellite/sensors/infrared/Main.java:24-36 | the reading is the polynomial fit in degrees when non-negative and 0 otherwise, so it is never negative |
| InfraredModel.InfraredFit | simulator/src/main/java/msp/simulator/satellite/sensors/infrared/Main.java:25-31 | the ninth-order polynomial in degrees with the ten coefficients p1..p10 of the source |
| InfraredModel.AngleToInfraredExamples | simulator/src/main/java/msp/simulator/satellite/sensors/infrared/JUnitTests.java:35-44 | angle 0 gives 0.9872 (> 0.9); π/2 gives less than 0.45; π is clamped to 0 |
| InfraredSensors.AsReals | simulator/src/main/java/msp/simulator/satellite/sensors/infrared/SensorData.java:36-42 | each int is converted to a double, keeping the length |
| InfraredSensors.SensorData.constructor | simulator/src/main/java/msp/simulator/satellite/sensors/infrared/SensorData.java:6-10 | both readings start at 0 and the side normal is stored |
| InfraredSensors.SensorData.GetSideNormal | simulator/src/main/java/msp/simulator/satellite/sensors/infrared/SensorData.java:36-42 | a fresh array of the converted normal; the stored one is untouched |
| InfraredSensors.SensorData.SetInfraredReading | simulator/src/main/java/msp/simulator/satellite/sensors/infrared/SensorData.java:24-26 | only the infrared reading changes |
| InfraredSensors.SensorData.SetAngleReading | simulator/src/main/java/msp/simulator/satellite/sensors/infrared/SensorData.java:32-34 | only the angle reading changes |
| InfraredSensors.SensorData.SetSideNormal | simulator/src/main/java/msp/simulator/satellite/sensors/infrared/SensorData.java:44-46 | only the side normal changes |
| InfraredSensors.SensorData.ConvertAngleToInfrared | simulator/src/main/java/msp/simulator/satellite/sensors/infrared/SensorData.java:16-18 | the infrared reading becomes AngleToInfrared of the angle reading, never negative |
| InfraredSensors.SensorData.CalculateAngleFromNadir | simulator/src/main/java/msp/simulator/satellite/sensors/infrared/SensorData.java:12-14 | the angle reading becomes acos(nadir·normal / abs(nadir)) |
| InfraredSensors.DiscardBelowThreshold | simulator/src/main/java/msp/simulator/satellite/sensors/infrared/Main.java:110-115 | exactly the sensors with a negative reading get a zero normal and the angle π/2; the others and all readings are unchanged |
| GaussTransform.UnmapRemap | hipparchus-1.2/hipparchus-core/src/main/java/org/hipparchus/analysis/integration/gauss/GaussIntegratorFactory.java:179-183 | the point map is invertible when a != b |
| GaussTransform.RemapEnds | hipparchus-1.2/hipparchus-core/src/main/java/org/hipparchus/analysis/integration/gauss/GaussIntegratorFactory.java:179-183 | -1 goes to a, 1 to b and 0 to the midpoint |
| GaussTransform.RemapIncreasing | hipparchus-1.2/hipparchus-core/src/main/java/org/hipparchus/analysis/integration/gauss/GaussIntegratorFactory.java:179-183 | for b > a the order of the points is kept |
| GaussTransform.RemapAll | hipparchus-1.2/hipparchus-core/src/main/java/org/hipparchus/analysis/integration/gauss/GaussIntegratorFactory.java:179-183 | the remapped points keep their number |
| GaussTransform.ScaleWeights | hipparchus-1.2/hipparchus-core/src/main/java/org/hipparchus/analysis/integration/gauss/GaussIntegratorFactory.java:184 | the scaled weights keep their number |
| GaussTransform.Transform | hipparchus-1.2/hipparchus-core/src/main/java/org/hipparchus/analysis/integration/gauss/GaussIntegratorFactory.java:172-188 | in place, each point is remapped and each of the first points.length weights scaled by (b-a)/2; the same arrays are returned |
| GaussTransform.SumOfScaledWeights | hipparchus-1.2/hipparchus-core/src/main/java/org/hipparchus/analysis/integration/gauss/GaussIntegratorFactory.java:184 | weights summing to 2 on [-1, 1] sum to b - a after the transform |
| GaussTransform.Legendre | hipparchus-1.2/hipparchus-core/src/main/java/org/hipparchus/analysis/integration/gauss/GaussIntegratorFactory.java:87-93 | no integrator for a count that is not positive; otherwise an integrator exactly when the transformed points are strictly increasing, holding the rule's points remapped to [a, b] and its weights scaled |
| GaussTransform.IncreasingRuleAccepted | hipparchus-1.2/hipparchus-core/src/main/java/org/hipparchus/analysis/integration/gauss/GaussIntegratorFactory.java:179-183 | an increasing rule stays strictly increasing on [a, b] with b > a |
| GaussTransform.RemapNonIncreasing | hipparchus-1.2/hipparchus-core/src/main/java/org/hipparchus/analysis/integration/gauss/GaussIntegratorFactory.java:179-183 | for b <= a the point map does not increase |
| GaussTransform.ReversedIntervalRefused | hipparchus-1.2/hipparchus-core/src/main/java/org/hipparchus/analysis/integration/gauss/GaussIntegratorFactory.java:179-183 | for b <= a an increasing rule of two or more points is no longer strictly increasing |
| GaussTransform.LegendreAcceptsIff | hipparchus-1.2/hipparchus-core/src/main/java/org/hipparchus/analysis/integration/gauss/GaussIntegratorFactory.java:87-93 | for an increasing rule of two or more points the integrator is built iff b > a |

## Left out

- The Orekit and Hipparchus propagation and physics are not part of this model: the integrator, frames, force models, orbit, environment and the spacecraft state's orbit. They are numerics over foreign libraries.
- `StepHandler.propagateAttitude` does not compile (it uses undefined fields), so it is not modelled. Only `wilcox` and `handleStep` are. `handleStep` has no effect and is modelled as a method with an empty frame.
- Floating point is not modelled: doubles are reals, with no rounding, NaN or infinity. The one exception is the memcached torque command, whose non-finite readings are an explicit case of `PwmReading`.
- `FastMath.round` is modelled as floor(x + 1/2), saturated at the long range.
- Transcendental functions are parameters: `exp` for the low-pass filter, `sqrt` for magnitudes and `Quaternion.normalize`, `acos` for the nadir angle, and pi.
- Memcached reads and writes are inputs and outputs: the PWM reading in the torque provider and the export list of the ground station. Sockets, the VTS link and the log and ephemeris writers are not modelled. An ephemeris entry is recorded as the offset at which it is written.
- The real-time branch of `NumericalSimulator.process` is not modelled. It runs on a `ScheduledExecutorService` and involves concurrency.
- Inside `MainSimulationTask.run`, the propagation call, the ground-station mission, the payload and VTS updates and the exit logging are not modelled. Only the offset, the counter and the ephemeris cadence are.
- Simulation.ProcessWallClock: requires a positive integration step. With a negative step the Java loop never ends. The dashboard setter only stores positive steps.
- Simulation.NumericalSimulator.Process: models only the non-real-time branch and requires a positive step, as above.
- Simulation.NumericalSimulator.Initialize: the construction of the Orekit environment, satellite, dynamics and ground station between the check and the first ephemeris is not modelled.
- Simulation.EphemerisOffsets: its own contract states only the bound of one entry per tick. The exact count is `EphemerisCount`.
- The setters of settings the core never reads are not modelled: orbital parameters, box size, noise intensities, ephemeris path and `configureLogging`.
- DashboardModel.Configuration.CheckConfiguration: requires a nonzero inertia diagonal when check 4 evaluates Euler's equations. Java would compute infinities there instead.
- RigidBody.EulerEquations: requires a nonzero inertia diagonal. Java would divide by zero into infinity or NaN.
- InfraredSensors.SensorData.CalculateAngleFromNadir: requires a nonzero nadir magnitude, for the same reason, and a side normal at least as long as the nadir vector, where Java throws ArrayIndexOutOfBoundsException.
- `AngleFromNadirVector` is modelled through `CalculateAngleFromNadir`, which stores its result. The `cos` and `pow(-1)` combination in the rest of `NadirVectorDetermination` is not modelled; only its thresholding pass is.
- The three `InfraredSensor` classes, the randomised sensors and disturbances, the stubbed controller classes, `HackMemcachedTranscoder` and the program entry points are not part of this model.
- RawTranscoder.Encode: the maximum size `CachedData.MAX_SIZE` is a parameter. The binary64 bit pattern of a double is taken as given (`doubleToLongBits` is not modelled).
- RigidBody.TorqueToSpinDerivatives: `Assembly.cs1_inertia`, which is not defined in the sources, is a parameter. The provider's torque is an input.
- The dashboard refers to `Torques.activeTorqueProvider`, while `Torques` declares `commandTorqueProvider`. The two are taken to be one setting.
- `Integration` passes one provider where `RotAccProvider` takes a list. The model takes the list.
- SatelliteStatesModel.SatelliteStates.constructor: the initial theta is a parameter, and the orbit is reduced to its date.
- The JD1950 day fraction in `IO.java` uses integer division, so its hour and minute terms are always 0. `IO.java` is not part of this model.
- Bdot.B_Dot.ComputeDipole: as written no call succeeds. The `BdotEstimator` constructor (BdotEstimator.java:31-35) never assigns `mag` or `lastMagFieldReading`, so `getFirstOrderDiff` throws a null-pointer exception at its first line (:42). The model assumes an initialised magnetometer, whose reading `mag.retrieveNoisyField()` is the parameter `magReading`, and an initialised previous reading, the precondition `lastMagFieldReading.Some?`. No constructed object meets that precondition, since nothing in the source sets the first reading.
- Bdot.BdotEstimator.GetFirstOrderDiff: the same assumptions: `magReading` stands for the magnetometer's reading and a previous reading is required, where Java throws at BdotEstimator.java:42-43.
- Bdot.BdotEstimator.ComputeBdot: the same assumptions, through `GetFirstOrderDiff`.
- DashboardModel.Configuration.SetTorqueScenario: requires a nonzero inertia diagonal when the scenario starts at offset 0, where Java's Euler step would divide by zero into infinity or NaN.
- Simulation.NumericalSimulator.Initialize: requires a nonzero inertia diagonal when check 4 evaluates Euler's equations, for the same reason.
- LowPass.LowPassFilter.Scalar: requires tc != 0; Java computes exp(spms/0), an infinity or NaN.
- LowPass.LowPassFilter.Vector: requires tc != 0, as above.
- LowPass.LowPassFilter.ProcessSample3d: requires a vector state; on a filter built by the scalar constructor `state3d` is null and Java throws a null-pointer exception.
- InfraredVectors.DotProduct: requires B at least as long as A; Java throws ArrayIndexOutOfBoundsException otherwise.
- InfraredVectors.BasicVectorOperations: requires B at least as long as A for "add" and "minus", as above; InfraredVectors.Combine and InfraredVectors.DotSeq, the functions behind them, carry the same precondition.
- GroundStationModel.GroundStation.ExecuteMission: exports the field texts. Java exports `toRawByteArray(Double.valueOf(text))` of each; the parse is `TleFormat.ValueOf` and the bytes are `RawTranscoder.ToRawByteArray`, but the binary64 bit pattern between them is not modelled. A text that does not parse throws a NumberFormatException that the mission does not catch (it catches only `OrekitException`); the model does not represent that exit.
- GaussTransform.Legendre: the rule factory and `GaussIntegrator.java` are not part of this model. The rule for n points is a parameter, and the integrator's refusal of points that are not strictly increasing follows Hipparchus' documented constructor check.

## Findings

| source | as written | input that shows it | evidently intended | confidence | as-written member | corrected member |
|---|---|---|---|---|---|---|
| simulator/src/main/java/msp/simulator/dynamic/torques/RotAccelerationProvider.java:80-81 | the y and z accelerations are divided by I1 | inertia diag(1,2,3), zero spin, torque (0,2,0): the second axis gets 2 | Euler's equations, dividing by I2 and I3: the second axis gets 1 | high, not executed | RigidBody.RotAccelerationAsWritten, RigidBody.RotAccelerationCounterexample | RigidBody.EulerEquations, RigidBody.EulerEquationsUnique |
| simulator/src/main/java/msp/simulator/satellite/ADCS/Controller/B_Dot.java:36 | the duty cycle is 1.0·bdot + 1.0·gains, a sum | any B-dot with components below 53999.9 in magnitude: the dipole is always (-0.1, -0.1, -0.1) | gains × bdot component-wise, a dipole opposing B-dot | high, not executed | Bdot.DutyCycleAsWritten, Bdot.AsWrittenDipoleIsConstant | Bdot.DutyCycleCorrected, Bdot.CorrectedDipoleOpposesBdot |
| simulator/src/main/java/msp/simulator/groundStation/GroundStation.java:144-145 | the exponential fields keep the mantissa digits and only the exponent's digit, dropping its sign and the implied "0." | field "-11606-4" (value -0.000011606) exports text that reads as -116060000.0; latent as written, since GroundStation.java:97 and :101 fix both exponential fields at 0 | sign, "0.", mantissa, "e", signed exponent | medium, not executed | TleFormat.ExponentFieldAsWritten, TleFormat.AsWrittenExponentCounterexample | TleFormat.ExponentFieldCorrected, TleFormat.CorrectedExponentValue |
| simulator/src/main/java/msp/simulator/satellite/ADCS/Estimators/BdotEstimator/LowPassFilter.java:35 | the scalar filter uses α = exp(+spms/tc), above 1 | any positive tc and spms, state != sample: the state moves away from the sample | α = exp(-spms/tc) as in the vector constructor | medium, not executed | LowPass.LowPassFilter.Scalar, LowPass.ScalarFilterDiverges | LowPass.CorrectedScalarAlpha, LowPass.CorrectedScalarFilterConverges |

`GroundStation.ExecuteMission` and `B_Dot.ComputeDipole` keep the behaviour as
written, because the exported text and the commanded dipole are what the
program does. The corrected definitions are proved beside them.
