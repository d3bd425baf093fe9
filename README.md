# Conical-tank brine blending plant: plant model, MPC and real-time service

This project is a Dafny model of the simulation core of a brine blending
plant. The plant has two cylindrical utility reservoirs. Reservoir A holds
pure water and reservoir B holds brine at 360 kg/m3. They feed three
truncated-cone process tanks, C, D and E. Each process tank has a water pump,
a brine pump and an outlet valve. The model covers five parts:

- **Params** (`params.dfy`): the plant constants. These are the geometry, the
  pump and valve gains, the operating point, the block-diagonal continuous
  linearisation, the level, concentration, actuator and rate limits, the MPC
  horizons and weights, and the state and control orders the service layer
  uses. It also holds the frustum area and volume helpers and `np.clip`.
- **Tanks** (`tanks.dfy`): the two tank classes.
  - The cylindrical reservoir has non-negative flows and `dh/dt = (Qin - Qout) / A`.
    Its RK4 step collapses to one Euler step, clipped to `[0, hmax]`.
  - The frustum process tank has clipped commands and a Torricelli outlet
    `kv * u3 * sqrt(max(h, 0))`. It has level and concentration balances. The
    level derivative is 0 when the cross-section is below 1e-9, and the
    concentration derivative is 0 when the liquid volume is below 1e-9. Its RK4 step
    advances the level and the concentration together, then clips each to its range.
- **System** (`system.dfy`): `SistemaCompleto`, the five tanks together.
  - State and control conversion: vector, dictionary or cached input, actuator
    clipping, and length errors.
  - One plant step: commands first, then the reservoir demands, the reservoirs,
    and the process tanks.
  - `definir_estado` with clamping.
  - `integrar_passo`: `dt <= 0` does nothing, the method name is normalised,
    and the loop runs sub-steps of `min(ref, remaining)` until at most 1e-9 is left.
- **Control** (`control.dfy`): the controllers.
  - The per-tank model extraction.
  - The per-tank MPC. It builds the optimisation problem as symbolic
    constraint and cost lists: the prediction loop with move blocking beyond
    the control horizon, level bands with slack, gated overshoot and
    undershoot bounds, and move and rate bounds. It then follows the recovery
    ladder: optimal, then a reduced retry, then a conservative blend, and it
    holds the previous command when the solver raises.
  - The PI controllers of the reservoirs, with anti-windup.
  - `SistemaControle`, which routes the five controllers over the measured
    state and the references.
- **Realtime** (`realtime.dfy`): the real-time service.
  - Its state is ordered dictionaries of variables, set-points and controls.
  - Initialisation at the equilibrium point builds `<tank>_level` and
    `<tank>_concentration` keys.
  - The first-order integration each key follows toward its set-point, with
    optional noise and clamping by key name.
  - The proportional pump nudge, and set-point updates.
  - Pause, resume, reset and shutdown.
  - One pass of the real-time loop.

Functions the source calls but does not define are parameters of the model:

- `sqrt` is a `real -> real` parameter that satisfies `IsSqrt`.
- The zero-order-hold discretisation is a `Discretizer` parameter.
- The QP solver is a `Solver` parameter. It maps a problem to `Raised`, or to
  a status with the first move.
- The noise draw is a `Sampler` parameter.
- The clock, the session identifier, the web-socket send and the sleep are
  arguments of the service methods.

## Model

| member | source | states |
|---|---|---|
| Params.ContinuousA | app/src/simulation/parametros_sistema.py:136-147 | the continuous A matrix is 8x8 and diagonal: every off-diagonal entry is 0 |
| Params.Clip | app/src/simulation/parametros_sistema.py:416-428 | `np.clip`: with lo <= hi the result lies in [lo, hi] and equals v exactly when v is already in range; with lo > hi the result is hi |
| Params.FrustumArea | app/src/simulation/parametros_sistema.py:378-394 | the cross-section is non-negative, is the bottom circle at h = 0 and the top circle at h = hmax |
| Params.FrustumVolume | app/src/simulation/parametros_sistema.py:397-413 | the liquid volume is 0 at h = 0 and non-negative for h >= 0 |
| Params.StateVectorAligned | app/src/simulation/parametros_sistema.py:325-355 | the operating state vector has the state order's length, 8, and entry i is the operating value of state name i |
| Params.ControlVectorAligned | app/src/simulation/parametros_sistema.py:328-372 | the operating control vector has the control order's length, 11, and entry i is the operating value of control name i |
| Params.EquilibriumActuatorsInRange | app/src/simulation/parametros_sistema.py:211-226 | every operating command lies within its actuator limits |
| Params.EquilibriumStateInLimits | app/src/simulation/parametros_sistema.py:199-208 | 0 <= h_min <= h_eq <= h_max <= tank height, C_min <= C_eq <= C_max = CB, and both reservoir set-points lie within the reservoir height |
| Params.HorizonsOrdered | app/src/simulation/parametros_sistema.py:240-243 | Np = 40, Nc = 20 and Np > Nc >= 1 |
| Tanks.NonNegative | app/src/simulation/modelo_tanques.py:62-63 | `max(0, x)`: non-negative, x itself when x >= 0, 0 otherwise |
| Tanks.CylinderStepIsEuler | app/src/simulation/modelo_tanques.py:74-105 | with constant flows the reservoir's RK4 step equals the clipped Euler step h0 + dt (Qin - Qout) / A |
| Tanks.CylindricalTank.constructor | app/src/simulation/modelo_tanques.py:31-58 | the reservoir holds its name, radius, height, level and concentration, with both flows zero |
| Tanks.CylindricalTank.SetFlows | app/src/simulation/modelo_tanques.py:60-63 | both flows are replaced by their non-negative parts |
| Tanks.CylindricalTank.LevelDerivative | app/src/simulation/modelo_tanques.py:65-72 | (Qin - Qout) / A, independent of the level; CylinderStepIsEuler uses that to reduce the RK4 step to one Euler step |
| Tanks.CylindricalTank.Volume | app/src/simulation/modelo_tanques.py:107-109 | a non-negative level gives a non-negative volume |
| Tanks.CylindricalTank.Update | app/src/simulation/modelo_tanques.py:74-105 | the new level is the RK4 step of the level balance, clipped to [0, hmax]; it is returned with the unchanged concentration |
| Tanks.FrustumTank.constructor | app/src/simulation/modelo_tanques.py:123-168 | the tank holds its geometry, gains, level and concentration, with all three commands zero |
| Tanks.FrustumTank.SetControls | app/src/simulation/modelo_tanques.py:170-181 | each command is clipped to [0, 1] |
| Tanks.FrustumTank.Update | app/src/simulation/modelo_tanques.py:251-303 | the new level and concentration are one joint RK4 step of the two balances, clipped to [0, hmax] and [0, CB]; both are returned |
| Tanks.FrustumTank.Radius | app/src/simulation/modelo_tanques.py:183-187 | the radius is the bottom radius at h = 0 and the top radius at h = hmax |
| Tanks.FrustumTank.Area | app/src/simulation/modelo_tanques.py:189-194 | the cross-section at height h; GeometryMatchesHelpers ties it to `Params.FrustumArea`, whose contract gives non-negativity and the end circles |
| Tanks.FrustumTank.Volume | app/src/simulation/modelo_tanques.py:196-203 | the liquid volume to height h; GeometryMatchesHelpers ties it to `Params.FrustumVolume`, whose contract gives 0 when empty and non-negativity |
| Tanks.FrustumTank.FlowsAt | app/src/simulation/modelo_tanques.py:205-216 | the water, brine and outlet flows; TorricelliAtEmpty and FlowsAreOriented state their properties |
| Tanks.FrustumTank.LevelRate | app/src/simulation/modelo_tanques.py:218-231 | dh/dt at a level; LevelFollowsNetInflow states its sign and its guard |
| Tanks.FrustumTank.LevelFollowsNetInflow | app/src/simulation/modelo_tanques.py:218-231 | above the 1e-9 area guard the level rises exactly when the pumps deliver more than the outlet drains, and holds exactly when they balance; below the guard its rate is 0 |
| Tanks.FrustumTank.ConcentrationRate | app/src/simulation/modelo_tanques.py:233-249 | dC/dt at a level and concentration; NoConcentrationChangeWhenEmpty and BalancedInflowHasNoRate state its properties |
| Tanks.FrustumTank.LevelDerivative | app/src/simulation/modelo_tanques.py:218-231 | LevelRate at the tank's current commands and level |
| Tanks.FrustumTank.ConcentrationDerivative | app/src/simulation/modelo_tanques.py:233-249 | ConcentrationRate at the tank's current commands, level and concentration |
| Tanks.FrustumTank.Step | app/src/simulation/modelo_tanques.py:251-303 | the coupled RK4 step; Update is proved to compute it, and PureBrineStaysPure and PureWaterStaysPure state what it keeps |
| Tanks.FrustumTank.GeometryMatchesHelpers | app/src/simulation/modelo_tanques.py:183-203 | the tank's own area and volume agree with the module-level frustum helpers |
| Tanks.FrustumTank.TorricelliAtEmpty | app/src/simulation/modelo_tanques.py:205-216 | the outlet flow is 0 at or below an empty level |
| Tanks.FrustumTank.FlowsAreOriented | app/src/simulation/modelo_tanques.py:205-216 | the pump flows are gain times command; the outlet flow is non-negative for a non-negative valve gain and opening |
| Tanks.FrustumTank.NoConcentrationChangeWhenEmpty | app/src/simulation/modelo_tanques.py:233-249 | the concentration rate is 0 whenever the liquid volume is below 1e-9, and in particular at level 0 |
| Tanks.FrustumTank.PureBrineStaysPure | app/src/simulation/modelo_tanques.py:233-303 | with the water pump off, a tank at CB stays at CB after a step |
| Tanks.FrustumTank.PureWaterStaysPure | app/src/simulation/modelo_tanques.py:233-303 | with the brine pump off, a tank of pure water stays pure after a step |
| Tanks.FrustumTank.BalancedInflowHasNoRate | app/src/simulation/modelo_tanques.py:233-249 | when the salt that flows in equals the concentration times the inflow, the concentration rate is 0 |
| System.ControlKeysAreControlOrder | app/src/simulation/parametros_sistema.py:328-340 | the control-key set is exactly the members of the control order |
| System.ControlOrderDistinct | app/src/simulation/parametros_sistema.py:328-340 | the eleven control names are pairwise distinct |
| System.StateOrderDistinct | app/src/simulation/parametros_sistema.py:325 | the eight state names are pairwise distinct |
| System.KeyedControls | app/src/simulation/modelo_tanques.py:398-404 | zipping the control order with 11 values gives a map over exactly the control keys, with name i bound to value i |
| System.ActuatorRangesOrdered | app/src/simulation/parametros_sistema.py:211-226 | every actuator range, in control order, has lo <= hi |
| System.StateFromInput | app/src/simulation/modelo_tanques.py:426-446 | no input gives the cache; a dictionary gives, at each position i, the entry of state name i when present and otherwise cached value i; a vector is accepted exactly when it has 8 entries, and otherwise the error is its length |
| System.FullStateDictIgnoresCache | app/src/simulation/modelo_tanques.py:430-437 | a dictionary with all eight names gives the same vector whatever the cache, namely its own entries in state order |
| System.EmptyStateDictIsCache | app/src/simulation/modelo_tanques.py:430-437 | a dictionary with none of the names gives the cache |
| System.ControlValuesFromInput | app/src/simulation/modelo_tanques.py:448-467 | no input gives the cached commands in control order; a dictionary takes each entry or else the cached one; a vector is accepted exactly when it has 11 entries, and otherwise the error is its length |
| System.Lower | app/src/simulation/modelo_tanques.py:620 | lower-casing keeps the length and leaves no capital; each character is kept or is a capital turned into its lower-case letter; a string without capitals is returned unchanged |
| System.LowerIdempotent | app/src/simulation/modelo_tanques.py:620 | lower-casing twice is the same as lower-casing once |
| System.MethodName | app/src/simulation/modelo_tanques.py:603-620 | the method name the integration uses: "rk4" for a missing or empty name, otherwise the lower-cased name; its meaning is stated by the two lemmas below |
| System.MethodNameDefaults | app/src/simulation/modelo_tanques.py:603-620 | a missing or empty method name becomes "rk4" |
| System.MethodNameIsRk4 | app/src/simulation/modelo_tanques.py:620-625 | a non-empty name selects RK4 exactly when it is "rk4" in any mix of upper and lower case |
| System.MethodNameIsEuler | app/src/simulation/modelo_tanques.py:620-625 | a non-empty name selects Euler exactly when it is "euler" in any mix of upper and lower case |
| System.SubStepsBounded | app/src/simulation/modelo_tanques.py:625-631 | every sub-step of the integration loop is positive and at most the reference step |
| System.SubStepsCoverInterval | app/src/simulation/modelo_tanques.py:626-631 | the sub-steps add up to dt within the 1e-9 tolerance, and never to more than dt |
| System.OneEulerStep | app/src/simulation/modelo_tanques.py:625-631 | with the Euler method (reference step = dt) a dt above the tolerance takes exactly one step of dt |
| System.NoStepWithinTolerance | app/src/simulation/modelo_tanques.py:628 | a dt within the tolerance takes no step |
| System.FirstMissing | app/src/simulation/modelo_tanques.py:511-537 | the index of the first key in a read order that the map lacks: every earlier key is present and this one is not |
| System.DriveOf | app/src/simulation/modelo_tanques.py:511-537 | the nine process-tank commands are clipped to [0, 1]; uA and uB are passed through unclipped |
| System.HasControlsIsControlKeys | app/src/simulation/modelo_tanques.py:498-506 | checking the eleven keys one by one is the same as including the control-key set |
| System.ReadOrderCoversControls | app/src/simulation/modelo_tanques.py:511-537 | the reads of a plant step get past the C, D and E commands exactly when those keys are present, and past all eleven exactly when every control is there |
| System.ClipEach | app/src/simulation/modelo_tanques.py:483-490 | the loop clips each listed key to its limits and keeps all other keys and values |
| System.ClipControls | app/src/simulation/modelo_tanques.py:469-492 | every control is clipped to its actuator range, in control order, and the map keeps exactly the control keys |
| System.TankSystem.DefaultControls | app/src/simulation/modelo_tanques.py:398-404 | the default control dictionary has exactly the eleven control keys, binds control name i to operating command i, and lies within the actuator ranges |
| System.TankSystem.NextState | app/src/simulation/modelo_tanques.py:522-563 | the 8-entry state after one plant step under a drive; StepPlant proves the in-place step reaches it |
| System.TankSystem.Iterate | app/src/simulation/modelo_tanques.py:626-631 | the 8-entry state after a list of sub-steps taken in order; IterateFirstSubStep and Integrate connect it to the loop |
| System.TankSystem.CurrentState | app/src/simulation/modelo_tanques.py:406-420 | the state vector has 8 entries, in state order |
| System.TankSystem.constructor | app/src/simulation/modelo_tanques.py:324-392 | the five tanks are new and the plant sits at the operating state vector; the control cache is the operating commands; A is pure water and B is brine |
| System.TankSystem.ControlsToDict | app/src/simulation/modelo_tanques.py:448-492 | fails exactly when the values fail, with the same error; otherwise gives exactly the control keys, each value clipped to its actuator range |
| System.TankSystem.ApplyCommands | app/src/simulation/modelo_tanques.py:511-520 | sets C, D and E one after the other, stopping at the first missing key; completes exactly when all nine keys are present, and then the tanks hold the clipped commands |
| System.TankSystem.StepPlant | app/src/simulation/modelo_tanques.py:522-563 | the reservoir flows are the non-negative supply and pump demands, the new state is NextState of the old one, and the cache and the returned vector are that state |
| System.TankSystem.StepReservoirs | app/src/simulation/modelo_tanques.py:522-544 | each reservoir's level takes its Euler step with supply gain times command in and the sum of the pump flows out |
| System.TankSystem.StepProcessTanks | app/src/simulation/modelo_tanques.py:546-549 | each process tank takes its own RK4 step under the commands applied to it |
| System.TankSystem.UpdateSystem | app/src/simulation/modelo_tanques.py:494-563 | fails exactly on a missing control and names the first one read; a failure before the reservoirs leaves the state and flows as they were; success advances the plant by one step and returns the new state |
| System.TankSystem.GetState | app/src/simulation/modelo_tanques.py:565-576 | refreshes the cache (its value does not change because the cache is kept equal to the tanks) and returns the state vector |
| System.TankSystem.IterateFirstSubStep | app/src/simulation/modelo_tanques.py:628-631 | iterating over the sub-steps is one NextState of min(ref, t) followed by the iteration over what remains |
| System.TankSystem.ClampedIsProjection | app/src/simulation/modelo_tanques.py:582-598 | the clamp of `definir_estado` always lands inside the ranges, keeps exactly the in-range vectors, and does nothing the second time |
| System.TankSystem.StoreState | app/src/simulation/modelo_tanques.py:582-600 | writing an in-range vector makes it the state |
| System.TankSystem.SetState | app/src/simulation/modelo_tanques.py:578-600 | fails exactly when the conversion fails, with its error and the state kept; otherwise the state is the clamped vector |
| System.TankSystem.SubStep | app/src/simulation/modelo_tanques.py:628-631 | one loop turn keeps the iteration over the remaining time equal to the target |
| System.TankSystem.Integrate | app/src/simulation/modelo_tanques.py:626-631 | the loop brings the state to the iteration of NextState over the sub-steps; with no sub-step the commands and flows are kept, otherwise the tanks hold the clipped commands and the reservoirs the supply and demand flows of the last update |
| System.TankSystem.IntegrateStep | app/src/simulation/modelo_tanques.py:602-633 | `dt <= 0` returns the state and changes nothing (state, cache, commands, flows); a control conversion error is returned with nothing changed; otherwise the cache takes the clipped commands, an unknown method is an error with the state, commands and flows kept, rk4 iterates over 0.5 s sub-steps, euler takes a single dt step, and the new state is returned; after at least one sub-step the tanks hold the clipped commands and the reservoirs the supply and demand flows |
| Control.Clip3Within | app/src/simulation/controlador_mpc.py:338-345 | an element-wise clip lands in the box and keeps a vector that is already inside it |
| Control.TankIndicesNameTheTank | app/src/simulation/controlador_mpc.py:76-90 | exactly C, D and E have indices; they select the tank's h and C states and its three commands from the global orders |
| Control.ExtractTankModel | app/src/simulation/controlador_mpc.py:62-101 | an unknown tank is an error naming it; otherwise Ad and Bd are the discretisation of the tank's blocks, Cd is the identity and Dd is zero |
| Control.TankBlockIsDecoupled | app/src/simulation/parametros_sistema.py:134-186 | a tank's rows of A and B are zero outside its own states and commands, so the extracted block is the whole tank model |
| Control.PredictedMembers | app/src/simulation/controlador_mpc.py:240-294 | a constraint is in the prediction loop's list exactly when it was there before or belongs to one step's block |
| Control.StepBlockMembers | app/src/simulation/controlador_mpc.py:240-294 | one prediction step adds its dynamics, integral, level-band and concentration-band entries, and the gated bounds whose sign conditions hold |
| Control.MoveBlocking | app/src/simulation/controlador_mpc.py:242-251 | every dynamics constraint uses move min(k, Nc - 1), and there is one for each step k < Np |
| Control.GatingSwitches | app/src/simulation/controlador_mpc.py:272-294 | each of the four overshoot and undershoot kinds appears exactly when gating is on, the horizon is not empty, and its sign condition on the reference deviation holds |
| Control.MixedSignsContradict | app/src/simulation/controlador_mpc.py:272-285 | a reference below the level point with a concentration above it gets both level bounds, and the two bounds are contradictory |
| Control.MovesMembers | app/src/simulation/controlador_mpc.py:297-308 | a constraint is in the move loop's list exactly when it was there before or belongs to one move's block |
| Control.MoveConstraints | app/src/simulation/controlador_mpc.py:297-308 | each move k < Nc gets both input bounds; rate bounds are only ±du_max, taken against the previous command for move 0 and against the preceding move afterwards |
| Control.EffortWithinControlHorizon | app/src/simulation/controlador_mpc.py:258-262 | effort cost terms occur exactly for the steps k < min(Np, Nc) |
| Control.ReducedHorizons | app/src/simulation/controlador_mpc.py:354-355 | the retry uses Np = 20 and Nc = 10, still with Np > Nc >= 1 |
| Control.Gates | app/src/simulation/controlador_mpc.py:272-294 | the gated overshoot and undershoot bounds of one prediction step; GatingSwitches states when each is present |
| Control.ProblemOf | app/src/simulation/controlador_mpc.py:216-308 | the constraint and cost lists the two loops build; PredictedMembers, MovesMembers, MoveBlocking, MoveConstraints and EffortWithinControlHorizon state what they contain |
| Control.Blend | app/src/simulation/controlador_mpc.py:415-421 | the conservative command; BlendMovesTowardEquilibrium states its properties |
| Control.BlendMovesTowardEquilibrium | app/src/simulation/controlador_mpc.py:415-421 | the conservative command's deviation is 0.9 times that of the previous command, and it stays in the box when both the previous command and the equilibrium are in it |
| Control.MpcController.constructor | app/src/simulation/controlador_mpc.py:122-197 | the controller holds its tank's discrete model, a zero integral and the equilibrium as its previous command |
| Control.MpcController.FullProblem | app/src/simulation/controlador_mpc.py:216-308 | ProblemOf at Np = 40, Nc = 20 with gating on, in deviations from the operating point |
| Control.MpcController.ReducedProblem | app/src/simulation/controlador_mpc.py:353-413 | ProblemOf at the reduced horizons with gating off; ReducedHorizons states those horizons |
| Control.MpcController.Step | app/src/simulation/controlador_mpc.py:327-427 | the recovery ladder from a given memory; LadderOrder, RungEffects, IntegralTracksError and CommandsWithinActuatorRange state its properties, and ComputeControl is proved to follow it |
| Control.MpcController.LadderOrder | app/src/simulation/controlador_mpc.py:327-427 | the result is held exactly when the full solve raises; optimal exactly when the full solve finishes accepted; recovered exactly when the full solve is not accepted and the retry is; conservative otherwise |
| Control.MpcController.RungEffects | app/src/simulation/controlador_mpc.py:338-427 | only the optimal rung moves the integral, by C x_dev - r_dev; the optimal and recovered rungs record the unclipped command and return it clipped; the conservative and held rungs keep the previous command |
| Control.MpcController.IntegralTracksError | app/src/simulation/controlador_mpc.py:338-345 | with the identity output matrix the integral grows by measured minus reference |
| Control.MpcController.CommandsWithinActuatorRange | app/src/simulation/controlador_mpc.py:338-421 | every command except the held one is within the actuator range; if the solver respects the problem's bounds and the previous command is in range, the held and stored commands are in range too |
| Control.MpcController.BuildProblem | app/src/simulation/controlador_mpc.py:216-308 | the two loops build exactly the constraint and cost lists ProblemOf describes |
| Control.MpcController.ComputeControl | app/src/simulation/controlador_mpc.py:199-427 | the returned command, the new integral and the new previous command are those of the ladder step |
| Control.MpcController.ResetIntegrator | app/src/simulation/controlador_mpc.py:429-431 | zeroes the integral |
| Control.PiController.constructor | app/src/simulation/controlador_mpc.py:447-462 | the gains are stored, the integral is zero, and the set-point is hA_eq for "A" and hB_eq for any other name |
| Control.PiController.PiStep | app/src/simulation/controlador_mpc.py:479-493 | the command lies in [0, 1] and the integral in [-10, 10] |
| Control.PiController.AntiWindup | app/src/simulation/controlador_mpc.py:485-486 | the integral is the accumulated value, or the bound it overshot |
| Control.PiController.PiStepMonotone | app/src/simulation/controlador_mpc.py:479-493 | with non-negative gains and period, a larger error never gives a smaller integral or command |
| Control.PiController.ComputeControl | app/src/simulation/controlador_mpc.py:468-493 | the command and the new integral come from the PI step on the set-point minus the measured level |
| Control.PiController.Reset | app/src/simulation/controlador_mpc.py:495-497 | zeroes the integral |
| Control.FirstMissingIsFirst | app/src/simulation/controlador_mpc.py:547-561 | the read index names the first missing key of `calcular_acoes`'s fourteen reads |
| Control.RouteKeysAreControls | app/src/simulation/controlador_mpc.py:563-575 | the returned map's keys are exactly the control names |
| Control.RouteFollowsControlOrder | app/src/simulation/controlador_mpc.py:563-575 | each control name in order is bound to its controller's command: uA, uB, then the three commands of C, D and E |
| Control.ControlSystem.constructor | app/src/simulation/controlador_mpc.py:512-526 | three MPCs for C, D and E and two PIs for A and B with Kp = 15 and Ki = 0.25, all with zero memory and the reservoir set-points |
| Control.ControlSystem.ComputeActions | app/src/simulation/controlador_mpc.py:532-575 | the result and the new controller memory are those of Actions |
| Control.ControlSystem.ActionsFailOnMissingKey | app/src/simulation/controlador_mpc.py:547-561 | the call fails exactly when one of the fourteen keys is missing |
| Control.ControlSystem.ActionsReportFirstMissingKey | app/src/simulation/controlador_mpc.py:547-561 | the failure names the first missing key in read order |
| Control.ControlSystem.ActionsKeepUnreached | app/src/simulation/controlador_mpc.py:547-561 | a controller that comes after the missing key keeps its memory |
| Control.ControlSystem.ActionsStepReservoirs | app/src/simulation/controlador_mpc.py:547-548 | once its level has been read, each reservoir PI steps on it |
| Control.ControlSystem.ActionsStepTanks | app/src/simulation/controlador_mpc.py:551-561 | once its four keys have been read, each MPC steps on its measured state and reference |
| Control.ControlSystem.ActionsRouteCommands | app/src/simulation/controlador_mpc.py:547-575 | with every key present the call succeeds with the routed commands, and uA and uB lie in [0, 1] |
| Control.ControlSystem.ReservoirsIgnoreReferences | app/src/simulation/controlador_mpc.py:547-548 | the reservoir integrals do not depend on the references |
| Realtime.Put | app/src/services/realtime_service.py:163-174 | a dictionary write keeps the dictionary well formed, sets the value, and keeps the key order when the key exists |
| Realtime.ContainsIsOccurrence | app/src/services/realtime_service.py:171-173 | Python's substring `in` holds exactly when the pattern occurs at some index |
| Realtime.EquilibriumStateWellFormed | app/src/services/realtime_service.py:77-80 | the initial state has distinct keys and no others |
| Realtime.EquilibriumStateEntries | app/src/services/realtime_service.py:77-80 | its keys are exactly each level key plus "_level" and each concentration key plus "_concentration", and each carries its source value |
| Realtime.EquilibriumState | app/src/services/realtime_service.py:77-80 | the initial variables; EquilibriumStateWellFormed and EquilibriumStateEntries state their keys and values |
| Realtime.Drift | app/src/services/realtime_service.py:158-163 | the first-order step toward a set-point; DriftApproachesSetpoint states its property |
| Realtime.DriftApproachesSetpoint | app/src/services/realtime_service.py:158-163 | for 0 <= dt <= tau the first-order step stays between the value and its set-point |
| Realtime.Limit | app/src/services/realtime_service.py:170-174 | the clamp by key name; LimitBounds states it |
| Realtime.LimitBounds | app/src/services/realtime_service.py:170-174 | keys containing "level" end in [0, 3]; other keys containing "concentration" end in [0, 360]; all other keys are left alone |
| Realtime.IntegrateKeys | app/src/services/realtime_service.py:153-174 | the integration pass over a key list, stopping at a raising draw; IntegrateKeysWithoutNoise states its noise-free result |
| Realtime.Integrated | app/src/services/realtime_service.py:143-174 | the pass over all variables; IntegratedWithoutNoise states its noise-free result and IntegrateStep is proved to compute it |
| Realtime.IntegrateKeysWithoutNoise | app/src/services/realtime_service.py:153-174 | with noise off, a pass over distinct keys succeeds, keeps the keys, moves each visited key with a set-point to its limited step, and keeps every other value |
| Realtime.IntegratedWithoutNoise | app/src/services/realtime_service.py:143-174 | with noise off, the service's pass moves every variable with a set-point to its limited step and keeps the rest |
| Realtime.ControlFor | app/src/services/realtime_service.py:198-221 | the pump a variable drives, first matching pattern first; ControlForNamesAPump states which variables have one |
| Realtime.Nudge | app/src/services/realtime_service.py:176-196 | one set-point key's proportional pump move |
| Realtime.NudgeKeys | app/src/services/realtime_service.py:176-196 | the nudge over the set-point keys in order; NudgeKeysMovesOnlyPumps states its properties and UpdateControls is proved to compute it |
| Realtime.ControlForNamesAPump | app/src/services/realtime_service.py:198-221 | a variable maps to a pump exactly when it mentions one of the six tank variables, and the result is always one of the six pumps |
| Realtime.NudgeKeysMovesOnlyPumps | app/src/services/realtime_service.py:176-196 | the nudge keeps the control keys and their order, never moves a non-pump control, and a moved pump ends in [0, 1] |
| Realtime.RealTimeService.constructor | app/src/services/realtime_service.py:34-60 | stopped, not paused, no session or configuration, empty dictionaries, a 0.5 s interval and the time base at now |
| Realtime.RealTimeService.Initialize | app/src/services/realtime_service.py:62-93 | stores the configuration and session, and sets the state to the equilibrium (the set-points equal it); the controls are the equilibrium controls, and the service is running, not paused, at now |
| Realtime.RealTimeService.UpdateSetpoint | app/src/services/realtime_service.py:223-237 | overwrites `<tank>_<variable>` only if that key exists |
| Realtime.RealTimeService.Pause | app/src/services/realtime_service.py:255-258 | pauses |
| Realtime.RealTimeService.Resume | app/src/services/realtime_service.py:260-264 | unpauses and moves the time base to now |
| Realtime.RealTimeService.Reset | app/src/services/realtime_service.py:266-276 | with a configuration, goes back to its equilibrium at now; without one, changes nothing |
| Realtime.RealTimeService.Shutdown | app/src/services/realtime_service.py:278-281 | stops the loop |
| Realtime.RealTimeService.IntegrateStep | app/src/services/realtime_service.py:143-174 | the loop over the variables gives exactly the Integrated pass, stopping at a raising noise draw |
| Realtime.RealTimeService.UpdateControls | app/src/services/realtime_service.py:176-196 | the loop over the set-points gives exactly the NudgeKeys pass |
| Realtime.RealTimeService.LoopIteration | app/src/services/realtime_service.py:95-141 | a stopped service leaves the loop; a paused one only sleeps; otherwise it integrates over now - lastUpdate, nudges, moves the time base and sends the new message; a raising draw, a failed send or a cancelled sleep ends the loop |
| Realtime.RealTimeService.CurrentState | app/src/services/realtime_service.py:239-253 | the snapshot holds the three dictionaries, the two flags and the session |

## Left out

- `np.sqrt`, `scipy.signal.cont2discrete` and the CVXPY solve are parameters (`IsSqrt`, `Discretizer`, `Solver`). Nothing is claimed about optimality or about the discretisation's numbers.
- `np.pi` is the constant `PI`, and the only fact about it that the proofs use is PI > 0.
- Floating-point rounding is not modelled; all quantities are `real`. The model therefore claims nothing about RK4 accuracy.
- System.StateFromInput: takes a vector as a flat sequence. The source accepts any array-like and flattens it (`np.array(..., dtype=float).flatten()`, modelo_tanques.py:439), so a nested 2x4 array is accepted there; nested inputs are not modelled.
- System.ControlValuesFromInput: likewise takes a flat sequence, where the source flattens any array-like (modelo_tanques.py:459).
- System.Lower: models only ASCII case mapping. Python's `str.lower` also maps non-ASCII letters (U+212A KELVIN SIGN becomes 'k', for instance), so a name such as "r\u212A4" is an unknown method here but RK4 in the source.
- Params.FrustumArea: requires a non-zero tank height. The source divides by `h_maxima` and raises `ZeroDivisionError` at height 0 (parametros_sistema.py:392); that error is not modelled.
- Params.FrustumVolume: requires a non-zero tank height, for the same reason (parametros_sistema.py:410).
- Tanks.FrustumTank.constructor: requires a non-zero height. The source computes `(raio_superior - raio_inferior) / altura_max` (modelo_tanques.py:156) and raises `ZeroDivisionError` at height 0; that error is not modelled. The default arguments (initial level 1.5, initial concentration 180.0; modelo_tanques.py:132-133) are not modelled: every caller passes both.
- Tanks.CylindricalTank.constructor: the default arguments (initial level 1.5, concentration 0.0; modelo_tanques.py:36-37) are not modelled: every caller passes both.
- Control.PiController.constructor: the default gains (Kp = 0.5, Ki = 0.1; controlador_mpc.py:447) are not modelled: both callers pass Kp = 15 and Ki = 0.25.
- `Tanks.CylindricalTank.constructor` requires a non-zero area. The source divides by `pi r^2`, and the radius alone does not rule out zero here.
- `Control.MpcController.constructor` requires a known tank. The source raises in `extrair_modelo_tanque` before the controller exists, and `ExtractTankModel` models that error.
- The optimisation problem is symbolic: constraints and costs are data. The CVXPY expression objects are not modelled.
- Printing, logging and `__repr__` are left out, and so is the `__main__` demo.
- The FastAPI application, the web-socket connection manager, `simulation_services.py` and the pydantic models are not part of this model. A Python dictionary is modelled as `Dict`, a key sequence (the insertion order) plus a map; `WellFormed` restores what a Python `dict` guarantees by itself (distinct keys, the same keys in both parts), and the configuration's equilibrium dictionaries are assumed to satisfy it (`ConfigWellFormed`).
- `np.random.normal` is the `Sampler` parameter. A draw with a negative scale raises in NumPy; the model captures that through `DrawRaises`, and the loop then ends.
- `time.time()`, `uuid.uuid4()`, `websocket.send_json` and `asyncio.sleep` are arguments. A send failure or cancellation is `sent = false` or `slept = false`.
- Realtime.RealTimeService.LoopIteration: models one pass of `run_realtime_loop`, not the unbounded `while` loop around it.
- Control.MpcController.ComputeControl: the held path returns the stored previous command itself, not a copy. Aliasing of NumPy arrays is not modelled.
- The service's unused constants (brine concentration, gravity) are left out.
