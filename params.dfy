/**
 * The immutable parameter set of the five-tank plant: geometry, actuator gains,
 * the nominal operating point, physical and actuator limits, the continuous
 * linearisation, the MPC horizons and weights, the state and control orderings
 * and the three geometry helpers (frustum area, frustum volume, clip).
 */
module Params {

  // ---------------------------------------------------------------------------
  // Simulation timing
  // ---------------------------------------------------------------------------

  /** Suggested total simulation time (s). */
  const TotalTime: real := 3000.0
  /** Micro-step of the non-linear integrator (s). */
  const IntegrationStep: real := 0.5
  /** Sample period of the MPC controllers (s). */
  const ControllerPeriod: real := 5.0

  /** numpy's `pi`, as the float literal it is. */
  const PI: real := 3.141592653589793

  // ---------------------------------------------------------------------------
  // Geometry and actuator gains
  // ---------------------------------------------------------------------------

  /** The three frustum-shaped process tanks. */
  datatype ProcessTank = TankC | TankD | TankE

  /** Geometry of one process tank (all three are identical). */
  datatype FrustumSpec = FrustumSpec(rBottom: real, rTop: real, maxHeight: real)

  function ProcessGeometry(t: ProcessTank): FrustumSpec
  {
    match t
    case TankC => FrustumSpec(0.75, 1.25, 3.00)
    case TankD => FrustumSpec(0.75, 1.25, 3.00)
    case TankE => FrustumSpec(0.75, 1.25, 3.00)
  }

  /** Radius and height of the two cylindrical utility reservoirs A and B. */
  const ReservoirRadius: real := 1.75
  const ReservoirMaxHeight: real := 3.00

  /** Torricelli discharge coefficient of each outlet valve (Q = kv * u * sqrt(h)). */
  function ValveGain(t: ProcessTank): real { 0.016 }
  /** Gain of each water pump (Q = kp * u). */
  function WaterPumpGain(t: ProcessTank): real { 0.008 }
  /** Gain of each brine pump (Q = kp * u). */
  function BrinePumpGain(t: ProcessTank): real { 0.008 }

  /** Gains of the reservoir supply valves. */
  const SupplyGainA: real := 0.048
  const SupplyGainB: real := 0.048

  // ---------------------------------------------------------------------------
  // Nominal operating point (also the default initial conditions)
  // ---------------------------------------------------------------------------

  const HA_EQ: real := 1.50
  const HB_EQ: real := 1.50
  /** Level of each process tank at equilibrium. */
  const H_EQ: real := 1.50
  /** Concentration of each process tank at equilibrium (kg/m3). */
  const C_EQ: real := 180.0
  const UA_EQ: real := 0.306
  const UB_EQ: real := 0.306
  /** Water pump, brine pump and outlet valve of each process tank at equilibrium. */
  const U1_EQ: real := 0.6125
  const U2_EQ: real := 0.6125
  const U3_EQ: real := 0.50
  const Q_WATER_EQ: real := 0.0049
  const Q_BRINE_EQ: real := 0.0049

  /** Brine concentration (kg/m3). */
  const CB: real := 360.0

  // ---------------------------------------------------------------------------
  // Continuous linearisation (block diagonal)
  // ---------------------------------------------------------------------------

  const LAMBDA_H: real := -0.00104
  const LAMBDA_C: real := -0.00270

  type Matrix = seq<seq<real>>

  predicate IsMatrix(m: Matrix, rows: nat, cols: nat)
  {
    |m| == rows && forall i :: 0 <= i < rows ==> |m[i]| == cols
  }

  /** The 8x8 state matrix; only its diagonal is non-zero. */
  function ContinuousA(): (a: Matrix)
    ensures IsMatrix(a, 8, 8)
    ensures forall i, j :: 0 <= i < 8 && 0 <= j < 8 && i != j ==> a[i][j] == 0.0
  {
    var d := [0.0, 0.0, LAMBDA_H, LAMBDA_C, LAMBDA_H, LAMBDA_C, LAMBDA_H, LAMBDA_C];
    seq(8, i requires 0 <= i < 8 => seq(8, j requires 0 <= j < 8 => if i == j then d[i] else 0.0))
  }

  /** The 8x11 input matrix. */
  const ContinuousB: Matrix := [
    [0.00499, 0.0, -0.000831, 0.0, 0.0, -0.000831, 0.0, 0.0, -0.000831, 0.0, 0.0],
    [0.0, 0.00499, 0.0, -0.000831, 0.0, 0.0, -0.000831, 0.0, 0.0, -0.000831, 0.0],
    [0.0, 0.0, 0.00255, 0.00255, -0.00624, 0.0, 0.0, 0.0, 0.0, 0.0, 0.0],
    [0.0, 0.0, -0.396, 0.396, 0.0, 0.0, 0.0, 0.0, 0.0, 0.0, 0.0],
    [0.0, 0.0, 0.0, 0.0, 0.0, 0.00255, 0.00255, -0.00624, 0.0, 0.0, 0.0],
    [0.0, 0.0, 0.0, 0.0, 0.0, -0.396, 0.396, 0.0, 0.0, 0.0, 0.0],
    [0.0, 0.0, 0.0, 0.0, 0.0, 0.0, 0.0, 0.0, 0.00255, 0.00255, -0.00624],
    [0.0, 0.0, 0.0, 0.0, 0.0, 0.0, 0.0, 0.0, -0.396, 0.396, 0.0]
  ]

  // ---------------------------------------------------------------------------
  // Physical limits
  // ---------------------------------------------------------------------------

  /** Safe level band used by the MPC. */
  const H_MIN: real := 0.3
  const H_MAX: real := 2.7
  /** Concentration band. */
  const C_MIN: real := 0.0
  const C_MAX: real := 360.0

  /** Actuator ranges (all normalised). */
  const U1_MIN: real := 0.0
  const U1_MAX: real := 1.0
  const U2_MIN: real := 0.0
  const U2_MAX: real := 1.0
  const U3_MIN: real := 0.0
  const U3_MAX: real := 1.0
  const UA_MIN: real := 0.0
  const UA_MAX: real := 1.0
  const UB_MIN: real := 0.0
  const UB_MAX: real := 1.0

  /** Maximum change per control cycle of the three process-tank actuators. */
  const DELTA_U1_MAX: real := 0.5
  const DELTA_U2_MAX: real := 0.5
  const DELTA_U3_MAX: real := 0.4

  // ---------------------------------------------------------------------------
  // MPC horizons and weights
  // ---------------------------------------------------------------------------

  const NP: nat := 40
  const NC: nat := 20

  /** Diagonals of the tracking, effort and integral weights (shared by C, D and E). */
  const WEIGHT_Q: seq<real> := [300.0, 1000.0]
  const WEIGHT_R: seq<real> := [500.0, 500.0, 1000.0]
  const WEIGHT_I: seq<real> := [75.0, 250.0]

  const OVERSHOOT_LIMIT: real := 0.01
  const UNDERSHOOT_LIMIT: real := 0.01

  // ---------------------------------------------------------------------------
  // Orderings used by the service layer
  // ---------------------------------------------------------------------------

  const StateOrder: seq<string> := ["hA", "hB", "hC", "CC", "hD", "CD", "hE", "CE"]

  const ControlOrder: seq<string> :=
    ["uA", "uB", "uC1", "uC2", "uC3", "uD1", "uD2", "uD3", "uE1", "uE2", "uE3"]

  const EquilibriumStateVector: seq<real> :=
    [HA_EQ, HB_EQ, H_EQ, C_EQ, H_EQ, C_EQ, H_EQ, C_EQ]

  const EquilibriumControlVector: seq<real> :=
    [UA_EQ, UB_EQ, U1_EQ, U2_EQ, U3_EQ, U1_EQ, U2_EQ, U3_EQ, U1_EQ, U2_EQ, U3_EQ]

  /** Equilibrium value expected at a slot of the state vector. */
  function EquilibriumStateFor(name: string): real
  {
    if name == "hA" then HA_EQ
    else if name == "hB" then HB_EQ
    else if name in {"hC", "hD", "hE"} then H_EQ
    else C_EQ
  }

  /** Equilibrium value expected at a slot of the control vector (keyed by the last character). */
  function EquilibriumControlFor(name: string): real
  {
    if name == "uA" then UA_EQ
    else if name == "uB" then UB_EQ
    else if |name| == 3 && name[2] == '1' then U1_EQ
    else if |name| == 3 && name[2] == '2' then U2_EQ
    else U3_EQ
  }

  /** Actuator range of each control, aligned with ControlOrder (the per-key bound table of the model). */
  const ActuatorLimits: seq<(real, real)> :=
    [(UA_MIN, UA_MAX), (UB_MIN, UB_MAX),
     (U1_MIN, U1_MAX), (U2_MIN, U2_MAX), (U3_MIN, U3_MAX),
     (U1_MIN, U1_MAX), (U2_MIN, U2_MAX), (U3_MIN, U3_MAX),
     (U1_MIN, U1_MAX), (U2_MIN, U2_MAX), (U3_MIN, U3_MAX)]

  // ---------------------------------------------------------------------------
  // Helpers
  // ---------------------------------------------------------------------------

  /** numpy's clip: `min(max(v, lo), hi)`. */
  function Clip(v: real, lo: real, hi: real): (r: real)
    ensures lo <= hi ==> lo <= r <= hi
    ensures lo <= hi ==> (r == v <==> lo <= v <= hi)
    ensures lo > hi ==> r == hi
  {
    var m := if v < lo then lo else v;
    if m > hi then hi else m
  }

  /** Cross-section area of a frustum at liquid height h. */
  function FrustumArea(h: real, rBottom: real, rTop: real, maxHeight: real): (a: real)
    requires maxHeight != 0.0
    ensures a >= 0.0
    ensures h == 0.0 ==> a == PI * rBottom * rBottom
    ensures h == maxHeight ==> a == PI * rTop * rTop
  {
    var drdh := (rTop - rBottom) / maxHeight;
    var r := rBottom + drdh * h;
    assert h == maxHeight ==> r == rTop;
    PI * (r * r)
  }

  /** Liquid volume of a frustum filled to height h. */
  function FrustumVolume(h: real, rBottom: real, rTop: real, maxHeight: real): (v: real)
    requires maxHeight != 0.0
    ensures h == 0.0 ==> v == 0.0
    ensures h >= 0.0 ==> v >= 0.0
  {
    var drdh := (rTop - rBottom) / maxHeight;
    var r := rBottom + drdh * h;
    QuadraticFormNonNegative(rBottom, r);
    NonNegativeProduct(PI * h / 3.0, rBottom * rBottom + rBottom * r + r * r);
    (PI * h / 3.0) * (rBottom * rBottom + rBottom * r + r * r)
  }

  /** x^2 + xy + y^2 is never negative. */
  lemma QuadraticFormNonNegative(x: real, y: real)
    ensures x * x + x * y + y * y >= 0.0
  {
    var s := x + y / 2.0;
    assert x * x + x * y + y * y == s * s + 3.0 * (y * y) / 4.0;
  }

  /** Area of a circle of radius r. */
  function CircleArea(r: real): real
  {
    PI * r * r
  }

  lemma NonNegativeProduct(a: real, b: real)
    requires b >= 0.0
    ensures a >= 0.0 ==> a * b >= 0.0
  {
  }

  // ---------------------------------------------------------------------------
  // Facts about the constants
  // ---------------------------------------------------------------------------

  lemma StateVectorAligned()
    ensures |StateOrder| == |EquilibriumStateVector| == 8
    ensures forall i :: 0 <= i < 8 ==> EquilibriumStateVector[i] == EquilibriumStateFor(StateOrder[i])
  {
  }

  lemma ControlVectorAligned()
    ensures |ControlOrder| == |EquilibriumControlVector| == 11
    ensures forall i :: 0 <= i < 11 ==> EquilibriumControlVector[i] == EquilibriumControlFor(ControlOrder[i])
  {
  }

  lemma EquilibriumActuatorsInRange()
    ensures forall i :: 0 <= i < 11 ==>
      ActuatorLimits[i].0 <= EquilibriumControlVector[i] <= ActuatorLimits[i].1
  {
  }

  lemma EquilibriumStateInLimits(t: ProcessTank)
    ensures 0.0 <= H_MIN <= H_EQ <= H_MAX <= ProcessGeometry(t).maxHeight
    ensures C_MIN <= C_EQ <= C_MAX == CB
    ensures 0.0 <= HA_EQ <= ReservoirMaxHeight && 0.0 <= HB_EQ <= ReservoirMaxHeight
  {
  }

  lemma HorizonsOrdered()
    ensures NP == 40 && NC == 20 && NP > NC >= 1
  {
  }
}
