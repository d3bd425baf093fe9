/**
 * The controllers of the plant: one model-predictive controller per process
 * tank (C, D and E) over the tank's discretized linear model, one PI
 * controller per reservoir (A and B), and the facade that routes the measured
 * state and the references to the five of them.
 *
 * The QP solver is an oracle that, given a problem, raises or finishes with a
 * status and a first move; the zero-order-hold discretization is an oracle
 * from the continuous (A, B) block to (Ad, Bd). Everything around them is
 * modelled: deviation coordinates, the constraint list with move blocking and
 * anti-overshoot gating, the failure ladder and what each rung updates.
 */
module Control {
  import opened Wrappers
  import opened Params

  /** A process tank's level and concentration (or their deviations). */
  datatype Vec2 = Vec2(h: real, c: real)

  /** A process tank's water pump, brine pump and outlet valve commands. */
  datatype Vec3 = Vec3(u1: real, u2: real, u3: real)

  /** A 2x2 matrix, row by row. */
  datatype Mat2 = Mat2(m11: real, m12: real, m21: real, m22: real)

  /** A 2x3 matrix, row by row. */
  datatype Mat23 = Mat23(m11: real, m12: real, m13: real, m21: real, m22: real, m23: real)

  const Identity2: Mat2 := Mat2(1.0, 0.0, 0.0, 1.0)
  const Zero23: Mat23 := Mat23(0.0, 0.0, 0.0, 0.0, 0.0, 0.0)

  function Add2(a: Vec2, b: Vec2): Vec2 { Vec2(a.h + b.h, a.c + b.c) }
  function Sub2(a: Vec2, b: Vec2): Vec2 { Vec2(a.h - b.h, a.c - b.c) }
  function Apply2(m: Mat2, v: Vec2): Vec2 { Vec2(m.m11 * v.h + m.m12 * v.c, m.m21 * v.h + m.m22 * v.c) }
  function Add3(a: Vec3, b: Vec3): Vec3 { Vec3(a.u1 + b.u1, a.u2 + b.u2, a.u3 + b.u3) }
  function Sub3(a: Vec3, b: Vec3): Vec3 { Vec3(a.u1 - b.u1, a.u2 - b.u2, a.u3 - b.u3) }
  function Neg3(a: Vec3): Vec3 { Vec3(-a.u1, -a.u2, -a.u3) }

  /** `np.clip` of a vector against element-wise bounds. */
  function Clip3(v: Vec3, lo: Vec3, hi: Vec3): Vec3
  {
    Vec3(Clip(v.u1, lo.u1, hi.u1), Clip(v.u2, lo.u2, hi.u2), Clip(v.u3, lo.u3, hi.u3))
  }

  predicate Within3(v: Vec3, lo: Vec3, hi: Vec3)
  {
    lo.u1 <= v.u1 <= hi.u1 && lo.u2 <= v.u2 <= hi.u2 && lo.u3 <= v.u3 <= hi.u3
  }

  lemma Clip3Within(v: Vec3, lo: Vec3, hi: Vec3)
    requires lo.u1 <= hi.u1 && lo.u2 <= hi.u2 && lo.u3 <= hi.u3
    ensures Within3(Clip3(v, lo, hi), lo, hi)
    ensures Within3(v, lo, hi) ==> Clip3(v, lo, hi) == v
  {
  }

  datatype Failure = UnknownTank(name: string) | MissingKey(key: string)

  // ---------------------------------------------------------------------------
  // Tank models
  // ---------------------------------------------------------------------------

  /** The global state slots and control slots of a process tank; an unknown name is a missing key. */
  function TankIndices(name: string): Option<(seq<nat>, seq<nat>)>
  {
    if name == "C" then Some(([2, 3], [2, 3, 4]))
    else if name == "D" then Some(([4, 5], [5, 6, 7]))
    else if name == "E" then Some(([6, 7], [8, 9, 10]))
    else None
  }

  /** The slots of a known tank name its own level, concentration and three commands. */
  lemma TankIndicesNameTheTank(name: string)
    ensures TankIndices(name).Some? <==> name in {"C", "D", "E"}
    ensures TankIndices(name).Some? ==>
      var (si, ci) := TankIndices(name).value;
      && |si| == 2 && |ci| == 3
      && StateOrder[si[0]] == "h" + name && StateOrder[si[1]] == "C" + name
      && ControlOrder[ci[0]] == "u" + name + "1" && ControlOrder[ci[1]] == "u" + name + "2"
      && ControlOrder[ci[2]] == "u" + name + "3"
  {
    if name == "C" {
      assert "h" + name == "hC" && "C" + name == "CC";
      assert "u" + name + "1" == "uC1" && "u" + name + "2" == "uC2" && "u" + name + "3" == "uC3";
    } else if name == "D" {
      assert "h" + name == "hD" && "C" + name == "CD";
      assert "u" + name + "1" == "uD1" && "u" + name + "2" == "uD2" && "u" + name + "3" == "uD3";
    } else if name == "E" {
      assert "h" + name == "hE" && "C" + name == "CE";
      assert "u" + name + "1" == "uE1" && "u" + name + "2" == "uE2" && "u" + name + "3" == "uE3";
    }
  }

  /** The rows `si` and columns `si` of the continuous state matrix. */
  function BlockA(si: seq<nat>): Mat2
    requires |si| == 2 && si[0] < 8 && si[1] < 8
  {
    var a := ContinuousA();
    Mat2(a[si[0]][si[0]], a[si[0]][si[1]], a[si[1]][si[0]], a[si[1]][si[1]])
  }

  /** The rows `si` and columns `ci` of the continuous input matrix. */
  function BlockB(si: seq<nat>, ci: seq<nat>): Mat23
    requires |si| == 2 && si[0] < 8 && si[1] < 8
    requires |ci| == 3 && ci[0] < 11 && ci[1] < 11 && ci[2] < 11
  {
    var b := ContinuousB;
    Mat23(b[si[0]][ci[0]], b[si[0]][ci[1]], b[si[0]][ci[2]],
          b[si[1]][ci[0]], b[si[1]][ci[1]], b[si[1]][ci[2]])
  }

  /** The zero-order-hold discretization: (A, B, Ts) to (Ad, Bd); it leaves C and D as they are. */
  type Discretizer = (Mat2, Mat23, real) -> (Mat2, Mat23)

  /** A process tank's discrete model and where its states and commands sit in the global vectors. */
  datatype TankModel = TankModel(ad: Mat2, bd: Mat23, cd: Mat2, dd: Mat23,
                                 stateIdx: seq<nat>, controlIdx: seq<nat>)

  /** The continuous model every process tank has: decoupled level and concentration poles. */
  const TankContinuousA: Mat2 := Mat2(LAMBDA_H, 0.0, 0.0, LAMBDA_C)
  const TankContinuousB: Mat23 := Mat23(0.00255, 0.00255, -0.00624, -0.396, 0.396, 0.0)

  /** `extrair_modelo_tanque`: the tank's block of the global model with C = I and D = 0, discretized. */
  function ExtractTankModel(name: string, ts: real, zoh: Discretizer): (r: Result<TankModel, Failure>)
    ensures r.Err? <==> name !in {"C", "D", "E"}
    ensures r.Err? ==> r.error == UnknownTank(name)
    ensures r.Ok? ==> (r.value.ad, r.value.bd) == zoh(TankContinuousA, TankContinuousB, ts)
    ensures r.Ok? ==> r.value.cd == Identity2 && r.value.dd == Zero23
  {
    match TankIndices(name)
    case None => Err(UnknownTank(name))
    case Some((si, ci)) =>
      var (ad, bd) := zoh(BlockA(si), BlockB(si, ci), ts);
      Ok(TankModel(ad, bd, Identity2, Zero23, si, ci))
  }

  /**
   * The extraction loses no coupling: in a tank's rows, the global state matrix
   * is zero outside the tank's own columns and the input matrix is zero outside
   * the tank's own commands.
   */
  lemma TankBlockIsDecoupled(name: string)
    requires TankIndices(name).Some?
    ensures var (si, ci) := TankIndices(name).value;
      forall r, j :: r in si && 0 <= j < 8 && j !in si ==> ContinuousA()[r][j] == 0.0
    ensures var (si, ci) := TankIndices(name).value;
      forall r, j :: r in si && 0 <= j < 11 && j !in ci ==> ContinuousB[r][j] == 0.0
  {
  }

  // ---------------------------------------------------------------------------
  // The MPC problem
  // ---------------------------------------------------------------------------

  /** Operating point and actuator data shared by the three process tanks. */
  const XEq: Vec2 := Vec2(H_EQ, C_EQ)
  const UEq: Vec3 := Vec3(U1_EQ, U2_EQ, U3_EQ)
  const UMin: Vec3 := Vec3(U1_MIN, U2_MIN, U3_MIN)
  const UMax: Vec3 := Vec3(U1_MAX, U2_MAX, U3_MAX)
  const DuMax: Vec3 := Vec3(DELTA_U1_MAX, DELTA_U2_MAX, DELTA_U3_MAX)
  const SlackWeight: real := 1000000.0
  const ConservativeFactor: real := 0.9

  function Min(a: int, b: int): int { if a <= b then a else b }
  function Max(a: int, b: int): int { if a >= b then a else b }

  /** Horizons of the recovery attempt. */
  const ReducedNp: nat := Max(10, NP / 2)
  const ReducedNc: nat := Max(5, NC / 2)

  /** What a rate bound is taken against: the anchor (previous command in deviation) or the preceding move. */
  datatype RateBase = Anchor(v: Vec3) | PrecedingMove

  /**
   * One entry of the constraint list. Predicted states x[k+1], moves u[k]
   * and slacks are the problem's decision variables; each constructor records
   * the data the constraint carries.
   */
  datatype Constraint =
    | InitialState(x0: Vec2)                      // x[0] = x_dev
    | InitialIntegral(e0: Vec2)                   // e[0] = erro_integral
    | Dynamics(k: nat, ku: int)                   // x[k+1] = Ad x[k] + Bd u[ku]
    | IntegralStep(k: nat, r: Vec2)               // e[k+1] = e[k] + Cd x[k+1] - r
    | LevelFloor(k: nat, limit: real)             // x_h[k+1] + h_eq >= limit - slack[k+1]
    | LevelCeiling(k: nat, limit: real)           // x_h[k+1] + h_eq <= limit + slack[k+1]
    | ConcentrationFloor(k: nat, limit: real)     // x_c[k+1] + C_eq >= limit
    | ConcentrationCeiling(k: nat, limit: real)   // x_c[k+1] + C_eq <= limit
    | LevelOvershoot(k: nat, bound: real)         // x_h[k+1] <= bound
    | LevelUndershoot(k: nat, bound: real)        // x_h[k+1] >= bound
    | ConcentrationOvershoot(k: nat, bound: real) // x_c[k+1] <= bound
    | ConcentrationUndershoot(k: nat, bound: real)// x_c[k+1] >= bound
    | InputFloor(k: nat, lo: Vec3)                // u[k] >= lo
    | InputCeiling(k: nat, hi: Vec3)              // u[k] <= hi
    | RateFloor(k: nat, base: RateBase, lo: Vec3) // u[k] - base >= lo
    | RateCeiling(k: nat, base: RateBase, hi: Vec3) // u[k] - base <= hi

  /** One term of the cost: the slack penalty, or a quadratic form at prediction step k. */
  datatype CostTerm = SlackPenalty(weight: real) | Tracking(k: nat, r: Vec2) | Effort(k: nat) | IntegralCost(k: nat)

  /** A QP as handed to the solver. */
  datatype Problem = Problem(np: nat, nc: nat, ad: Mat2, bd: Mat23, cd: Mat2, xEq: Vec2,
                             q: seq<real>, r: seq<real>, i: seq<real>,
                             cost: seq<CostTerm>, constraints: seq<Constraint>)

  predicate LevelGate(kind: Constraint)
  {
    kind.LevelOvershoot? || kind.LevelUndershoot? || kind.ConcentrationOvershoot? || kind.ConcentrationUndershoot?
  }

  /** The level-ceiling bound switched on by a positive deviation, and the floor switched on by a negative one. */
  function LevelCeilingBound(rDev: Vec2): real { rDev.h * (1.0 + OVERSHOOT_LIMIT) }
  function LevelFloorBound(rDev: Vec2): real { rDev.h * (1.0 - UNDERSHOOT_LIMIT) }
  function ConcentrationCeilingBound(rDev: Vec2): real { rDev.c * (1.0 + OVERSHOOT_LIMIT) }
  function ConcentrationFloorBound(rDev: Vec2): real { rDev.c * (1.0 - UNDERSHOOT_LIMIT) }

  /** Move blocking: prediction step k uses the move min(k, nc - 1), the last one once past the control horizon. */
  function BlockedMove(k: nat, nc: nat): int { Min(k, nc - 1) }

  /** xs followed by the blocks 0 .. n-1, the shape of a list appended to in a counted loop. */
  function Appended<T>(xs: seq<T>, n: nat, block: nat -> seq<T>): seq<T>
  {
    if n == 0 then xs else Appended(xs, n - 1, block) + block(n - 1)
  }

  /** An entry of the appended list is an initial entry or an entry of one of the n blocks. */
  lemma {:induction false} AppendedMembers<T>(xs: seq<T>, n: nat, block: nat -> seq<T>, x: T)
    ensures x in Appended(xs, n, block) <==> x in xs || exists k: nat :: k < n && x in block(k)
  {
    if n > 0 {
      AppendedMembers(xs, n - 1, block, x);
      if exists k: nat :: k < n && x in block(k) {
        var k: nat :| k < n && x in block(k);
        if k < n - 1 {
          assert x in Appended(xs, n - 1, block);
        } else {
          assert x in block(n - 1);
        }
      }
    }
  }

  /** The unconditional entries of prediction step k: dynamics with the move held after the control horizon, the integral update, the soft level band and the concentration band. */
  function Band(k: nat, nc: nat, rDev: Vec2): seq<Constraint>
  {
    [Dynamics(k, BlockedMove(k, nc)), IntegralStep(k, rDev), LevelFloor(k, H_MIN), LevelCeiling(k, H_MAX),
     ConcentrationFloor(k, C_MIN), ConcentrationCeiling(k, C_MAX)]
  }

  /** The anti-overshoot bounds of step k, each present when gating is on and the reference's signs switch it on. */
  function Gates(k: nat, rDev: Vec2, gated: bool): seq<Constraint>
  {
    var g1 := if gated && (rDev.h > 0.0 || rDev.c > 0.0) then [LevelOvershoot(k, LevelCeilingBound(rDev))] else [];
    var g2 := if gated && (rDev.h < 0.0 || rDev.c < 0.0) then g1 + [LevelUndershoot(k, LevelFloorBound(rDev))] else g1;
    var g3 := if gated && rDev.c > 0.0 then g2 + [ConcentrationOvershoot(k, ConcentrationCeilingBound(rDev))] else g2;
    if gated && rDev.c < 0.0 then g3 + [ConcentrationUndershoot(k, ConcentrationFloorBound(rDev))] else g3
  }

  /** Everything prediction step k appends, in order. */
  function StepBlock(k: nat, nc: nat, rDev: Vec2, gated: bool): seq<Constraint>
  {
    Band(k, nc, rDev) + Gates(k, rDev, gated)
  }

  /** The constraint list after prediction steps 0 .. n-1 have appended theirs to cs. */
  function Predicted(cs: seq<Constraint>, n: nat, nc: nat, rDev: Vec2, gated: bool): seq<Constraint>
  {
    Appended(cs, n, StepBlocks(nc, rDev, gated))
  }

  function StepBlocks(nc: nat, rDev: Vec2, gated: bool): nat -> seq<Constraint>
  {
    (k: nat) => StepBlock(k, nc, rDev, gated)
  }

  /** The cost terms of prediction step k; the effort term only within the control horizon. */
  function StepCosts(k: nat, nc: nat, rDev: Vec2): seq<CostTerm>
  {
    var t1 := [Tracking(k, rDev)];
    var t2 := if k < nc then t1 + [Effort(k)] else t1;
    t2 + [IntegralCost(k)]
  }

  function Costs(cost: seq<CostTerm>, n: nat, nc: nat, rDev: Vec2): seq<CostTerm>
  {
    Appended(cost, n, (k: nat) => StepCosts(k, nc, rDev))
  }

  /** The base of move k's rate bound: the anchor for the first move, the preceding move after. */
  function RateBaseOf(k: nat, anchor: Vec3): RateBase
  {
    if k == 0 then Anchor(anchor) else PrecedingMove
  }

  /** The constraints of move k: actuator bounds in deviation, then the two rate bounds. */
  function MoveBlock(k: nat, anchor: Vec3): seq<Constraint>
  {
    [InputFloor(k, Sub3(UMin, UEq)), InputCeiling(k, Sub3(UMax, UEq)),
     RateFloor(k, RateBaseOf(k, anchor), Neg3(DuMax)), RateCeiling(k, RateBaseOf(k, anchor), DuMax)]
  }

  function Moves(cs: seq<Constraint>, n: nat, anchor: Vec3): seq<Constraint>
  {
    Appended(cs, n, (k: nat) => MoveBlock(k, anchor))
  }

  /** The problem the controller builds from deviations, its integral state and its previous command. */
  function ProblemOf(np: nat, nc: nat, ad: Mat2, bd: Mat23, cd: Mat2, xDev: Vec2, rDev: Vec2,
                     integral: Vec2, previous: Vec3, gated: bool): Problem
  {
    Problem(np, nc, ad, bd, cd, XEq, WEIGHT_Q, WEIGHT_R, WEIGHT_I,
            Costs([SlackPenalty(SlackWeight)], np, nc, rDev),
            Moves(Predicted([InitialState(xDev), InitialIntegral(integral)], np, nc, rDev, gated),
                  nc, Sub3(previous, UEq)))
  }

  /** What one prediction step appends, entry by entry. */
  lemma StepBlockMembers(k: nat, nc: nat, rDev: Vec2, gated: bool, c: Constraint)
    ensures c in StepBlock(k, nc, rDev, gated) <==>
      || c == Dynamics(k, BlockedMove(k, nc)) || c == IntegralStep(k, rDev)
      || c == LevelFloor(k, H_MIN) || c == LevelCeiling(k, H_MAX)
      || c == ConcentrationFloor(k, C_MIN) || c == ConcentrationCeiling(k, C_MAX)
      || (gated && (rDev.h > 0.0 || rDev.c > 0.0) && c == LevelOvershoot(k, LevelCeilingBound(rDev)))
      || (gated && (rDev.h < 0.0 || rDev.c < 0.0) && c == LevelUndershoot(k, LevelFloorBound(rDev)))
      || (gated && rDev.c > 0.0 && c == ConcentrationOvershoot(k, ConcentrationCeilingBound(rDev)))
      || (gated && rDev.c < 0.0 && c == ConcentrationUndershoot(k, ConcentrationFloorBound(rDev)))
  {
  }

  /** The list after n steps holds the initial entries and exactly the entries of steps 0 .. n-1. */
  lemma PredictedMembers(cs: seq<Constraint>, n: nat, nc: nat, rDev: Vec2, gated: bool, c: Constraint)
    ensures c in Predicted(cs, n, nc, rDev, gated) <==>
      c in cs || exists k: nat :: k < n && c in StepBlock(k, nc, rDev, gated)
  {
    var blocks := StepBlocks(nc, rDev, gated);
    AppendedMembers(cs, n, blocks, c);
    if c in Predicted(cs, n, nc, rDev, gated) && c !in cs {
      var k: nat :| k < n && c in blocks(k);
      assert c in StepBlock(k, nc, rDev, gated);
    }
    if exists k: nat :: k < n && c in StepBlock(k, nc, rDev, gated) {
      var k: nat :| k < n && c in StepBlock(k, nc, rDev, gated);
      assert c in blocks(k);
    }
  }

  /**
   * Move blocking: every dynamics constraint the first n steps append uses
   * move min(k, nc - 1), a move of the control horizon when nc >= 1, and each
   * of the n steps appends one.
   */
  lemma MoveBlocking(cs: seq<Constraint>, n: nat, nc: nat, rDev: Vec2, gated: bool)
    requires forall c :: c in cs ==> !c.Dynamics?
    ensures forall c :: c in Predicted(cs, n, nc, rDev, gated) && c.Dynamics? ==>
      c.k < n && c.ku == BlockedMove(c.k, nc) && (nc >= 1 ==> 0 <= c.ku < nc)
    ensures forall k: nat :: k < n ==> Dynamics(k, BlockedMove(k, nc)) in Predicted(cs, n, nc, rDev, gated)
  {
    forall c | c in Predicted(cs, n, nc, rDev, gated) && c.Dynamics?
      ensures c.k < n && c.ku == BlockedMove(c.k, nc)
    {
      PredictedMembers(cs, n, nc, rDev, gated, c);
      var k: nat :| k < n && c in StepBlock(k, nc, rDev, gated);
      StepBlockMembers(k, nc, rDev, gated, c);
    }
    forall k: nat | k < n
      ensures Dynamics(k, BlockedMove(k, nc)) in Predicted(cs, n, nc, rDev, gated)
    {
      StepBlockMembers(k, nc, rDev, gated, Dynamics(k, BlockedMove(k, nc)));
      PredictedMembers(cs, n, nc, rDev, gated, Dynamics(k, BlockedMove(k, nc)));
    }
  }

  /**
   * Anti-overshoot gating over the first n steps: the level ceiling is present
   * exactly when gating is on and some component of the reference deviation is
   * positive, the level floor exactly when some component is negative; the
   * concentration bounds follow the sign of the concentration deviation alone.
   */
  lemma GatingSwitches(cs: seq<Constraint>, n: nat, nc: nat, rDev: Vec2, gated: bool)
    requires forall c :: c in cs ==> !LevelGate(c)
    ensures (exists c :: c in Predicted(cs, n, nc, rDev, gated) && c.LevelOvershoot?)
            <==> n > 0 && gated && (rDev.h > 0.0 || rDev.c > 0.0)
    ensures (exists c :: c in Predicted(cs, n, nc, rDev, gated) && c.LevelUndershoot?)
            <==> n > 0 && gated && (rDev.h < 0.0 || rDev.c < 0.0)
    ensures (exists c :: c in Predicted(cs, n, nc, rDev, gated) && c.ConcentrationOvershoot?)
            <==> n > 0 && gated && rDev.c > 0.0
    ensures (exists c :: c in Predicted(cs, n, nc, rDev, gated) && c.ConcentrationUndershoot?)
            <==> n > 0 && gated && rDev.c < 0.0
  {
    forall c | c in Predicted(cs, n, nc, rDev, gated) && LevelGate(c)
      ensures n > 0 && gated
      ensures c.LevelOvershoot? ==> rDev.h > 0.0 || rDev.c > 0.0
      ensures c.LevelUndershoot? ==> rDev.h < 0.0 || rDev.c < 0.0
      ensures c.ConcentrationOvershoot? ==> rDev.c > 0.0
      ensures c.ConcentrationUndershoot? ==> rDev.c < 0.0
    {
      PredictedMembers(cs, n, nc, rDev, gated, c);
      var k: nat :| k < n && c in StepBlock(k, nc, rDev, gated);
      StepBlockMembers(k, nc, rDev, gated, c);
    }
    if n > 0 && gated {
      var k := n - 1;
      var gates := [LevelOvershoot(k, LevelCeilingBound(rDev)), LevelUndershoot(k, LevelFloorBound(rDev)),
                    ConcentrationOvershoot(k, ConcentrationCeilingBound(rDev)),
                    ConcentrationUndershoot(k, ConcentrationFloorBound(rDev))];
      forall i | 0 <= i < 4
        ensures gates[i] in StepBlock(k, nc, rDev, gated) ==> gates[i] in Predicted(cs, n, nc, rDev, gated)
      {
        PredictedMembers(cs, n, nc, rDev, gated, gates[i]);
      }
      StepBlockMembers(k, nc, rDev, gated, gates[0]);
      StepBlockMembers(k, nc, rDev, gated, gates[1]);
      StepBlockMembers(k, nc, rDev, gated, gates[2]);
      StepBlockMembers(k, nc, rDev, gated, gates[3]);
    }
  }

  /**
   * A level set-point below equilibrium combined with a concentration set-point
   * above it switches on both level bounds at every step, and the ceiling then
   * lies below the floor: no predicted level meets both.
   */
  lemma MixedSignsContradict(cs: seq<Constraint>, n: nat, nc: nat, rDev: Vec2, k: nat)
    requires rDev.h < 0.0 && rDev.c > 0.0 && k < n
    ensures LevelOvershoot(k, LevelCeilingBound(rDev)) in Predicted(cs, n, nc, rDev, true)
    ensures LevelUndershoot(k, LevelFloorBound(rDev)) in Predicted(cs, n, nc, rDev, true)
    ensures LevelCeilingBound(rDev) < LevelFloorBound(rDev)
  {
    StepBlockMembers(k, nc, rDev, true, LevelOvershoot(k, LevelCeilingBound(rDev)));
    StepBlockMembers(k, nc, rDev, true, LevelUndershoot(k, LevelFloorBound(rDev)));
    PredictedMembers(cs, n, nc, rDev, true, LevelOvershoot(k, LevelCeilingBound(rDev)));
    PredictedMembers(cs, n, nc, rDev, true, LevelUndershoot(k, LevelFloorBound(rDev)));
  }

  /** The list after n moves holds the initial entries and exactly the entries of moves 0 .. n-1. */
  lemma MovesMembers(cs: seq<Constraint>, n: nat, anchor: Vec3, c: Constraint)
    ensures c in Moves(cs, n, anchor) <==> c in cs || exists k: nat :: k < n && c in MoveBlock(k, anchor)
  {
    var blocks := (k: nat) => MoveBlock(k, anchor);
    AppendedMembers(cs, n, blocks, c);
    if c in Moves(cs, n, anchor) && c !in cs {
      var k: nat :| k < n && c in blocks(k);
      assert c in MoveBlock(k, anchor);
    }
    if exists k: nat :: k < n && c in MoveBlock(k, anchor) {
      var k: nat :| k < n && c in MoveBlock(k, anchor);
      assert c in blocks(k);
    }
  }

  /**
   * The move constraints of the first n moves: every move is bounded by the
   * actuator range in deviation coordinates, and a rate bound is anchored
   * exactly for the first move, at the anchor; later ones are against the
   * preceding move.
   */
  lemma MoveConstraints(cs: seq<Constraint>, n: nat, anchor: Vec3)
    requires forall c :: c in cs ==> !(c.RateFloor? || c.RateCeiling?)
    ensures forall k: nat :: k < n ==>
      InputFloor(k, Sub3(UMin, UEq)) in Moves(cs, n, anchor) && InputCeiling(k, Sub3(UMax, UEq)) in Moves(cs, n, anchor)
    ensures forall c :: c in Moves(cs, n, anchor) && (c.RateFloor? || c.RateCeiling?) ==>
      c.k < n && (c.base.Anchor? <==> c.k == 0) && (c.base.Anchor? ==> c.base.v == anchor)
      && (c.RateFloor? ==> c.lo == Neg3(DuMax)) && (c.RateCeiling? ==> c.hi == DuMax)
  {
    forall k: nat | k < n
      ensures InputFloor(k, Sub3(UMin, UEq)) in Moves(cs, n, anchor)
      ensures InputCeiling(k, Sub3(UMax, UEq)) in Moves(cs, n, anchor)
    {
      MovesMembers(cs, n, anchor, InputFloor(k, Sub3(UMin, UEq)));
      MovesMembers(cs, n, anchor, InputCeiling(k, Sub3(UMax, UEq)));
      assert InputFloor(k, Sub3(UMin, UEq)) in MoveBlock(k, anchor);
      assert InputCeiling(k, Sub3(UMax, UEq)) in MoveBlock(k, anchor);
    }
    forall c | c in Moves(cs, n, anchor) && (c.RateFloor? || c.RateCeiling?)
      ensures c.k < n && (c.base.Anchor? <==> c.k == 0) && (c.base.Anchor? ==> c.base.v == anchor)
      ensures (c.RateFloor? ==> c.lo == Neg3(DuMax)) && (c.RateCeiling? ==> c.hi == DuMax)
    {
      MovesMembers(cs, n, anchor, c);
      var k: nat :| k < n && c in MoveBlock(k, anchor);
    }
  }

  /** The effort term is charged for the first min(n, nc) steps only. */
  lemma EffortWithinControlHorizon(cost: seq<CostTerm>, n: nat, nc: nat, rDev: Vec2)
    requires forall t :: t in cost ==> !t.Effort?
    ensures forall t :: t in Costs(cost, n, nc, rDev) && t.Effort? ==> t.k < n && t.k < nc
    ensures forall k: nat :: k < n && k < nc ==> Effort(k) in Costs(cost, n, nc, rDev)
  {
    var blocks := (k: nat) => StepCosts(k, nc, rDev);
    forall t | t in Costs(cost, n, nc, rDev) && t.Effort?
      ensures t.k < n && t.k < nc
    {
      AppendedMembers(cost, n, blocks, t);
      var k: nat :| k < n && t in blocks(k);
      assert t in StepCosts(k, nc, rDev);
    }
    forall k: nat | k < n && k < nc
      ensures Effort(k) in Costs(cost, n, nc, rDev)
    {
      assert Effort(k) in blocks(k);
      AppendedMembers(cost, n, blocks, Effort(k));
    }
  }

  /** The recovery horizons are 20 and 10, still ordered as the move blocking needs. */
  lemma ReducedHorizons()
    ensures ReducedNp == 20 && ReducedNc == 10 && ReducedNp > ReducedNc >= 1
  {
  }

  // ---------------------------------------------------------------------------
  // The solver oracle and one MPC step
  // ---------------------------------------------------------------------------

  /** What a solve gives back: it raised, or it finished with a status and the first optimal move. */
  datatype Outcome = Raised | Finished(status: string, firstMove: Vec3)

  type Solver = Problem -> Outcome

  predicate Accepted(status: string)
  {
    status == "optimal" || status == "optimal_inaccurate"
  }

  /** A solver whose accepted first moves satisfy the problem's actuator bounds for move 0. */
  ghost predicate RespectsActuatorBounds(solve: Solver)
  {
    forall p :: solve(p).Finished? && Accepted(solve(p).status) ==>
      Within3(solve(p).firstMove, Sub3(UMin, UEq), Sub3(UMax, UEq))
  }

  /** The conservative command: 90% previous command, 10% equilibrium. */
  function Blend(previous: Vec3, eq: Vec3): Vec3
  {
    Vec3(previous.u1 * ConservativeFactor + eq.u1 * (1.0 - ConservativeFactor),
         previous.u2 * ConservativeFactor + eq.u2 * (1.0 - ConservativeFactor),
         previous.u3 * ConservativeFactor + eq.u3 * (1.0 - ConservativeFactor))
  }

  /** The blend closes 10% of the gap to equilibrium and stays within any range holding both ends. */
  lemma BlendMovesTowardEquilibrium(previous: Vec3, eq: Vec3, lo: Vec3, hi: Vec3)
    ensures Sub3(Blend(previous, eq), eq) == Vec3(0.9 * (previous.u1 - eq.u1), 0.9 * (previous.u2 - eq.u2),
                                                  0.9 * (previous.u3 - eq.u3))
    ensures Within3(previous, lo, hi) && Within3(eq, lo, hi) ==> Within3(Blend(previous, eq), lo, hi)
  {
  }

  /** Which rung of the failure ladder produced the command. */
  datatype Rung = Optimal | Recovered | Conservative | Held

  /** The command one call returns and the integral and previous command it leaves. */
  datatype StepResult = StepResult(u: Vec3, integral: Vec2, previous: Vec3, rung: Rung)

  /** One process tank's MPC: its discrete model, its integral error and its previous command. */
  class MpcController {
    const name: string
    const ts: real
    const ad: Mat2
    const bd: Mat23
    const cd: Mat2
    var integralError: Vec2
    var previousU: Vec3

    /** Builds the controller of a known tank from its extracted model, at equilibrium with a zero integral. */
    constructor (name: string, ts: real, zoh: Discretizer)
      requires ExtractTankModel(name, ts, zoh).Ok?
      ensures this.name == name && this.ts == ts
      ensures var m := ExtractTankModel(name, ts, zoh).value; ad == m.ad && bd == m.bd && cd == m.cd
      ensures integralError == Vec2(0.0, 0.0) && previousU == UEq
    {
      var m := ExtractTankModel(name, ts, zoh).value;
      this.name := name;
      this.ts := ts;
      ad, bd, cd := m.ad, m.bd, m.cd;
      integralError := Vec2(0.0, 0.0);
      previousU := UEq;
    }

    /** The full problem for a measurement and a reference. */
    function FullProblem(integral: Vec2, previous: Vec3, measured: Vec2, reference: Vec2): Problem
    {
      ProblemOf(NP, NC, ad, bd, cd, Sub2(measured, XEq), Sub2(reference, XEq), integral, previous, true)
    }

    /** The recovery problem: reduced horizons and no anti-overshoot bounds. */
    function ReducedProblem(integral: Vec2, previous: Vec3, measured: Vec2, reference: Vec2): Problem
    {
      ProblemOf(ReducedNp, ReducedNc, ad, bd, cd, Sub2(measured, XEq), Sub2(reference, XEq), integral, previous, false)
    }

    /**
     * `calcular_controle` from a given integral and previous command: the full
     * solve; on a non-accepted status the reduced retry; if that raises or is
     * not accepted, the conservative blend; a raising full solve keeps the
     * previous command.
     */
    function Step(integral: Vec2, previous: Vec3, measured: Vec2, reference: Vec2, solve: Solver): StepResult
    {
      var xDev := Sub2(measured, XEq);
      var rDev := Sub2(reference, XEq);
      match solve(FullProblem(integral, previous, measured, reference))
      case Raised => StepResult(previous, integral, previous, Held)
      case Finished(status, move) =>
        if Accepted(status) then
          var u := Add3(move, UEq);
          StepResult(Clip3(u, UMin, UMax), Add2(integral, Sub2(Apply2(cd, xDev), rDev)), u, Optimal)
        else
          var retry := solve(ReducedProblem(integral, previous, measured, reference));
          if retry.Finished? && Accepted(retry.status) then
            var u := Add3(retry.firstMove, UEq);
            StepResult(Clip3(u, UMin, UMax), integral, u, Recovered)
          else
            StepResult(Clip3(Blend(previous, UEq), UMin, UMax), integral, previous, Conservative)
    }

    /**
     * The ladder's rungs: the optimal rung exactly when the full solve is
     * accepted, recovery exactly when it finishes unaccepted and the retry is
     * accepted, the conservative rung when neither, holding exactly when the
     * full solve raises.
     */
    lemma LadderOrder(integral: Vec2, previous: Vec3, measured: Vec2, reference: Vec2, solve: Solver)
      ensures var full := solve(FullProblem(integral, previous, measured, reference));
              var retry := solve(ReducedProblem(integral, previous, measured, reference));
              var o := Step(integral, previous, measured, reference, solve);
              && (o.rung == Held <==> full.Raised?)
              && (o.rung == Optimal <==> full.Finished? && Accepted(full.status))
              && (o.rung == Recovered <==> full.Finished? && !Accepted(full.status)
                                           && retry.Finished? && Accepted(retry.status))
              && (o.rung == Conservative <==> full.Finished? && !Accepted(full.status)
                                              && !(retry.Finished? && Accepted(retry.status)))
    {
    }

    /**
     * What each rung updates: only the optimal rung moves the integral, by the
     * measured output's deviation minus the reference's; the optimal and
     * recovery rungs store their unclipped command as the previous one; the
     * conservative and holding rungs change neither.
     */
    lemma RungEffects(integral: Vec2, previous: Vec3, measured: Vec2, reference: Vec2, solve: Solver)
      ensures var o := Step(integral, previous, measured, reference, solve);
              && (o.rung == Optimal ==> o.integral == Add2(integral, Sub2(Apply2(cd, Sub2(measured, XEq)), Sub2(reference, XEq))))
              && (o.rung != Optimal ==> o.integral == integral)
              && (o.rung == Optimal || o.rung == Recovered ==> o.u == Clip3(o.previous, UMin, UMax))
              && (o.rung == Conservative ==> o.previous == previous && o.u == Clip3(Blend(previous, UEq), UMin, UMax))
              && (o.rung == Held ==> o.previous == previous && o.u == previous)
    {
    }

    /** With the identity output matrix the integral grows by measured minus reference. */
    lemma IntegralTracksError(integral: Vec2, previous: Vec3, measured: Vec2, reference: Vec2, solve: Solver)
      requires cd == Identity2
      ensures var o := Step(integral, previous, measured, reference, solve);
              o.rung == Optimal ==> o.integral == Add2(integral, Sub2(measured, reference))
    {
    }

    /**
     * Every command but the held one is within the actuator range; if the
     * solver's accepted moves satisfy the problem's bounds on move 0 and the
     * previous command is within the range, the stored previous command and
     * the returned one are too.
     */
    lemma CommandsWithinActuatorRange(integral: Vec2, previous: Vec3, measured: Vec2, reference: Vec2, solve: Solver)
      ensures var o := Step(integral, previous, measured, reference, solve);
              o.rung != Held ==> Within3(o.u, UMin, UMax)
      ensures var o := Step(integral, previous, measured, reference, solve);
              RespectsActuatorBounds(solve) && Within3(previous, UMin, UMax) ==>
                Within3(o.previous, UMin, UMax) && Within3(o.u, UMin, UMax)
    {
      var o := Step(integral, previous, measured, reference, solve);
      Clip3Within(o.u, UMin, UMax);
      Clip3Within(o.previous, UMin, UMax);
      Clip3Within(Blend(previous, UEq), UMin, UMax);
      if o.rung == Optimal {
        Clip3Within(Add3(solve(FullProblem(integral, previous, measured, reference)).firstMove, UEq), UMin, UMax);
      } else if o.rung == Recovered {
        Clip3Within(Add3(solve(ReducedProblem(integral, previous, measured, reference)).firstMove, UEq), UMin, UMax);
      }
    }

    /**
     * The constraint-list loops of `calcular_controle` (the full problem and
     * the recovery copy): per prediction step the model, band and gated
     * entries and the cost terms, then per move its bounds.
     */
    method BuildProblem(np: nat, nc: nat, xDev: Vec2, rDev: Vec2, gated: bool) returns (p: Problem)
      ensures p == ProblemOf(np, nc, ad, bd, cd, xDev, rDev, integralError, previousU, gated)
    {
      var cost := [SlackPenalty(SlackWeight)];
      var cs := [InitialState(xDev), InitialIntegral(integralError)];
      for k := 0 to np
        invariant cost == Costs([SlackPenalty(SlackWeight)], k, nc, rDev)
        invariant cs == Predicted([InitialState(xDev), InitialIntegral(integralError)], k, nc, rDev, gated)
      {
        var ku := BlockedMove(k, nc);
        var terms := [Tracking(k, rDev)];
        if k < nc {
          terms := terms + [Effort(k)];
        }
        terms := terms + [IntegralCost(k)];
        cost := cost + terms;
        var band := [Dynamics(k, ku), IntegralStep(k, rDev), LevelFloor(k, H_MIN), LevelCeiling(k, H_MAX),
                     ConcentrationFloor(k, C_MIN), ConcentrationCeiling(k, C_MAX)];
        var gates := [];
        if gated && (rDev.h > 0.0 || rDev.c > 0.0) {
          gates := [LevelOvershoot(k, LevelCeilingBound(rDev))];
        }
        if gated && (rDev.h < 0.0 || rDev.c < 0.0) {
          gates := gates + [LevelUndershoot(k, LevelFloorBound(rDev))];
        }
        if gated && rDev.c > 0.0 {
          gates := gates + [ConcentrationOvershoot(k, ConcentrationCeilingBound(rDev))];
        }
        if gated && rDev.c < 0.0 {
          gates := gates + [ConcentrationUndershoot(k, ConcentrationFloorBound(rDev))];
        }
        cs := cs + (band + gates);
      }
      var anchor := Sub3(previousU, UEq);
      ghost var predicted := cs;
      for k := 0 to nc
        invariant cs == Moves(predicted, k, anchor)
      {
        var base := if k == 0 then Anchor(anchor) else PrecedingMove;
        cs := cs + [InputFloor(k, Sub3(UMin, UEq)), InputCeiling(k, Sub3(UMax, UEq)),
                    RateFloor(k, base, Neg3(DuMax)), RateCeiling(k, base, DuMax)];
      }
      p := Problem(np, nc, ad, bd, cd, XEq, WEIGHT_Q, WEIGHT_R, WEIGHT_I, cost, cs);
    }

    /** `calcular_controle`: one step of the ladder, updating the integral and previous command as the rung says. */
    method ComputeControl(measured: Vec2, reference: Vec2, solve: Solver) returns (u: Vec3)
      modifies this`integralError, this`previousU
      ensures var o := Step(old(integralError), old(previousU), measured, reference, solve);
              u == o.u && integralError == o.integral && previousU == o.previous
    {
      var xDev := Sub2(measured, XEq);
      var rDev := Sub2(reference, XEq);
      var full := BuildProblem(NP, NC, xDev, rDev, true);
      var outcome := solve(full);
      if outcome.Raised? {
        return previousU;
      }
      if Accepted(outcome.status) {
        var uOpt := Add3(outcome.firstMove, UEq);
        integralError := Add2(integralError, Sub2(Apply2(cd, xDev), rDev));
        previousU := uOpt;
        return Clip3(uOpt, UMin, UMax);
      }
      var reduced := BuildProblem(ReducedNp, ReducedNc, xDev, rDev, false);
      var retry := solve(reduced);
      if retry.Finished? && Accepted(retry.status) {
        var uRed := Add3(retry.firstMove, UEq);
        previousU := uRed;
        return Clip3(uRed, UMin, UMax);
      }
      return Clip3(Blend(previousU, UEq), UMin, UMax);
    }

    /** `resetar_integrador`: zeroes the integral only. */
    method ResetIntegrator()
      modifies this`integralError
      ensures integralError == Vec2(0.0, 0.0)
    {
      integralError := Vec2(0.0, 0.0);
    }
  }

  // ---------------------------------------------------------------------------
  // PI controllers of the reservoirs
  // ---------------------------------------------------------------------------

  const IntegralBound: real := 10.0

  /** The integral after error e over a period ts, before clamping. */
  function Accumulate(integral: real, e: real, ts: real): real { integral + e * ts }

  /** The unsaturated PI command: proportional plus integral action. */
  function PiOutput(kp: real, e: real, ki: real, integral: real): real { kp * e + ki * integral }

  lemma ClipMonotone(a: real, b: real, lo: real, hi: real)
    requires a <= b && lo <= hi
    ensures Clip(a, lo, hi) <= Clip(b, lo, hi)
  {
  }

  /** A reservoir's PI controller with a clamped integral. */
  class PiController {
    const name: string
    const kp: real
    const ki: real
    const setpoint: real
    var integralError: real

    ghost predicate Valid()
      reads this`integralError
    {
      -IntegralBound <= integralError <= IntegralBound
    }

    /** A fresh controller: zero integral, set-point the equilibrium level of A, or of B for any other name. */
    constructor (name: string, kp: real, ki: real)
      ensures Valid()
      ensures this.name == name && this.kp == kp && this.ki == ki && integralError == 0.0
      ensures setpoint == (if name == "A" then HA_EQ else HB_EQ)
    {
      this.name := name;
      this.kp := kp;
      this.ki := ki;
      integralError := 0.0;
      setpoint := if name == "A" then HA_EQ else HB_EQ;
    }

    /** The command and the new integral for error e over a period ts. */
    function PiStep(integral: real, e: real, ts: real): (r: (real, real))
      ensures 0.0 <= r.0 <= 1.0
      ensures -IntegralBound <= r.1 <= IntegralBound
    {
      var i := Clip(Accumulate(integral, e, ts), -IntegralBound, IntegralBound);
      (Clip(PiOutput(kp, e, ki, i), 0.0, 1.0), i)
    }

    /** Inside the clamp band the integral just accumulates e * ts; outside it sticks to the nearer bound. */
    lemma AntiWindup(integral: real, e: real, ts: real)
      ensures -IntegralBound <= integral + e * ts <= IntegralBound ==> PiStep(integral, e, ts).1 == integral + e * ts
      ensures integral + e * ts > IntegralBound ==> PiStep(integral, e, ts).1 == IntegralBound
      ensures integral + e * ts < -IntegralBound ==> PiStep(integral, e, ts).1 == -IntegralBound
    {
    }

    /** With non-negative gains and period, a larger error never gives a smaller command or integral. */
    lemma PiStepMonotone(integral: real, e1: real, e2: real, ts: real)
      requires kp >= 0.0 && ki >= 0.0 && ts >= 0.0 && e1 <= e2
      ensures PiStep(integral, e1, ts).1 <= PiStep(integral, e2, ts).1
      ensures PiStep(integral, e1, ts).0 <= PiStep(integral, e2, ts).0
    {
      NonNegativeProduct(ts, e2 - e1);
      assert Accumulate(integral, e1, ts) <= Accumulate(integral, e2, ts);
      ClipMonotone(Accumulate(integral, e1, ts), Accumulate(integral, e2, ts), -IntegralBound, IntegralBound);
      var i1 := PiStep(integral, e1, ts).1;
      var i2 := PiStep(integral, e2, ts).1;
      NonNegativeProduct(kp, e2 - e1);
      NonNegativeProduct(ki, i2 - i1);
      assert PiOutput(kp, e1, ki, i1) <= PiOutput(kp, e2, ki, i2);
      ClipMonotone(PiOutput(kp, e1, ki, i1), PiOutput(kp, e2, ki, i2), 0.0, 1.0);
    }

    /** `calcular_controle`: error against the set-point, integral accumulated and clamped, command clipped. */
    method ComputeControl(measured: real, ts: real) returns (u: real)
      modifies this`integralError
      ensures Valid()
      ensures (u, integralError) == PiStep(old(integralError), setpoint - measured, ts)
    {
      var e := setpoint - measured;
      integralError := Accumulate(integralError, e, ts);
      integralError := Clip(integralError, -IntegralBound, IntegralBound);
      u := Clip(PiOutput(kp, e, ki, integralError), 0.0, 1.0);
    }

    /** `resetar`: zeroes the integral. */
    method Reset()
      modifies this`integralError
      ensures Valid() && integralError == 0.0
    {
      integralError := 0.0;
    }
  }

  // ---------------------------------------------------------------------------
  // The facade over the five controllers
  // ---------------------------------------------------------------------------

  /** The two maps `calcular_acoes` reads from. */
  datatype Source = Measured | Referenced

  /** One dictionary read of `calcular_acoes`: the map and the key. */
  datatype Read = Read(source: Source, key: string)

  /** The reads of `calcular_acoes` in the order the source performs them. */
  const ActionReads: seq<Read> := [
    Read(Measured, "hA"), Read(Measured, "hB"),
    Read(Measured, "hC"), Read(Measured, "CC"), Read(Referenced, "hC_ref"), Read(Referenced, "CC_ref"),
    Read(Measured, "hD"), Read(Measured, "CD"), Read(Referenced, "hD_ref"), Read(Referenced, "CD_ref"),
    Read(Measured, "hE"), Read(Measured, "CE"), Read(Referenced, "hE_ref"), Read(Referenced, "CE_ref")]

  predicate Present(states: map<string, real>, refs: map<string, real>, rd: Read)
  {
    if rd.source == Measured then rd.key in states else rd.key in refs
  }

  /** The index in ActionReads of the first read whose key is missing, or 14 when all are present. */
  function FirstMissing(states: map<string, real>, refs: map<string, real>): nat
  {
    if "hA" !in states then 0 else if "hB" !in states then 1
    else if "hC" !in states then 2 else if "CC" !in states then 3
    else if "hC_ref" !in refs then 4 else if "CC_ref" !in refs then 5
    else if "hD" !in states then 6 else if "CD" !in states then 7
    else if "hD_ref" !in refs then 8 else if "CD_ref" !in refs then 9
    else if "hE" !in states then 10 else if "CE" !in states then 11
    else if "hE_ref" !in refs then 12 else if "CE_ref" !in refs then 13
    else 14
  }

  /** FirstMissing really is the first missing read: every read before it is present, it is not. */
  lemma FirstMissingIsFirst(states: map<string, real>, refs: map<string, real>)
    ensures FirstMissing(states, refs) <= |ActionReads|
    ensures forall j :: 0 <= j < FirstMissing(states, refs) ==> Present(states, refs, ActionReads[j])
    ensures FirstMissing(states, refs) < |ActionReads| ==>
              !Present(states, refs, ActionReads[FirstMissing(states, refs)])
  {
  }

  /** A tank's measured state and reference, read level then concentration, measurement then reference. */
  function TankReads(states: map<string, real>, refs: map<string, real>,
                     hKey: string, cKey: string, hRef: string, cRef: string): Result<(Vec2, Vec2), Failure>
  {
    if hKey !in states then Err(MissingKey(hKey))
    else if cKey !in states then Err(MissingKey(cKey))
    else if hRef !in refs then Err(MissingKey(hRef))
    else if cRef !in refs then Err(MissingKey(cRef))
    else Ok((Vec2(states[hKey], states[cKey]), Vec2(refs[hRef], refs[cRef])))
  }

  /** One MPC's call on the keys read for it: its command and new memory, or the read's failure. */
  function TankAction(mpc: MpcController, mm: MpcMemory, read: Result<(Vec2, Vec2), Failure>, solve: Solver)
    : Result<(Vec3, MpcMemory), Failure>
  {
    match read
    case Err(f) => Err(f)
    case Ok(v) =>
      var o := mpc.Step(mm.integral, mm.previous, v.0, v.1, solve);
      Ok((o.u, MpcMemory(o.integral, o.previous)))
  }

  /** The command map `calcular_acoes` returns. */
  function Route(uA: real, uB: real, uC: Vec3, uD: Vec3, uE: Vec3): map<string, real>
  {
    map["uA" := uA, "uB" := uB,
        "uC1" := uC.u1, "uC2" := uC.u2, "uC3" := uC.u3,
        "uD1" := uD.u1, "uD2" := uD.u2, "uD3" := uD.u3,
        "uE1" := uE.u1, "uE2" := uE.u2, "uE3" := uE.u3]
  }

  /** The command map's keys are exactly the control names. */
  lemma RouteKeysAreControls(uA: real, uB: real, uC: Vec3, uD: Vec3, uE: Vec3)
    ensures forall key :: key in Route(uA, uB, uC, uD, uE) <==> key in ControlOrder
  {
    var m := Route(uA, uB, uC, uD, uE);
    forall key | key in ControlOrder
      ensures key in m
    {
      var i :| 0 <= i < |ControlOrder| && ControlOrder[i] == key;
    }
    forall key | key in m
      ensures key in ControlOrder
    {
      assert key in m.Keys;
    }
  }

  /**
   * The command map follows the control order: the reservoir commands come
   * first and each process tank's three commands sit, in order, at its three
   * slots.
   */
  lemma RouteFollowsControlOrder(uA: real, uB: real, uC: Vec3, uD: Vec3, uE: Vec3)
    ensures var m := Route(uA, uB, uC, uD, uE);
            && ControlOrder[0] in m && m[ControlOrder[0]] == uA && ControlOrder[1] in m && m[ControlOrder[1]] == uB
            && ControlOrder[2] in m && m[ControlOrder[2]] == uC.u1 && ControlOrder[3] in m && m[ControlOrder[3]] == uC.u2
            && ControlOrder[4] in m && m[ControlOrder[4]] == uC.u3
            && ControlOrder[5] in m && m[ControlOrder[5]] == uD.u1 && ControlOrder[6] in m && m[ControlOrder[6]] == uD.u2
            && ControlOrder[7] in m && m[ControlOrder[7]] == uD.u3
            && ControlOrder[8] in m && m[ControlOrder[8]] == uE.u1 && ControlOrder[9] in m && m[ControlOrder[9]] == uE.u2
            && ControlOrder[10] in m && m[ControlOrder[10]] == uE.u3
  {
  }

  /** What one MPC carries between calls. */
  datatype MpcMemory = MpcMemory(integral: Vec2, previous: Vec3)

  /** What the facade's five controllers carry between calls. */
  datatype Memory = Memory(iA: real, iB: real, c: MpcMemory, d: MpcMemory, e: MpcMemory)

  /** `SistemaControle`: the three MPCs and the two reservoir PIs at one sampling period. */
  class ControlSystem {
    const ts: real
    const mpcC: MpcController
    const mpcD: MpcController
    const mpcE: MpcController
    const pidA: PiController
    const pidB: PiController

    /** Five distinct controllers for the right tanks, the reservoir PIs with gains 15 and 0.25. */
    ghost predicate Wired()
    {
      && mpcC != mpcD && mpcC != mpcE && mpcD != mpcE && pidA != pidB
      && mpcC.name == "C" && mpcD.name == "D" && mpcE.name == "E"
      && mpcC.ts == ts && mpcD.ts == ts && mpcE.ts == ts
      && pidA.name == "A" && pidB.name == "B"
      && pidA.kp == 15.0 && pidA.ki == 0.25 && pidB.kp == 15.0 && pidB.ki == 0.25
    }

    /** The memory of the five controllers. */
    function Snapshot(): Memory
      reads pidA`integralError, pidB`integralError
      reads mpcC`integralError, mpcC`previousU, mpcD`integralError, mpcD`previousU
      reads mpcE`integralError, mpcE`previousU
    {
      Memory(pidA.integralError, pidB.integralError, MpcMemory(mpcC.integralError, mpcC.previousU),
             MpcMemory(mpcD.integralError, mpcD.previousU), MpcMemory(mpcE.integralError, mpcE.previousU))
    }

    /** Builds the five controllers, each at rest: zero integrals, the MPCs at the equilibrium command. */
    constructor (ts: real, zoh: Discretizer)
      ensures this.ts == ts && Wired()
      ensures Snapshot() == Memory(0.0, 0.0, MpcMemory(Vec2(0.0, 0.0), UEq), MpcMemory(Vec2(0.0, 0.0), UEq),
                                 MpcMemory(Vec2(0.0, 0.0), UEq))
      ensures pidA.setpoint == HA_EQ && pidB.setpoint == HB_EQ
    {
      this.ts := ts;
      mpcC := new MpcController("C", ts, zoh);
      mpcD := new MpcController("D", ts, zoh);
      mpcE := new MpcController("E", ts, zoh);
      pidA := new PiController("A", 15.0, 0.25);
      pidB := new PiController("B", 15.0, 0.25);
    }

    /**
     * `calcular_acoes` from a given memory: the reservoir PIs on the measured
     * levels, then each process tank's MPC on its measured state and
     * reference; a missing key ends the call with the controllers before it
     * already stepped.
     */
    function Actions(m: Memory, states: map<string, real>, refs: map<string, real>, solve: Solver)
      : (Result<map<string, real>, Failure>, Memory)
    {
      if "hA" !in states then (Err(MissingKey("hA")), m) else
      var a := pidA.PiStep(m.iA, pidA.setpoint - states["hA"], ts);
      if "hB" !in states then (Err(MissingKey("hB")), m.(iA := a.1)) else
      var b := pidB.PiStep(m.iB, pidB.setpoint - states["hB"], ts);
      var m2 := m.(iA := a.1, iB := b.1);
      var c := TankAction(mpcC, m.c, TankReads(states, refs, "hC", "CC", "hC_ref", "CC_ref"), solve);
      if c.Err? then (Err(c.error), m2) else
      var m3 := m2.(c := c.value.1);
      var d := TankAction(mpcD, m.d, TankReads(states, refs, "hD", "CD", "hD_ref", "CD_ref"), solve);
      if d.Err? then (Err(d.error), m3) else
      var m4 := m3.(d := d.value.1);
      var e := TankAction(mpcE, m.e, TankReads(states, refs, "hE", "CE", "hE_ref", "CE_ref"), solve);
      if e.Err? then (Err(e.error), m4) else
      (Ok(Route(a.0, b.0, c.value.0, d.value.0, e.value.0)), m4.(e := e.value.1))
    }

    /**
     * `calcular_acoes`: steps the controllers in read order, each on the keys
     * read for it, stopping with the missing key's failure.
     */
    method ComputeActions(states: map<string, real>, refs: map<string, real>, solve: Solver)
      returns (r: Result<map<string, real>, Failure>)
      requires Wired()
      modifies pidA`integralError, pidB`integralError
      modifies mpcC`integralError, mpcC`previousU, mpcD`integralError, mpcD`previousU
      modifies mpcE`integralError, mpcE`previousU
      ensures (r, Snapshot()) == Actions(old(Snapshot()), states, refs, solve)
    {
      if "hA" !in states {
        return Err(MissingKey("hA"));
      }
      var uA := pidA.ComputeControl(states["hA"], ts);
      if "hB" !in states {
        return Err(MissingKey("hB"));
      }
      var uB := pidB.ComputeControl(states["hB"], ts);
      var readC := TankReads(states, refs, "hC", "CC", "hC_ref", "CC_ref");
      if readC.Err? {
        return Err(readC.error);
      }
      var uC := mpcC.ComputeControl(readC.value.0, readC.value.1, solve);
      var readD := TankReads(states, refs, "hD", "CD", "hD_ref", "CD_ref");
      if readD.Err? {
        return Err(readD.error);
      }
      var uD := mpcD.ComputeControl(readD.value.0, readD.value.1, solve);
      var readE := TankReads(states, refs, "hE", "CE", "hE_ref", "CE_ref");
      if readE.Err? {
        return Err(readE.error);
      }
      var uE := mpcE.ComputeControl(readE.value.0, readE.value.1, solve);
      return Ok(Route(uA, uB, uC, uD, uE));
    }

    /** A call fails exactly when some read key is missing. */
    lemma ActionsFailOnMissingKey(m: Memory, states: map<string, real>, refs: map<string, real>, solve: Solver)
      ensures Actions(m, states, refs, solve).0.Err? <==> FirstMissing(states, refs) < |ActionReads|
    {
    }

    /** A failing call reports the first missing key in read order. */
    lemma ActionsReportFirstMissingKey(m: Memory, states: map<string, real>, refs: map<string, real>, solve: Solver)
      requires FirstMissing(states, refs) < |ActionReads|
      ensures Actions(m, states, refs, solve).0 == Err(MissingKey(ActionReads[FirstMissing(states, refs)].key))
    {
    }

    /** A controller the reads did not reach keeps its memory. */
    lemma ActionsKeepUnreached(m: Memory, states: map<string, real>, refs: map<string, real>, solve: Solver)
      ensures var f := FirstMissing(states, refs);
              var r := Actions(m, states, refs, solve);
              && (f < 1 ==> r.1 == m)
              && (f < 2 ==> r.1.iB == m.iB)
              && (f < 6 ==> r.1.c == m.c)
              && (f < 10 ==> r.1.d == m.d)
              && (f < 14 ==> r.1.e == m.e)
    {
    }

    /** Once its level is read, each reservoir PI steps on it; no reference is read for either. */
    lemma ActionsStepReservoirs(m: Memory, states: map<string, real>, refs: map<string, real>, solve: Solver)
      ensures var f := FirstMissing(states, refs);
              var r := Actions(m, states, refs, solve);
              && (f >= 1 ==> "hA" in states && r.1.iA == pidA.PiStep(m.iA, pidA.setpoint - states["hA"], ts).1)
              && (f >= 2 ==> "hB" in states && r.1.iB == pidB.PiStep(m.iB, pidB.setpoint - states["hB"], ts).1)
    {
    }

    /** Once its four keys are read, each process MPC steps on its measured state and reference. */
    lemma ActionsStepTanks(m: Memory, states: map<string, real>, refs: map<string, real>, solve: Solver)
      ensures var f := FirstMissing(states, refs);
              var r := Actions(m, states, refs, solve);
              f >= 6 ==> (&& "hC" in states && "CC" in states && "hC_ref" in refs && "CC_ref" in refs
                          && var o := mpcC.Step(m.c.integral, m.c.previous, Vec2(states["hC"], states["CC"]),
                                                Vec2(refs["hC_ref"], refs["CC_ref"]), solve);
                             r.1.c == MpcMemory(o.integral, o.previous))
      ensures var f := FirstMissing(states, refs);
              var r := Actions(m, states, refs, solve);
              f >= 10 ==> (&& "hD" in states && "CD" in states && "hD_ref" in refs && "CD_ref" in refs
                           && var o := mpcD.Step(m.d.integral, m.d.previous, Vec2(states["hD"], states["CD"]),
                                                 Vec2(refs["hD_ref"], refs["CD_ref"]), solve);
                              r.1.d == MpcMemory(o.integral, o.previous))
      ensures var f := FirstMissing(states, refs);
              var r := Actions(m, states, refs, solve);
              f >= 14 ==> (&& "hE" in states && "CE" in states && "hE_ref" in refs && "CE_ref" in refs
                           && var o := mpcE.Step(m.e.integral, m.e.previous, Vec2(states["hE"], states["CE"]),
                                                 Vec2(refs["hE_ref"], refs["CE_ref"]), solve);
                              r.1.e == MpcMemory(o.integral, o.previous))
    {
    }

    /**
     * With every key present the call succeeds with the routed commands: uA
     * and uB from the PIs, in [0, 1], and each tank's three commands in order
     * from its MPC.
     */
    lemma ActionsRouteCommands(m: Memory, states: map<string, real>, refs: map<string, real>, solve: Solver)
      requires FirstMissing(states, refs) == |ActionReads|
      ensures && "hA" in states && "hB" in states && "hC" in states && "CC" in states
              && "hD" in states && "CD" in states && "hE" in states && "CE" in states
              && "hC_ref" in refs && "CC_ref" in refs && "hD_ref" in refs && "CD_ref" in refs
              && "hE_ref" in refs && "CE_ref" in refs
      ensures var r := Actions(m, states, refs, solve);
              var uA := pidA.PiStep(m.iA, pidA.setpoint - states["hA"], ts).0;
              var uB := pidB.PiStep(m.iB, pidB.setpoint - states["hB"], ts).0;
              var c := mpcC.Step(m.c.integral, m.c.previous, Vec2(states["hC"], states["CC"]),
                                 Vec2(refs["hC_ref"], refs["CC_ref"]), solve);
              var d := mpcD.Step(m.d.integral, m.d.previous, Vec2(states["hD"], states["CD"]),
                                 Vec2(refs["hD_ref"], refs["CD_ref"]), solve);
              var e := mpcE.Step(m.e.integral, m.e.previous, Vec2(states["hE"], states["CE"]),
                                 Vec2(refs["hE_ref"], refs["CE_ref"]), solve);
              && r.0 == Ok(Route(uA, uB, c.u, d.u, e.u))
              && 0.0 <= uA <= 1.0 && 0.0 <= uB <= 1.0
    {
    }

    /**
     * The reservoir integrals do not depend on the references (and by
     * ActionsRouteCommands neither do their commands).
     */
    lemma ReservoirsIgnoreReferences(m: Memory, states: map<string, real>, refs1: map<string, real>,
                                     refs2: map<string, real>, solve: Solver)
      ensures Actions(m, states, refs1, solve).1.iA == Actions(m, states, refs2, solve).1.iA
      ensures Actions(m, states, refs1, solve).1.iB == Actions(m, states, refs2, solve).1.iB
    {
    }
  }
}
