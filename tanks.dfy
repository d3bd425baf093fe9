/**
 * Non-linear models of the two tank kinds: the cylindrical utility reservoir
 * (A, B) and the frustum-shaped process tank (C, D, E). Each tank object updates
 * its own level (and concentration) in place with one RK4 step that overwrites
 * the level and concentration fields as scratch space between stages and clips
 * the result to the physical range.
 */
module Tanks {
  import opened Params

  /** Division guard of both frustum derivatives. */
  const Epsilon: real := 0.000000001

  /**
   * numpy's square root, a foreign routine: the model takes it as a parameter and
   * uses only these two facts about it.
   */
  ghost predicate IsSqrt(f: real -> real)
  {
    f(0.0) == 0.0 && forall x :: 0.0 <= x ==> 0.0 <= f(x)
  }

  /** Python's `max(0.0, x)`. */
  function NonNegative(x: real): (r: real)
    ensures r >= 0.0
    ensures x >= 0.0 ==> r == x
    ensures x < 0.0 ==> r == 0.0
  {
    if 0.0 < x then x else 0.0
  }

  /** An RK4 intermediate point: x0 advanced by slope k over step h. */
  function Advance(x0: real, k: real, h: real): real
  {
    x0 + k * h
  }

  /** The RK4 weighted average of four slopes applied over step dt. */
  function Rk4Combine(x0: real, k1: real, k2: real, k3: real, k4: real, dt: real): real
  {
    x0 + (k1 + 2.0 * k2 + 2.0 * k3 + k4) * dt / 6.0
  }

  // ---------------------------------------------------------------------------
  // Cylindrical reservoir
  // ---------------------------------------------------------------------------

  /** Level reached by one clipped RK4 step of dh/dt = (qIn - qOut) / area. */
  function CylinderNextLevel(h0: real, qIn: real, qOut: real, area: real, maxHeight: real, dt: real): real
    requires area != 0.0
  {
    var k := (qIn - qOut) / area;
    Clip(Rk4Combine(h0, k, k, k, k, dt), 0.0, maxHeight)
  }

  /** Because the derivative ignores the level, the four stages coincide and RK4 is one Euler step. */
  lemma CylinderStepIsEuler(h0: real, qIn: real, qOut: real, area: real, maxHeight: real, dt: real)
    requires area != 0.0
    ensures CylinderNextLevel(h0, qIn, qOut, area, maxHeight, dt)
         == Clip(h0 + dt * (qIn - qOut) / area, 0.0, maxHeight)
  {
    var k := (qIn - qOut) / area;
    assert (k + 2.0 * k + 2.0 * k + k) * dt / 6.0 == k * dt;
    assert k * dt == dt * (qIn - qOut) / area;
  }

  /** A reservoir: constant cross-section, inflow from its supply valve, outflow to the pumps. */
  class CylindricalTank {
    const name: string
    const radius: real
    const maxHeight: real
    const area: real

    var level: real
    /** Fixed: zero for the water reservoir, the brine concentration for the brine reservoir. */
    var concentration: real
    var inflow: real
    var outflow: real

    ghost predicate Valid()
      reads this`inflow, this`outflow
    {
      area == CircleArea(radius) && area != 0.0 && inflow >= 0.0 && outflow >= 0.0
    }

    constructor (name: string, radius: real, maxHeight: real, initialLevel: real, concentration: real)
      requires CircleArea(radius) != 0.0
      ensures Valid()
      ensures this.name == name && this.radius == radius && this.maxHeight == maxHeight
      ensures level == initialLevel && this.concentration == concentration
      ensures inflow == 0.0 && outflow == 0.0
    {
      this.name := name;
      this.radius := radius;
      this.maxHeight := maxHeight;
      this.area := CircleArea(radius);
      level := initialLevel;
      this.concentration := concentration;
      inflow := 0.0;
      outflow := 0.0;
    }

    /** Stores the flows, replacing a negative one by zero. */
    method SetFlows(qIn: real, qOut: real)
      requires Valid()
      modifies this`inflow, this`outflow
      ensures Valid()
      ensures inflow == NonNegative(qIn) && outflow == NonNegative(qOut)
    {
      inflow := NonNegative(qIn);
      outflow := NonNegative(qOut);
    }

    /** dh/dt of the reservoir; it does not depend on the level. */
    function LevelDerivative(): real
      requires area != 0.0
      reads this`inflow, this`outflow
    {
      (inflow - outflow) / area
    }

    /** Liquid volume. */
    function Volume(): (v: real)
      requires Valid()
      reads this
      ensures level >= 0.0 ==> v >= 0.0
    {
      area * level
    }

    /** One RK4 step of length dt, using `level` as scratch between the stages, then clipped. */
    method Update(dt: real) returns (h: real, c: real)
      requires Valid()
      modifies this`level
      ensures Valid()
      ensures level == CylinderNextLevel(old(level), inflow, outflow, area, maxHeight, dt)
      ensures maxHeight >= 0.0 ==> 0.0 <= level <= maxHeight
      ensures h == level && c == concentration
    {
      var h0 := level;
      var k1 := LevelDerivative();
      level := Advance(h0, k1, dt / 2.0);
      var k2 := LevelDerivative();
      level := Advance(h0, k2, dt / 2.0);
      var k3 := LevelDerivative();
      level := Advance(h0, k3, dt);
      var k4 := LevelDerivative();
      level := Rk4Combine(h0, k1, k2, k3, k4, dt);
      level := Clip(level, 0.0, maxHeight);
      h, c := level, concentration;
    }
  }

  // ---------------------------------------------------------------------------
  // Frustum process tank
  // ---------------------------------------------------------------------------

  /** A process tank: water and brine pumps in, Torricelli discharge out. */
  class FrustumTank {
    const name: string
    const rBottom: real
    const rTop: real
    const maxHeight: real
    const kv: real
    const kpWater: real
    const kpBrine: real
    /** Taper dr/dh, fixed at construction. */
    const drdh: real
    const sqrt: real -> real

    var level: real
    var concentration: real
    /** Water pump, brine pump, outlet valve; always within [0, 1]. */
    var u1: real
    var u2: real
    var u3: real

    /** What the constant fields guarantee: the taper is defined and the root is a square root. */
    ghost predicate WellFormed()
    {
      maxHeight != 0.0 && drdh == (rTop - rBottom) / maxHeight && IsSqrt(sqrt)
    }

    ghost predicate Valid()
      reads this`u1, this`u2, this`u3
    {
      WellFormed() && 0.0 <= u1 <= 1.0 && 0.0 <= u2 <= 1.0 && 0.0 <= u3 <= 1.0
    }

    constructor (name: string, rBottom: real, rTop: real, maxHeight: real, kv: real,
                 kpWater: real, kpBrine: real, sqrt: real -> real,
                 initialLevel: real, initialConcentration: real)
      requires maxHeight != 0.0
      requires IsSqrt(sqrt)
      ensures Valid()
      ensures this.name == name && this.rBottom == rBottom && this.rTop == rTop
      ensures this.maxHeight == maxHeight && this.kv == kv
      ensures this.kpWater == kpWater && this.kpBrine == kpBrine && this.sqrt == sqrt
      ensures level == initialLevel && concentration == initialConcentration
      ensures u1 == 0.0 && u2 == 0.0 && u3 == 0.0
    {
      this.name := name;
      this.rBottom := rBottom;
      this.rTop := rTop;
      this.maxHeight := maxHeight;
      this.kv := kv;
      this.kpWater := kpWater;
      this.kpBrine := kpBrine;
      this.drdh := (rTop - rBottom) / maxHeight;
      this.sqrt := sqrt;
      level := initialLevel;
      concentration := initialConcentration;
      u1, u2, u3 := 0.0, 0.0, 0.0;
    }

    /** Stores the three commands, each clipped to [0, 1]. */
    method SetControls(c1: real, c2: real, c3: real)
      requires Valid()
      modifies this`u1, this`u2, this`u3
      ensures Valid()
      ensures u1 == Clip(c1, 0.0, 1.0) && u2 == Clip(c2, 0.0, 1.0) && u3 == Clip(c3, 0.0, 1.0)
    {
      u1 := Clip(c1, 0.0, 1.0);
      u2 := Clip(c2, 0.0, 1.0);
      u3 := Clip(c3, 0.0, 1.0);
    }

    function Radius(h: real): (r: real)
      ensures WellFormed() && h == 0.0 ==> r == rBottom
      ensures WellFormed() && h == maxHeight ==> r == rTop
    {
      rBottom + drdh * h
    }

    /** Cross-section at height h; the same value as the parameter-set helper. */
    function Area(h: real): real
    {
      var r := Radius(h);
      PI * (r * r)
    }

    /** Volume up to height h; the same value as the parameter-set helper. */
    function Volume(h: real): real
    {
      var r := Radius(h);
      (PI * h / 3.0) * (rBottom * rBottom + rBottom * r + r * r)
    }

    /** Water, brine and outlet flows for the given commands at level h. */
    function FlowsAt(c1: real, c2: real, c3: real, h: real): (q: (real, real, real))
      requires IsSqrt(sqrt)
    {
      var root := sqrt(NonNegative(h));
      (kpWater * c1, kpBrine * c2, kv * c3 * root)
    }

    /** dh/dt at level h, zero when the cross-section is negligible. */
    function LevelRate(c1: real, c2: real, c3: real, h: real): real
      requires WellFormed()
    {
      var q := FlowsAt(c1, c2, c3, h);
      var a := Area(h);
      if a < Epsilon then 0.0 else (q.0 + q.1 - q.2) / a
    }

    /** dC/dt at level h and concentration c, zero when the volume is negligible. */
    function ConcentrationRate(c1: real, c2: real, c3: real, h: real, c: real): real
      requires WellFormed()
    {
      var q := FlowsAt(c1, c2, c3, h);
      var v := Volume(h);
      if v < Epsilon then 0.0 else (q.1 * CB - c * (q.0 + q.1)) / v
    }

    /** The source's level derivative: evaluated at the current fields. */
    function LevelDerivative(): real
      requires WellFormed()
      reads this`u1, this`u2, this`u3, this`level
    {
      LevelRate(u1, u2, u3, level)
    }

    /** The source's concentration derivative: evaluated at the current fields. */
    function ConcentrationDerivative(): real
      requires WellFormed()
      reads this`u1, this`u2, this`u3, this`level, this`concentration
    {
      ConcentrationRate(u1, u2, u3, level, concentration)
    }

    /**
     * One coupled RK4 step: the level stages first, then the concentration stages,
     * each concentration stage evaluated at the matching level-stage intermediate
     * (h0, h0 + k1h dt/2, h0 + k2h dt/2, h0 + k3h dt); both results clipped.
     */
    function Step(c1: real, c2: real, c3: real, h0: real, c0: real, dt: real): (real, real)
      requires WellFormed()
    {
      var k1h := LevelRate(c1, c2, c3, h0);
      var k2h := LevelRate(c1, c2, c3, Advance(h0, k1h, dt / 2.0));
      var k3h := LevelRate(c1, c2, c3, Advance(h0, k2h, dt / 2.0));
      var k4h := LevelRate(c1, c2, c3, Advance(h0, k3h, dt));
      var newLevel := Rk4Combine(h0, k1h, k2h, k3h, k4h, dt);
      var k1c := ConcentrationRate(c1, c2, c3, h0, c0);
      var k2c := ConcentrationRate(c1, c2, c3, Advance(h0, k1h, dt / 2.0), Advance(c0, k1c, dt / 2.0));
      var k3c := ConcentrationRate(c1, c2, c3, Advance(h0, k2h, dt / 2.0), Advance(c0, k2c, dt / 2.0));
      var k4c := ConcentrationRate(c1, c2, c3, Advance(h0, k3h, dt), Advance(c0, k3c, dt));
      var newConcentration := Rk4Combine(c0, k1c, k2c, k3c, k4c, dt);
      (Clip(newLevel, 0.0, maxHeight), Clip(newConcentration, 0.0, CB))
    }

    /** RK4 step in place: `level` and `concentration` serve as scratch between stages. */
    method Update(dt: real) returns (h: real, c: real)
      requires Valid()
      modifies this`level, this`concentration
      ensures Valid()
      ensures (level, concentration) == Step(u1, u2, u3, old(level), old(concentration), dt)
      ensures maxHeight >= 0.0 ==> 0.0 <= level <= maxHeight
      ensures 0.0 <= concentration <= CB
      ensures h == level && c == concentration
    {
      var h0 := level;
      var c0 := concentration;

      var k1h := LevelDerivative();
      level := Advance(h0, k1h, dt / 2.0);
      var k2h := LevelDerivative();
      level := Advance(h0, k2h, dt / 2.0);
      var k3h := LevelDerivative();
      level := Advance(h0, k3h, dt);
      var k4h := LevelDerivative();
      var newLevel := Rk4Combine(h0, k1h, k2h, k3h, k4h, dt);

      level := h0;
      concentration := c0;
      var k1c := ConcentrationDerivative();
      level := Advance(h0, k1h, dt / 2.0);
      concentration := Advance(c0, k1c, dt / 2.0);
      var k2c := ConcentrationDerivative();
      level := Advance(h0, k2h, dt / 2.0);
      concentration := Advance(c0, k2c, dt / 2.0);
      var k3c := ConcentrationDerivative();
      level := Advance(h0, k3h, dt);
      concentration := Advance(c0, k3c, dt);
      var k4c := ConcentrationDerivative();
      var newConcentration := Rk4Combine(c0, k1c, k2c, k3c, k4c, dt);

      level := Clip(newLevel, 0.0, maxHeight);
      concentration := Clip(newConcentration, 0.0, CB);
      h, c := level, concentration;
    }

    /** The tank's own geometry agrees with the parameter-set helpers. */
    lemma GeometryMatchesHelpers(h: real)
      requires WellFormed()
      ensures Area(h) == FrustumArea(h, rBottom, rTop, maxHeight)
      ensures Volume(h) == FrustumVolume(h, rBottom, rTop, maxHeight)
    {
    }

    /** At level 0 or below the outlet carries nothing, whatever the valve opening. */
    lemma TorricelliAtEmpty(c1: real, c2: real, c3: real, h: real)
      requires WellFormed()
      requires h <= 0.0
      ensures FlowsAt(c1, c2, c3, h).2 == 0.0
    {
    }

    /** The pumps deliver gain times command, and the outlet never runs backwards. */
    lemma FlowsAreOriented(c1: real, c2: real, c3: real, h: real)
      requires WellFormed()
      requires kv >= 0.0 && c3 >= 0.0
      ensures FlowsAt(c1, c2, c3, h).0 == kpWater * c1 && FlowsAt(c1, c2, c3, h).1 == kpBrine * c2
      ensures FlowsAt(c1, c2, c3, h).2 >= 0.0
    {
      NonNegativeProduct(kv * c3, sqrt(NonNegative(h)));
    }

    /**
     * Below the 1e-9 volume guard the concentration derivative is 0; in
     * particular at level 0, where the volume vanishes.
     */
    lemma NoConcentrationChangeWhenEmpty(c1: real, c2: real, c3: real, h: real, c: real)
      requires WellFormed()
      ensures Volume(h) < Epsilon ==> ConcentrationRate(c1, c2, c3, h, c) == 0.0
      ensures ConcentrationRate(c1, c2, c3, 0.0, c) == 0.0
    {
      assert Volume(0.0) == 0.0;
    }

    /** With the water pump off, a tank full of brine stays at the brine concentration. */
    lemma {:induction false} PureBrineStaysPure(c2: real, c3: real, h0: real, dt: real)
      requires WellFormed()
      ensures Step(0.0, c2, c3, h0, CB, dt).1 == CB
    {
      forall h | true ensures ConcentrationRate(0.0, c2, c3, h, CB) == 0.0 {
        BalancedInflowHasNoRate(0.0, c2, c3, h, CB);
      }
    }

    /** With the brine pump off, a tank of pure water stays pure water. */
    lemma {:induction false} PureWaterStaysPure(c1: real, c3: real, h0: real, dt: real)
      requires WellFormed()
      ensures Step(c1, 0.0, c3, h0, 0.0, dt).1 == 0.0
    {
      forall h | true ensures ConcentrationRate(c1, 0.0, c3, h, 0.0) == 0.0 {
        BalancedInflowHasNoRate(c1, 0.0, c3, h, 0.0);
      }
    }

    /** When the inflow's salt exactly replaces the salt displaced, dC/dt is 0. */
    lemma BalancedInflowHasNoRate(c1: real, c2: real, c3: real, h: real, c: real)
      requires WellFormed()
      requires kpBrine * c2 * CB == c * (kpWater * c1 + kpBrine * c2)
      ensures ConcentrationRate(c1, c2, c3, h, c) == 0.0
    {
    }

    /**
     * Above the 1e-9 area guard the level rises exactly when the pumps deliver
     * more than the outlet drains, and holds exactly when the two balance;
     * below the guard it does not move.
     */
    lemma LevelFollowsNetInflow(c1: real, c2: real, c3: real, h: real)
      requires WellFormed()
      ensures var q := FlowsAt(c1, c2, c3, h);
              Area(h) >= Epsilon ==>
                && (LevelRate(c1, c2, c3, h) > 0.0 <==> q.0 + q.1 > q.2)
                && (LevelRate(c1, c2, c3, h) == 0.0 <==> q.0 + q.1 == q.2)
      ensures Area(h) < Epsilon ==> LevelRate(c1, c2, c3, h) == 0.0
    {
    }
  }
}
