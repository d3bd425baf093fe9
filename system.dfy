/**
 * The five-tank plant: two cylindrical reservoirs (A water, B brine) feeding
 * three frustum process tanks (C, D, E). The plant object keeps a cached copy
 * of the state vector and of the last applied control dictionary, converts
 * loosely typed inputs (nothing, a dictionary or a flat vector) into those
 * forms, and integrates a time interval in sub-steps.
 */
module System {
  import opened Wrappers
  import opened Params
  import opened Tanks

  /** The errors raised by the plant's conversions and integrator. */
  datatype Failure =
    | WrongStateLength(got: nat)      // ValueError: a state vector of the wrong size
    | WrongControlLength(got: nat)    // ValueError: a control vector of the wrong size
    | UnknownMethod(name: string)     // ValueError: neither "rk4" nor "euler"
    | MissingControl(key: string)     // KeyError: a control dictionary without a key read

  /** A state argument: absent, a name-to-value dictionary, or a flat vector. */
  datatype StateInput = NoState | StateDict(entries: map<string, real>) | StateValues(values: seq<real>)

  /** A control argument: absent, a name-to-value dictionary, or a flat vector. */
  datatype ControlInput = NoControls | ControlDict(entries: map<string, real>) | ControlValues(values: seq<real>)

  /** The eleven control names as a set. */
  function ControlKeys(): set<string>
  {
    {"uA", "uB", "uC1", "uC2", "uC3", "uD1", "uD2", "uD3", "uE1", "uE2", "uE3"}
  }

  lemma ControlKeysAreControlOrder()
    ensures forall i :: 0 <= i < |ControlOrder| ==> ControlOrder[i] in ControlKeys()
    ensures forall k :: k in ControlKeys() ==> k in ControlOrder
  {
  }

  lemma ControlOrderDistinct()
    ensures forall i, j :: 0 <= i < j < |ControlOrder| ==> ControlOrder[i] != ControlOrder[j]
  {
  }

  lemma StateOrderDistinct()
    ensures forall i, j :: 0 <= i < j < |StateOrder| ==> StateOrder[i] != StateOrder[j]
  {
  }

  /** The dictionary naming the eleven values of a control vector, in control order. */
  function KeyedControls(values: seq<real>): (d: map<string, real>)
    requires |values| == 11
    ensures d.Keys == ControlKeys()
    ensures forall i :: 0 <= i < 11 ==> d[ControlOrder[i]] == values[i]
  {
    map["uA" := values[0], "uB" := values[1],
        "uC1" := values[2], "uC2" := values[3], "uC3" := values[4],
        "uD1" := values[5], "uD2" := values[6], "uD3" := values[7],
        "uE1" := values[8], "uE2" := values[9], "uE3" := values[10]]
  }

  lemma UpdateKeepsKeys(d: map<string, real>, k: string, v: real)
    requires k in d
    ensures d[k := v].Keys == d.Keys
  {
  }

  lemma ActuatorRangesOrdered()
    ensures |ActuatorLimits| == 11
    ensures forall i :: 0 <= i < 11 ==> ActuatorLimits[i].0 <= ActuatorLimits[i].1
  {
  }

  /** Every control of a dictionary lies in its actuator range. */
  ghost predicate ControlsInRange(d: map<string, real>)
  {
    forall i :: 0 <= i < |ControlOrder| && ControlOrder[i] in d ==>
      ActuatorLimits[i].0 <= d[ControlOrder[i]] <= ActuatorLimits[i].1
  }

  // ---------------------------------------------------------------------------
  // Pure conversions
  // ---------------------------------------------------------------------------

  /**
   * `_converter_estado_para_array` against the state cache `cache`.
   * The state vector an argument denotes: nothing gives the cache, a dictionary
   * takes each slot from its key or else from the cache, a vector must have
   * exactly eight entries.
   */
  function StateFromInput(input: StateInput, cache: seq<real>): (r: Result<seq<real>, Failure>)
    requires |cache| == 8
    ensures r.Ok? ==> |r.value| == 8
    ensures r.Err? <==> input.StateValues? && |input.values| != 8
    ensures r.Err? ==> r.error == WrongStateLength(|input.values|)
    ensures input.NoState? ==> r == Ok(cache)
    ensures input.StateDict? ==> forall i :: 0 <= i < 8 ==>
      r.value[i] == (if StateOrder[i] in input.entries then input.entries[StateOrder[i]] else cache[i])
    ensures input.StateValues? && |input.values| == 8 ==> r == Ok(input.values)
  {
    match input
    case NoState => Ok(cache)
    case StateDict(m) =>
      Ok(seq(8, i requires 0 <= i < 8 => if StateOrder[i] in m then m[StateOrder[i]] else cache[i]))
    case StateValues(v) =>
      if |v| != 8 then Err(WrongStateLength(|v|)) else Ok(v)
  }

  /** A dictionary naming all eight slots ignores the cache. */
  lemma {:induction false} FullStateDictIgnoresCache(m: map<string, real>, cache1: seq<real>, cache2: seq<real>)
    requires |cache1| == 8 && |cache2| == 8
    requires forall i :: 0 <= i < 8 ==> StateOrder[i] in m
    ensures StateFromInput(StateDict(m), cache1) == StateFromInput(StateDict(m), cache2)
    ensures forall i :: 0 <= i < 8 ==> StateFromInput(StateDict(m), cache1).value[i] == m[StateOrder[i]]
  {
    var a := StateFromInput(StateDict(m), cache1).value;
    var b := StateFromInput(StateDict(m), cache2).value;
    assert forall i :: 0 <= i < 8 ==> a[i] == m[StateOrder[i]] == b[i];
    assert a == b;
  }

  /** A dictionary naming none of the slots denotes the cache. */
  lemma {:induction false} EmptyStateDictIsCache(m: map<string, real>, cache: seq<real>)
    requires |cache| == 8
    requires forall i :: 0 <= i < 8 ==> StateOrder[i] !in m
    ensures StateFromInput(StateDict(m), cache) == Ok(cache)
  {
    var a := StateFromInput(StateDict(m), cache).value;
    assert forall i :: 0 <= i < 8 ==> a[i] == cache[i];
    assert a == cache;
  }

  /**
   * The eleven raw control values an argument denotes, in control order:
   * nothing gives the cache, a dictionary takes each name from its key or else
   * from the cache, a vector must have exactly eleven entries.
   */
  function ControlValuesFromInput(input: ControlInput, cache: map<string, real>): (r: Result<seq<real>, Failure>)
    requires ControlKeys() <= cache.Keys
    ensures r.Ok? ==> |r.value| == 11
    ensures r.Err? <==> input.ControlValues? && |input.values| != 11
    ensures r.Err? ==> r.error == WrongControlLength(|input.values|)
    ensures input.NoControls? ==> forall i :: 0 <= i < 11 ==> r.value[i] == cache[ControlOrder[i]]
    ensures input.ControlDict? ==> forall i :: 0 <= i < 11 ==>
      r.value[i] == (if ControlOrder[i] in input.entries then input.entries[ControlOrder[i]] else cache[ControlOrder[i]])
    ensures input.ControlValues? && |input.values| == 11 ==> r == Ok(input.values)
  {
    assert forall i :: 0 <= i < 11 ==> ControlOrder[i] in ControlKeys();
    match input
    case NoControls =>
      Ok(seq(11, i requires 0 <= i < 11 => cache[ControlOrder[i]]))
    case ControlDict(m) =>
      Ok(seq(11, i requires 0 <= i < 11 =>
        if ControlOrder[i] in m then m[ControlOrder[i]] else cache[ControlOrder[i]]))
    case ControlValues(v) =>
      if |v| != 11 then Err(WrongControlLength(|v|)) else Ok(v)
  }

  predicate IsUpper(c: char) { 'A' <= c <= 'Z' }

  /**
   * Python's `str.lower` restricted to ASCII: every character is kept or is an
   * ASCII capital replaced by its lower-case letter, and no capital is left.
   */
  function Lower(s: string): (r: string)
    ensures |r| == |s|
    ensures forall i :: 0 <= i < |r| ==> !IsUpper(r[i])
    ensures forall i :: 0 <= i < |s| ==> r[i] == s[i] || (IsUpper(s[i]) && r[i] as int == s[i] as int + 32)
    ensures (forall i :: 0 <= i < |s| ==> !IsUpper(s[i])) ==> r == s
  {
    seq(|s|, i requires 0 <= i < |s| => if IsUpper(s[i]) then (s[i] as int + 32) as char else s[i])
  }

  /** Lower-casing twice is lower-casing once. */
  lemma LowerIdempotent(s: string)
    ensures Lower(Lower(s)) == Lower(s)
  {
  }

  /** `(metodo or "rk4").lower()`: absent or empty selects "rk4". */
  function MethodName(m: Option<string>): string
  {
    if m.None? || m.value == "" then "rk4" else Lower(m.value)
  }

  /** A missing or empty method name selects "rk4". */
  lemma MethodNameDefaults()
    ensures MethodName(None) == "rk4" && MethodName(Some("")) == "rk4"
  {
  }

  /** A given name selects "rk4" exactly when it spells rk4 in any mix of cases. */
  lemma MethodNameIsRk4(s: string)
    requires s != ""
    ensures MethodName(Some(s)) == "rk4" <==> |s| == 3 && s[0] in {'r', 'R'} && s[1] in {'k', 'K'} && s[2] == '4'
  {
  }

  /** A given name selects "euler" exactly when it spells euler in any mix of cases. */
  lemma MethodNameIsEuler(s: string)
    requires s != ""
    ensures MethodName(Some(s)) == "euler" <==>
      && |s| == 5 && s[0] in {'e', 'E'} && s[1] in {'u', 'U'} && s[2] in {'l', 'L'}
      && s[3] in {'e', 'E'} && s[4] in {'r', 'R'}
  {
  }

  /** The sub-step tolerance of the integrator loop. */
  const Tolerance: real := 0.000000001

  function Min(a: real, b: real): real
  {
    if a < b then a else b
  }

  /**
   * The sub-step lengths of the loop `while t > 1e-9: p := min(ref, t); t -= p`
   * started at t. Terminates when the reference step is at least the tolerance
   * or already covers the whole interval.
   */
  function SubSteps(t: real, ref: real): (steps: seq<real>)
    requires ref > 0.0 && (ref >= Tolerance || t <= ref)
    decreases if t <= Tolerance then 0 else (t * 1000000000.0).Floor
  {
    if t <= Tolerance then [] else [Min(ref, t)] + SubSteps(t - Min(ref, t), ref)
  }

  function Sum(s: seq<real>): real
  {
    if s == [] then 0.0 else Sum(s[..|s| - 1]) + s[|s| - 1]
  }

  /** Each sub-step is positive and at most the reference step. */
  lemma {:induction false} SubStepsBounded(t: real, ref: real)
    requires ref > 0.0 && (ref >= Tolerance || t <= ref)
    ensures forall i :: 0 <= i < |SubSteps(t, ref)| ==> 0.0 < SubSteps(t, ref)[i] <= ref
    decreases if t <= Tolerance then 0 else (t * 1000000000.0).Floor
  {
    if t > Tolerance {
      SubStepsBounded(t - Min(ref, t), ref);
    }
  }

  lemma SumPrepend(x: real, s: seq<real>)
    ensures Sum([x] + s) == x + Sum(s)
    decreases |s|
  {
    if s != [] {
      assert ([x] + s)[..|[x] + s| - 1] == [x] + s[..|s| - 1];
      SumPrepend(x, s[..|s| - 1]);
    }
  }

  /** The sub-steps cover the interval up to the tolerance: t - 1e-9 <= sum <= t when t >= 0. */
  lemma {:induction false} SubStepsCoverInterval(t: real, ref: real)
    requires ref > 0.0 && (ref >= Tolerance || t <= ref)
    requires t >= 0.0
    ensures t - Tolerance <= Sum(SubSteps(t, ref)) <= t
    decreases if t <= Tolerance then 0 else (t * 1000000000.0).Floor
  {
    if t > Tolerance {
      var p := Min(ref, t);
      SubStepsCoverInterval(t - p, ref);
      SumPrepend(p, SubSteps(t - p, ref));
    }
  }

  /** With the reference step equal to the interval ("euler"), there is one sub-step over all of it. */
  lemma OneEulerStep(dt: real)
    requires dt > Tolerance
    ensures SubSteps(dt, dt) == [dt]
  {
    assert SubSteps(0.0, dt) == [];
  }

  /** An interval within the tolerance is not integrated at all. */
  lemma NoStepWithinTolerance(dt: real, ref: real)
    requires ref > 0.0 && (ref >= Tolerance || dt <= ref)
    requires dt <= Tolerance
    ensures SubSteps(dt, ref) == []
  {
  }

  /** Index of the first key of `keys` missing from `m` (|keys| if none is). */
  function FirstMissing(keys: seq<string>, m: map<string, real>): (n: nat)
    ensures n <= |keys|
    ensures forall j :: 0 <= j < n ==> keys[j] in m
    ensures n < |keys| ==> keys[n] !in m
  {
    if keys == [] then 0
    else if keys[0] !in m then 0
    else 1 + FirstMissing(keys[1..], m)
  }

  /**
   * The actuator values one system step uses: the nine process commands
   * (pumps and outlet of C, D and E) and the two supply commands.
   */
  datatype Drive = Drive(c1: real, c2: real, c3: real, d1: real, d2: real, d3: real,
                         e1: real, e2: real, e3: real, uA: real, uB: real)

  /** The drive a complete control dictionary denotes: process commands clipped to [0, 1], supply commands as given. */
  function DriveOf(u: map<string, real>): (p: Drive)
    requires HasControls(u)
    ensures 0.0 <= p.c1 <= 1.0 && 0.0 <= p.c2 <= 1.0 && 0.0 <= p.c3 <= 1.0
    ensures 0.0 <= p.d1 <= 1.0 && 0.0 <= p.d2 <= 1.0 && 0.0 <= p.d3 <= 1.0
    ensures 0.0 <= p.e1 <= 1.0 && 0.0 <= p.e2 <= 1.0 && 0.0 <= p.e3 <= 1.0
    ensures p.uA == u["uA"] && p.uB == u["uB"]
  {
    Drive(Clip(u["uC1"], 0.0, 1.0), Clip(u["uC2"], 0.0, 1.0), Clip(u["uC3"], 0.0, 1.0),
          Clip(u["uD1"], 0.0, 1.0), Clip(u["uD2"], 0.0, 1.0), Clip(u["uD3"], 0.0, 1.0),
          Clip(u["uE1"], 0.0, 1.0), Clip(u["uE2"], 0.0, 1.0), Clip(u["uE3"], 0.0, 1.0),
          u["uA"], u["uB"])
  }

  /** Sum of three pump flows k * u. */
  function Demand(k1: real, u1: real, k2: real, u2: real, k3: real, u3: real): real
  {
    k1 * u1 + k2 * u2 + k3 * u3
  }

  /** A reservoir's inflow: supply gain times valve command. */
  function Supply(gain: real, u: real): real
  {
    gain * u
  }

  /** The three command keys of tank C are present; likewise for D and E. */
  predicate HasCKeys(u: map<string, real>) { "uC1" in u && "uC2" in u && "uC3" in u }
  predicate HasDKeys(u: map<string, real>) { "uD1" in u && "uD2" in u && "uD3" in u }
  predicate HasEKeys(u: map<string, real>) { "uE1" in u && "uE2" in u && "uE3" in u }

  /** All eleven control keys are present, written key by key. */
  predicate HasControls(u: map<string, real>)
  {
    HasCKeys(u) && HasDKeys(u) && HasEKeys(u) && "uA" in u && "uB" in u
  }

  /** Key-by-key presence is inclusion of the control-name set. */
  lemma HasControlsIsControlKeys(u: map<string, real>)
    ensures HasControls(u) <==> ControlKeys() <= u.Keys
  {
  }

  /** The order in which one system update reads the control dictionary. */
  const UpdateReadOrder: seq<string> :=
    ["uC1", "uC2", "uC3", "uD1", "uD2", "uD3", "uE1", "uE2", "uE3", "uA", "uB"]

  /** The first key missing in read order names where the update stops, and none is missing exactly when all eleven are present. */
  lemma ReadOrderCoversControls(u: map<string, real>)
    ensures FirstMissing(UpdateReadOrder, u) == 11 <==> HasControls(u)
    ensures FirstMissing(UpdateReadOrder, u) >= 3 <==> HasCKeys(u)
    ensures FirstMissing(UpdateReadOrder, u) >= 6 <==> HasCKeys(u) && HasDKeys(u)
    ensures FirstMissing(UpdateReadOrder, u) >= 9 <==> HasCKeys(u) && HasDKeys(u) && HasEKeys(u)
  {
    var n := FirstMissing(UpdateReadOrder, u);
    var ks := UpdateReadOrder;
    assert ks[0] == "uC1" && ks[1] == "uC2" && ks[2] == "uC3";
    assert ks[3] == "uD1" && ks[4] == "uD2" && ks[5] == "uD3";
    assert ks[6] == "uE1" && ks[7] == "uE2" && ks[8] == "uE3";
    assert ks[9] == "uA" && ks[10] == "uB";
    if n < 11 {
      assert ks[n] !in u;
    }
  }

  /**
   * The per-key clipping loop over a bound table: each listed key is clipped to
   * its bounds, every other entry is left alone.
   */
  method ClipEach(d0: map<string, real>, keys: seq<string>, limits: seq<(real, real)>) returns (d: map<string, real>)
    requires |keys| == |limits|
    requires forall i, j :: 0 <= i < j < |keys| ==> keys[i] != keys[j]
    requires forall i :: 0 <= i < |keys| ==> keys[i] in d0
    ensures d.Keys == d0.Keys
    ensures forall i :: 0 <= i < |keys| ==> d[keys[i]] == Clip(d0[keys[i]], limits[i].0, limits[i].1)
    ensures forall k :: k in d0 && k !in keys ==> d[k] == d0[k]
  {
    d := d0;
    for n := 0 to |keys|
      invariant d.Keys == d0.Keys
      invariant forall i :: 0 <= i < n ==> d[keys[i]] == Clip(d0[keys[i]], limits[i].0, limits[i].1)
      invariant forall i :: n <= i < |keys| ==> d[keys[i]] == d0[keys[i]]
      invariant forall k :: k in d0 && k !in keys ==> d[k] == d0[k]
    {
      var key := keys[n];
      UpdateKeepsKeys(d, key, Clip(d[key], limits[n].0, limits[n].1));
      d := d[key := Clip(d[key], limits[n].0, limits[n].1)];
    }
  }

  /** The eleven controls of a complete dictionary, each clipped to its actuator range. */
  method ClipControls(d0: map<string, real>) returns (d: map<string, real>)
    requires d0.Keys == ControlKeys()
    ensures d.Keys == ControlKeys() && ControlsInRange(d)
    ensures forall i :: 0 <= i < 11 ==>
      d[ControlOrder[i]] == Clip(d0[ControlOrder[i]], ActuatorLimits[i].0, ActuatorLimits[i].1)
  {
    ControlOrderDistinct();
    ActuatorRangesOrdered();
    ControlKeysAreControlOrder();
    d := ClipEach(d0, ControlOrder, ActuatorLimits);
  }

  // ---------------------------------------------------------------------------
  // The plant
  // ---------------------------------------------------------------------------

  class TankSystem {
    const tankA: CylindricalTank
    const tankB: CylindricalTank
    const tankC: FrustumTank
    const tankD: FrustumTank
    const tankE: FrustumTank

    /** Last reported state vector, in state order. */
    var stateCache: seq<real>
    /** Last applied control dictionary. */
    var controlCache: map<string, real>

    /** The constant parameters every tank was built with. */
    ghost predicate Configured()
    {
      tankA.radius == ReservoirRadius && tankA.maxHeight == ReservoirMaxHeight && tankA.area != 0.0
      && tankB.radius == ReservoirRadius && tankB.maxHeight == ReservoirMaxHeight && tankB.area != 0.0
      && ProcessConfigured(tankC, TankC) && ProcessConfigured(tankD, TankD) && ProcessConfigured(tankE, TankE)
    }

    static ghost predicate ProcessConfigured(t: FrustumTank, id: ProcessTank)
    {
      t.rBottom == ProcessGeometry(id).rBottom && t.rTop == ProcessGeometry(id).rTop
      && t.maxHeight == ProcessGeometry(id).maxHeight && t.kv == ValveGain(id)
      && t.kpWater == WaterPumpGain(id) && t.kpBrine == BrinePumpGain(id) && t.WellFormed()
    }

    /** The current state of the five tanks, in state order. */
    function CurrentState(): (s: seq<real>)
      reads tankA`level, tankB`level, tankC`level, tankC`concentration,
            tankD`level, tankD`concentration, tankE`level, tankE`concentration
      ensures |s| == 8
    {
      [tankA.level, tankB.level, tankC.level, tankC.concentration,
       tankD.level, tankD.concentration, tankE.level, tankE.concentration]
    }

    /** Every level within [0, its tank's height] and every concentration within [0, CB]. */
    ghost predicate InBounds()
      reads tankA`level, tankB`level, tankC`level, tankC`concentration,
            tankD`level, tankD`concentration, tankE`level, tankE`concentration
    {
      0.0 <= tankA.level <= tankA.maxHeight && 0.0 <= tankB.level <= tankB.maxHeight
      && 0.0 <= tankC.level <= tankC.maxHeight && 0.0 <= tankC.concentration <= CB
      && 0.0 <= tankD.level <= tankD.maxHeight && 0.0 <= tankD.concentration <= CB
      && 0.0 <= tankE.level <= tankE.maxHeight && 0.0 <= tankE.concentration <= CB
    }

    /** The five tanks are distinct objects built with the configured parameters. */
    ghost predicate Wired()
    {
      tankA != tankB && tankC != tankD && tankC != tankE && tankD != tankE && Configured()
    }

    /** Every tank's own invariant. */
    ghost predicate TanksValid()
      reads tankA`inflow, tankA`outflow, tankB`inflow, tankB`outflow,
            tankC`u1, tankC`u2, tankC`u3, tankD`u1, tankD`u2, tankD`u3, tankE`u1, tankE`u2, tankE`u3
    {
      tankA.Valid() && tankB.Valid() && tankC.Valid() && tankD.Valid() && tankE.Valid()
    }

    /** Reservoir A holds water and B holds brine at CB. */
    ghost predicate ReservoirsPure()
      reads tankA`concentration, tankB`concentration
    {
      tankA.concentration == 0.0 && tankB.concentration == CB
    }

    /** The cached state is the tanks' state. */
    ghost predicate StateCached()
      reads this`stateCache, tankA`level, tankB`level, tankC`level, tankC`concentration,
            tankD`level, tankD`concentration, tankE`level, tankE`concentration
    {
      stateCache == CurrentState()
    }

    /** The cached controls are a complete dictionary within the actuator ranges. */
    ghost predicate ControlsCached()
      reads this`controlCache
    {
      controlCache.Keys == ControlKeys() && ControlsInRange(controlCache)
    }

    ghost predicate Valid()
      reads this`stateCache, this`controlCache,
            tankA`level, tankA`concentration, tankA`inflow, tankA`outflow,
            tankB`level, tankB`concentration, tankB`inflow, tankB`outflow,
            tankC`level, tankC`concentration, tankC`u1, tankC`u2, tankC`u3,
            tankD`level, tankD`concentration, tankD`u1, tankD`u2, tankD`u3,
            tankE`level, tankE`concentration, tankE`u1, tankE`u2, tankE`u3
    {
      Consistent() && StateCached()
    }

    /** Everything Valid() promises except that the state cache is current. */
    ghost predicate Consistent()
      reads this`controlCache,
            tankA`level, tankA`concentration, tankA`inflow, tankA`outflow,
            tankB`level, tankB`concentration, tankB`inflow, tankB`outflow,
            tankC`level, tankC`concentration, tankC`u1, tankC`u2, tankC`u3,
            tankD`level, tankD`concentration, tankD`u1, tankD`u2, tankD`u3,
            tankE`level, tankE`concentration, tankE`u1, tankE`u2, tankE`u3
    {
      Wired() && TanksValid() && ReservoirsPure() && InBounds() && ControlsCached()
    }

    /** The default control dictionary: each name at its equilibrium value. */
    static function DefaultControls(): (d: map<string, real>)
      ensures d.Keys == ControlKeys()
      ensures forall i :: 0 <= i < 11 ==> d[ControlOrder[i]] == EquilibriumControlVector[i]
      ensures ControlsInRange(d)
    {
      map["uA" := UA_EQ, "uB" := UB_EQ,
          "uC1" := U1_EQ, "uC2" := U2_EQ, "uC3" := U3_EQ,
          "uD1" := U1_EQ, "uD2" := U2_EQ, "uD3" := U3_EQ,
          "uE1" := U1_EQ, "uE2" := U2_EQ, "uE3" := U3_EQ]
    }

    /** Builds the plant at its equilibrium operating point; `sqrt` is the square root used by the outlets. */
    constructor (sqrt: real -> real)
      requires IsSqrt(sqrt)
      ensures Valid()
      ensures CurrentState() == EquilibriumStateVector
      ensures controlCache == DefaultControls()
      ensures fresh(tankA) && fresh(tankB) && fresh(tankC) && fresh(tankD) && fresh(tankE)
    {
      var gC, gD, gE := ProcessGeometry(TankC), ProcessGeometry(TankD), ProcessGeometry(TankE);
      tankA := new CylindricalTank("A", ReservoirRadius, ReservoirMaxHeight, HA_EQ, 0.0);
      tankB := new CylindricalTank("B", ReservoirRadius, ReservoirMaxHeight, HB_EQ, CB);
      tankC := new FrustumTank("C", gC.rBottom, gC.rTop, gC.maxHeight, ValveGain(TankC),
                               WaterPumpGain(TankC), BrinePumpGain(TankC), sqrt, H_EQ, C_EQ);
      tankD := new FrustumTank("D", gD.rBottom, gD.rTop, gD.maxHeight, ValveGain(TankD),
                               WaterPumpGain(TankD), BrinePumpGain(TankD), sqrt, H_EQ, C_EQ);
      tankE := new FrustumTank("E", gE.rBottom, gE.rTop, gE.maxHeight, ValveGain(TankE),
                               WaterPumpGain(TankE), BrinePumpGain(TankE), sqrt, H_EQ, C_EQ);
      stateCache := EquilibriumStateVector;
      controlCache := DefaultControls();
    }

    /**
     * `_converter_controles_para_dict`: the denoted values keyed by name, then
     * each clipped to its actuator range by a loop over the eleven names.
     */
    method ControlsToDict(input: ControlInput) returns (r: Result<map<string, real>, Failure>)
      requires ControlKeys() <= controlCache.Keys
      ensures r.Err? <==> ControlValuesFromInput(input, controlCache).Err?
      ensures r.Err? ==> r.error == ControlValuesFromInput(input, controlCache).error
      ensures r.Ok? ==> r.value.Keys == ControlKeys() && ControlsInRange(r.value)
      ensures r.Ok? ==> forall i :: 0 <= i < 11 ==>
        r.value[ControlOrder[i]]
          == Clip(ControlValuesFromInput(input, controlCache).value[i],
                  ActuatorLimits[i].0, ActuatorLimits[i].1)
    {
      var raw := ControlValuesFromInput(input, controlCache);
      if raw.Err? {
        return Err(raw.error);
      }
      var d := ClipControls(KeyedControls(raw.value));
      return Ok(d);
    }

    /** Water drawn from A: the sum of the three (clipped) water-pump flows. */
    function WaterDemand(): real
      reads tankC`u1, tankD`u1, tankE`u1
    {
      Demand(tankC.kpWater, tankC.u1, tankD.kpWater, tankD.u1, tankE.kpWater, tankE.u1)
    }

    /** Brine drawn from B: the sum of the three (clipped) brine-pump flows. */
    function BrineDemand(): real
      reads tankC`u2, tankD`u2, tankE`u2
    {
      Demand(tankC.kpBrine, tankC.u2, tankD.kpBrine, tankD.u2, tankE.kpBrine, tankE.u2)
    }

    /**
     * State after one system step of length dt from state s under the drive p:
     * each reservoir integrates its supply inflow against the pumps' demand, each
     * process tank takes one coupled RK4 step under its commands.
     */
    function NextState(s: seq<real>, p: Drive, dt: real): (s': seq<real>)
      requires |s| == 8 && Configured()
      ensures |s'| == 8
    {
      var waterOut := Demand(tankC.kpWater, p.c1, tankD.kpWater, p.d1, tankE.kpWater, p.e1);
      var brineOut := Demand(tankC.kpBrine, p.c2, tankD.kpBrine, p.d2, tankE.kpBrine, p.e2);
      var a := CylinderNextLevel(s[0], NonNegative(Supply(SupplyGainA, p.uA)), NonNegative(waterOut),
                                 tankA.area, tankA.maxHeight, dt);
      var b := CylinderNextLevel(s[1], NonNegative(Supply(SupplyGainB, p.uB)), NonNegative(brineOut),
                                 tankB.area, tankB.maxHeight, dt);
      var c := tankC.Step(p.c1, p.c2, p.c3, s[2], s[3], dt);
      var d := tankD.Step(p.d1, p.d2, p.d3, s[4], s[5], dt);
      var e := tankE.Step(p.e1, p.e2, p.e3, s[6], s[7], dt);
      [a, b, c.0, c.1, d.0, d.1, e.0, e.1]
    }

    /** State after the sub-steps `steps`, taken in order under the same drive. */
    function Iterate(s: seq<real>, p: Drive, steps: seq<real>): (s': seq<real>)
      requires |s| == 8 && Configured()
      ensures |s'| == 8
      decreases |steps|
    {
      if steps == [] then s
      else Iterate(NextState(s, p, steps[0]), p, steps[1..])
    }

    /** Integrating t in sub-steps is one sub-step of min(ref, t) followed by integrating the rest. */
    lemma IterateFirstSubStep(s: seq<real>, p: Drive, t: real, step: real, rest: real, ref: real)
      requires |s| == 8 && Configured()
      requires ref > 0.0 && (ref >= Tolerance || t <= ref) && t > Tolerance
      requires step == Min(ref, t) && rest == t - step
      ensures ref >= Tolerance || rest <= ref
      ensures Iterate(s, p, SubSteps(t, ref)) == Iterate(NextState(s, p, step), p, SubSteps(rest, ref))
    {
      var tail := SubSteps(rest, ref);
      assert SubSteps(t, ref) == [step] + tail;
      assert ([step] + tail)[1..] == tail;
    }

    /** The process commands held by the three process tanks. */
    function Commands(): (c: seq<real>)
      reads tankC`u1, tankC`u2, tankC`u3, tankD`u1, tankD`u2, tankD`u3, tankE`u1, tankE`u2, tankE`u3
      ensures |c| == 9
    {
      [tankC.u1, tankC.u2, tankC.u3, tankD.u1, tankD.u2, tankD.u3, tankE.u1, tankE.u2, tankE.u3]
    }

    /** The flows held by the two reservoirs. */
    function Flows(): seq<real>
      reads tankA`inflow, tankA`outflow, tankB`inflow, tankB`outflow
    {
      [tankA.inflow, tankA.outflow, tankB.inflow, tankB.outflow]
    }

    /** The reservoir flows a completed update of `u` leaves: supply in, the pumps' demand out. */
    ghost predicate FlowsSet(u: map<string, real>)
      reads tankA`inflow, tankA`outflow, tankB`inflow, tankB`outflow,
            tankC`u1, tankC`u2, tankD`u1, tankD`u2, tankE`u1, tankE`u2
    {
      && "uA" in u && "uB" in u
      && Flows() == [NonNegative(Supply(SupplyGainA, u["uA"])), NonNegative(WaterDemand()),
                     NonNegative(Supply(SupplyGainB, u["uB"])), NonNegative(BrineDemand())]
    }

    /** The nine process commands are those of the drive. */
    ghost predicate CommandsApplied(p: Drive)
      reads tankC`u1, tankC`u2, tankC`u3, tankD`u1, tankD`u2, tankD`u3, tankE`u1, tankE`u2, tankE`u3
    {
      Commands() == [p.c1, p.c2, p.c3, p.d1, p.d2, p.d3, p.e1, p.e2, p.e3]
    }

    /**
     * The commands after the update has read `u` in order: each tank whose three
     * keys, and those of every tank before it, are present holds their clipped
     * values; every other tank keeps the commands it held before.
     */
    ghost predicate CommandsAfterReading(u: map<string, real>, before: seq<real>)
      requires |before| == 9
      reads tankC`u1, tankC`u2, tankC`u3, tankD`u1, tankD`u2, tankD`u3, tankE`u1, tankE`u2, tankE`u3
    {
      && (if HasCKeys(u)
          then tankC.u1 == Clip(u["uC1"], 0.0, 1.0) && tankC.u2 == Clip(u["uC2"], 0.0, 1.0)
               && tankC.u3 == Clip(u["uC3"], 0.0, 1.0)
          else tankC.u1 == before[0] && tankC.u2 == before[1] && tankC.u3 == before[2])
      && (if HasCKeys(u) && HasDKeys(u)
          then tankD.u1 == Clip(u["uD1"], 0.0, 1.0) && tankD.u2 == Clip(u["uD2"], 0.0, 1.0)
               && tankD.u3 == Clip(u["uD3"], 0.0, 1.0)
          else tankD.u1 == before[3] && tankD.u2 == before[4] && tankD.u3 == before[5])
      && (if HasCKeys(u) && HasDKeys(u) && HasEKeys(u)
          then tankE.u1 == Clip(u["uE1"], 0.0, 1.0) && tankE.u2 == Clip(u["uE2"], 0.0, 1.0)
               && tankE.u3 == Clip(u["uE3"], 0.0, 1.0)
          else tankE.u1 == before[6] && tankE.u2 == before[7] && tankE.u3 == before[8])
    }

    /**
     * First half of `atualizar_sistema`: the commands of C, then D, then E, each
     * tank's three read before it is set; it stops at the first group with a
     * missing key.
     */
    method ApplyCommands(u: map<string, real>) returns (complete: bool)
      requires Valid()
      modifies tankC`u1, tankC`u2, tankC`u3, tankD`u1, tankD`u2, tankD`u3, tankE`u1, tankE`u2, tankE`u3
      ensures Valid()
      ensures complete <==> HasCKeys(u) && HasDKeys(u) && HasEKeys(u)
      ensures complete ==> HasControls(u) ==> CommandsApplied(DriveOf(u))
      ensures CommandsAfterReading(u, old(Commands()))
    {
      if !HasCKeys(u) {
        return false;
      }
      tankC.SetControls(u["uC1"], u["uC2"], u["uC3"]);
      if !HasDKeys(u) {
        return false;
      }
      tankD.SetControls(u["uD1"], u["uD2"], u["uD3"]);
      if !HasEKeys(u) {
        return false;
      }
      tankE.SetControls(u["uE1"], u["uE2"], u["uE3"]);
      return true;
    }

    /**
     * Second half of `atualizar_sistema`: the reservoir flows from the supply
     * commands and the pumps' demand, one step of every tank, and the refreshed
     * cache.
     */
    method StepPlant(dt: real, u: map<string, real>) returns (s: seq<real>)
      requires Valid() && HasControls(u) && CommandsApplied(DriveOf(u))
      modifies this`stateCache, tankA`inflow, tankA`outflow, tankA`level, tankB`inflow, tankB`outflow, tankB`level,
               tankC`level, tankC`concentration, tankD`level, tankD`concentration, tankE`level, tankE`concentration
      ensures Valid()
      ensures Flows() == [NonNegative(Supply(SupplyGainA, u["uA"])), NonNegative(WaterDemand()),
                          NonNegative(Supply(SupplyGainB, u["uB"])), NonNegative(BrineDemand())]
      ensures CurrentState() == NextState(old(CurrentState()), DriveOf(u), dt)
      ensures s == CurrentState()
    {
      ghost var p := DriveOf(u);
      StepReservoirs(dt, u, p);
      StepProcessTanks(dt, p);
      stateCache := CurrentState();
      s := stateCache;
    }

    /** The reservoir part of a step: the supply and demand flows are set, then A and B advance. */
    method StepReservoirs(dt: real, u: map<string, real>, ghost p: Drive)
      requires Consistent() && "uA" in u && "uB" in u && p.uA == u["uA"] && p.uB == u["uB"]
      requires CommandsApplied(p)
      modifies tankA`inflow, tankA`outflow, tankA`level, tankB`inflow, tankB`outflow, tankB`level
      ensures Consistent()
      ensures Flows() == [NonNegative(Supply(SupplyGainA, u["uA"])), NonNegative(WaterDemand()),
                          NonNegative(Supply(SupplyGainB, u["uB"])), NonNegative(BrineDemand())]
      ensures tankA.level
           == CylinderNextLevel(old(tankA.level), NonNegative(Supply(SupplyGainA, p.uA)),
                                NonNegative(Demand(tankC.kpWater, p.c1, tankD.kpWater, p.d1, tankE.kpWater, p.e1)),
                                tankA.area, tankA.maxHeight, dt)
      ensures tankB.level
           == CylinderNextLevel(old(tankB.level), NonNegative(Supply(SupplyGainB, p.uB)),
                                NonNegative(Demand(tankC.kpBrine, p.c2, tankD.kpBrine, p.d2, tankE.kpBrine, p.e2)),
                                tankB.area, tankB.maxHeight, dt)
    {
      var waterOut := WaterDemand();
      var brineOut := BrineDemand();
      var supplyA := Supply(SupplyGainA, u["uA"]);
      var supplyB := Supply(SupplyGainB, u["uB"]);
      tankA.SetFlows(supplyA, waterOut);
      tankB.SetFlows(supplyB, brineOut);
      var hA, _ := tankA.Update(dt);
      var hB, _ := tankB.Update(dt);
    }

    /** The process-tank part of a step: C, D and E each take one RK4 step under their commands. */
    method StepProcessTanks(dt: real, ghost p: Drive)
      requires Consistent() && CommandsApplied(p)
      modifies tankC`level, tankC`concentration, tankD`level, tankD`concentration, tankE`level, tankE`concentration
      ensures Consistent()
      ensures (tankC.level, tankC.concentration)
           == tankC.Step(p.c1, p.c2, p.c3, old(tankC.level), old(tankC.concentration), dt)
      ensures (tankD.level, tankD.concentration)
           == tankD.Step(p.d1, p.d2, p.d3, old(tankD.level), old(tankD.concentration), dt)
      ensures (tankE.level, tankE.concentration)
           == tankE.Step(p.e1, p.e2, p.e3, old(tankE.level), old(tankE.concentration), dt)
    {
      var hC, cC := tankC.Update(dt);
      var hD, cD := tankD.Update(dt);
      var hE, cE := tankE.Update(dt);
    }

    /**
     * `atualizar_sistema`: applies the process commands, sets the reservoir
     * flows, steps A and B, then C, D and E, and refreshes the state cache. A
     * key missing from `u` raises KeyError when it is first read, after the
     * commands of the tanks whose keys were all read before it have been applied
     * and before any flow or level changes.
     */
    method UpdateSystem(dt: real, u: map<string, real>) returns (r: Result<seq<real>, Failure>)
      requires Valid()
      modifies this`stateCache, tankA, tankB, tankC, tankD, tankE
      ensures Valid()
      ensures controlCache == old(controlCache)
      ensures r.Err? <==> !HasControls(u)
      ensures r.Err? ==> FirstMissing(UpdateReadOrder, u) < 11
                         && r.error == MissingControl(UpdateReadOrder[FirstMissing(UpdateReadOrder, u)])
      ensures CommandsAfterReading(u, old(Commands()))
      ensures r.Err? ==> CurrentState() == old(CurrentState()) && Flows() == old(Flows())
      ensures r.Ok? ==>
        && Flows() == [NonNegative(Supply(SupplyGainA, u["uA"])), NonNegative(WaterDemand()),
                       NonNegative(Supply(SupplyGainB, u["uB"])), NonNegative(BrineDemand())]
        && CurrentState() == NextState(old(CurrentState()), DriveOf(u), dt)
        && r.value == CurrentState()
    {
      ReadOrderCoversControls(u);
      var complete := ApplyCommands(u);
      if !complete || !("uA" in u && "uB" in u) {
        return Err(MissingControl(UpdateReadOrder[FirstMissing(UpdateReadOrder, u)]));
      }
      var s := StepPlant(dt, u);
      return Ok(s);
    }

    /** `obter_estado`: refreshes the cache and returns the state vector. */
    method GetState() returns (s: seq<real>)
      requires Valid()
      modifies this`stateCache
      ensures Valid()
      ensures stateCache == old(stateCache)
      ensures s == CurrentState()
    {
      stateCache := CurrentState();
      s := stateCache;
    }

    /** The state `definir_estado` stores for vector v: levels and concentrations clipped to their ranges. */
    function Clamped(v: seq<real>): (r: seq<real>)
      requires |v| == 8
      ensures |r| == 8
    {
      [Clip(v[0], 0.0, tankA.maxHeight), Clip(v[1], 0.0, tankB.maxHeight),
       Clip(v[2], 0.0, tankC.maxHeight), Clip(v[3], C_MIN, CB),
       Clip(v[4], 0.0, tankD.maxHeight), Clip(v[5], C_MIN, CB),
       Clip(v[6], 0.0, tankE.maxHeight), Clip(v[7], C_MIN, CB)]
    }

    /** Every slot of v lies in the range Clamped clips it to. */
    ghost predicate WithinRanges(v: seq<real>)
      requires |v| == 8
    {
      0.0 <= v[0] <= tankA.maxHeight && 0.0 <= v[1] <= tankB.maxHeight
      && 0.0 <= v[2] <= tankC.maxHeight && C_MIN <= v[3] <= CB
      && 0.0 <= v[4] <= tankD.maxHeight && C_MIN <= v[5] <= CB
      && 0.0 <= v[6] <= tankE.maxHeight && C_MIN <= v[7] <= CB
    }

    /** Clamping lands within the ranges, and leaves a vector already within them as it is. */
    lemma ClampedIsProjection(v: seq<real>)
      requires |v| == 8 && Configured()
      ensures WithinRanges(Clamped(v))
      ensures WithinRanges(v) <==> Clamped(v) == v
      ensures Clamped(Clamped(v)) == Clamped(v)
    {
      if Clamped(v) == v {
        assert WithinRanges(v);
      }
    }

    /** Writes a state vector that is already within the tanks' ranges into the tanks. */
    method StoreState(w: seq<real>)
      requires Valid() && |w| == 8 && WithinRanges(w)
      modifies this`stateCache, tankA`level, tankB`level, tankC`level, tankC`concentration,
               tankD`level, tankD`concentration, tankE`level, tankE`concentration
      ensures Valid()
      ensures CurrentState() == w
    {
      tankA.level := w[0];
      tankB.level := w[1];
      tankC.level := w[2];
      tankC.concentration := w[3];
      tankD.level := w[4];
      tankD.concentration := w[5];
      tankE.level := w[6];
      tankE.concentration := w[7];
      stateCache := CurrentState();
    }

    /**
     * `definir_estado`: stores the denoted state, clipped; a vector of the wrong
     * length raises before any tank changes.
     */
    method SetState(input: StateInput) returns (err: Option<Failure>)
      requires Valid()
      modifies this`stateCache, tankA`level, tankB`level, tankC`level, tankC`concentration,
               tankD`level, tankD`concentration, tankE`level, tankE`concentration
      ensures Valid()
      ensures err.Some? <==> StateFromInput(input, old(stateCache)).Err?
      ensures err.Some? ==> err.value == StateFromInput(input, old(stateCache)).error
                            && CurrentState() == old(CurrentState())
      ensures err.None? ==> CurrentState() == Clamped(StateFromInput(input, old(stateCache)).value)
    {
      var r := StateFromInput(input, stateCache);
      if r.Err? {
        return Some(r.error);
      }
      ClampedIsProjection(r.value);
      StoreState(Clamped(r.value));
      return None;
    }

    /** One pass of the sub-stepping loop: a system update of `step`, the first sub-step of t. */
    method SubStep(u: map<string, real>, ghost t: real, step: real, ghost rest: real, ghost ref: real,
                   ghost target: seq<real>)
      requires Valid() && controlCache == u
      requires ref > 0.0 && (ref >= Tolerance || t <= ref) && t > Tolerance && step == Min(ref, t) && rest == t - step
      requires Iterate(CurrentState(), DriveOf(u), SubSteps(t, ref)) == target
      modifies this`stateCache, tankA, tankB, tankC, tankD, tankE
      ensures Valid() && controlCache == u
      ensures ref >= Tolerance || rest <= ref
      ensures Iterate(CurrentState(), DriveOf(u), SubSteps(rest, ref)) == target
      ensures CommandsApplied(DriveOf(u)) && FlowsSet(u)
    {
      ghost var cur := CurrentState();
      HasControlsIsControlKeys(u);
      var r := UpdateSystem(step, u);
      assert r.Ok?;
      IterateFirstSubStep(cur, DriveOf(u), t, step, rest, ref);
    }

    /**
     * The sub-stepping loop of `integrar_passo`: while more than the tolerance
     * of the interval is left, one system update of min(ref, remaining).
     */
    method Integrate(dt: real, ref: real, u: map<string, real>)
      requires Valid() && controlCache == u
      requires ref > 0.0 && (ref >= Tolerance || dt <= ref)
      modifies this`stateCache, tankA, tankB, tankC, tankD, tankE
      ensures Valid() && controlCache == u
      ensures CurrentState() == Iterate(old(CurrentState()), DriveOf(u), SubSteps(dt, ref))
      ensures dt <= Tolerance ==> Commands() == old(Commands()) && Flows() == old(Flows())
      ensures dt > Tolerance ==> CommandsApplied(DriveOf(u)) && FlowsSet(u)
    {
      var remaining := dt;
      ghost var s0 := CurrentState();
      ghost var p := DriveOf(u);
      ghost var c0, f0 := Commands(), Flows();
      ghost var stepped := false;
      while remaining > Tolerance
        invariant Valid() && controlCache == u
        invariant ref > 0.0 && (ref >= Tolerance || remaining <= ref)
        invariant Iterate(CurrentState(), p, SubSteps(remaining, ref)) == Iterate(s0, p, SubSteps(dt, ref))
        invariant !stepped ==> remaining == dt && Commands() == c0 && Flows() == f0
        invariant stepped ==> dt > Tolerance && CommandsApplied(p) && FlowsSet(u)
        decreases (remaining * 1000000000.0).Floor
      {
        var step := Min(ref, remaining);
        var rest := remaining - step;
        SubStep(u, remaining, step, rest, ref, Iterate(s0, p, SubSteps(dt, ref)));
        remaining := rest;
        stepped := true;
      }
    }

    /**
     * `integrar_passo`: a non-positive dt changes nothing and returns the state;
     * otherwise the controls are converted (a bad vector raises before any
     * change), stored as the control cache, the method name is checked (an
     * unknown one raises only now, with the cache already overwritten), and the
     * interval is integrated in sub-steps of at most 0.5 s for "rk4", or with a
     * reference step of the whole dt for "euler".
     */
    method IntegrateStep(controls: ControlInput, dt: real, methodName: Option<string>)
      returns (r: Result<seq<real>, Failure>)
      requires Valid()
      modifies this, tankA, tankB, tankC, tankD, tankE
      ensures Valid()
      ensures dt <= 0.0 ==> r == Ok(old(CurrentState())) && CurrentState() == old(CurrentState())
                            && controlCache == old(controlCache)
                            && Commands() == old(Commands()) && Flows() == old(Flows())
      ensures dt > 0.0 && ControlValuesFromInput(controls, old(controlCache)).Err? ==>
        r == Err(ControlValuesFromInput(controls, old(controlCache)).error)
        && CurrentState() == old(CurrentState()) && controlCache == old(controlCache)
        && Commands() == old(Commands()) && Flows() == old(Flows())
      ensures dt > 0.0 && ControlValuesFromInput(controls, old(controlCache)).Ok? ==>
        && (forall i :: 0 <= i < 11 ==>
             controlCache[ControlOrder[i]]
               == Clip(ControlValuesFromInput(controls, old(controlCache)).value[i],
                       ActuatorLimits[i].0, ActuatorLimits[i].1))
        && (MethodName(methodName) !in {"rk4", "euler"} ==>
             && r == Err(UnknownMethod(MethodName(methodName))) && CurrentState() == old(CurrentState())
             && Commands() == old(Commands()) && Flows() == old(Flows()))
        && (MethodName(methodName) in {"rk4", "euler"} ==>
             && CurrentState()
                == Iterate(old(CurrentState()), DriveOf(controlCache),
                           SubSteps(dt, if MethodName(methodName) == "euler" then dt else IntegrationStep))
             && r == Ok(CurrentState())
             && (dt <= Tolerance ==> Commands() == old(Commands()) && Flows() == old(Flows()))
             && (dt > Tolerance ==> CommandsApplied(DriveOf(controlCache)) && FlowsSet(controlCache)))
    {
      if dt <= 0.0 {
        var s := GetState();
        return Ok(s);
      }
      var converted := ControlsToDict(controls);
      if converted.Err? {
        return Err(converted.error);
      }
      var u := converted.value;
      controlCache := u;
      var name := MethodName(methodName);
      if name !in {"rk4", "euler"} {
        return Err(UnknownMethod(name));
      }
      var ref := if name == "euler" then dt else IntegrationStep;
      Integrate(dt, ref, u);
      var s := GetState();
      return Ok(s);
    }
  }
}
