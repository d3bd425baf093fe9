/**
 * The real-time service: a small state machine over name-keyed dictionaries.
 * It starts at an equilibrium point, relaxes every variable that has a
 * set-point toward it with a first-order law, nudges the variable's pump by a
 * proportional step, and sends one state message per loop iteration.
 *
 * The wall clock, the session identifier, the noise draws and the outcome of
 * the send and of the sleep are parameters; sent messages are appended to a
 * log.
 */
module Realtime {
  import opened Wrappers
  import opened Params

  // ---------------------------------------------------------------------------
  // Dictionaries in insertion order
  // ---------------------------------------------------------------------------

  /** A dictionary: its keys in insertion order and its key-value map. */
  datatype Dict = Dict(keys: seq<string>, values: map<string, real>)

  /** Every key once, and the listed keys are exactly the mapped ones. */
  ghost predicate WellFormed(d: Dict)
  {
    && (forall i, j :: 0 <= i < j < |d.keys| ==> d.keys[i] != d.keys[j])
    && (forall k :: k in d.values <==> k in d.keys)
  }

  const Empty: Dict := Dict([], map[])

  /** Assignment d[k] = v: an existing key keeps its place, a new key goes last. */
  function Put(d: Dict, k: string, v: real): (r: Dict)
    ensures WellFormed(d) ==> WellFormed(r)
    ensures r.values == d.values[k := v]
    ensures WellFormed(d) && k in d.values ==> r.keys == d.keys
  {
    if k in d.values then Dict(d.keys, d.values[k := v]) else Dict(d.keys + [k], d.values[k := v])
  }

  /** Python's `sub in s` on strings: sub occurs in s at some position. */
  function Contains(s: string, sub: string): bool
    decreases |s|
  {
    |sub| <= |s| && (s[..|sub|] == sub || Contains(s[1..], sub))
  }

  /** sub occurs in s at position i. */
  predicate OccursAt(s: string, sub: string, i: int)
  {
    0 <= i <= |s| - |sub| && s[i..i + |sub|] == sub
  }

  /** Contains finds exactly the positions where sub occurs. */
  lemma {:induction false} ContainsIsOccurrence(s: string, sub: string)
    ensures Contains(s, sub) <==> exists i :: OccursAt(s, sub, i)
    decreases |s|
  {
    if |sub| <= |s| {
      if s[..|sub|] == sub {
        assert OccursAt(s, sub, 0);
      } else {
        assert |sub| > 0 by { assert s[..0] == []; }
        ContainsIsOccurrence(s[1..], sub);
        if exists i :: OccursAt(s, sub, i) {
          var i :| OccursAt(s, sub, i);
          assert i != 0;
          assert s[1..][i - 1..i - 1 + |sub|] == s[i..i + |sub|];
          assert OccursAt(s[1..], sub, i - 1);
        }
        if exists i :: OccursAt(s[1..], sub, i) {
          var i :| OccursAt(s[1..], sub, i);
          assert s[i + 1..i + 1 + |sub|] == s[1..][i..i + |sub|];
          assert OccursAt(s, sub, i + 1);
        }
      }
    }
  }

  // ---------------------------------------------------------------------------
  // Configuration, messages and the service state
  // ---------------------------------------------------------------------------

  /** The equilibrium point of a configuration: levels and concentrations by tank, controls by name. */
  datatype Equilibrium = Equilibrium(levels: Dict, concentrations: Dict, controls: Dict)

  datatype Config = Config(samplingInterval: real, equilibrium: Equilibrium, enableNoise: bool, noiseLevel: real)

  ghost predicate ConfigWellFormed(c: Config)
  {
    WellFormed(c.equilibrium.levels) && WellFormed(c.equilibrium.concentrations) && WellFormed(c.equilibrium.controls)
  }

  /** A `state_update` message: the time and the three dictionaries at that time. */
  datatype Message = StateUpdate(timestamp: real, variables: Dict, setpoints: Dict, controls: Dict)

  /** What `get_current_state` returns. */
  datatype StateView = StateView(variables: Dict, setpoints: Dict, controls: Dict,
                                 isRunning: bool, isPaused: bool, sessionId: Option<string>)

  /** A noise draw for a variable at a given standard deviation (a normal sample with mean 0). */
  type Sampler = (string, real) -> real

  const LevelSuffix: string := "_level"
  const ConcentrationSuffix: string := "_concentration"

  /** The keys with a suffix appended, in order. */
  function Labeled(ks: seq<string>, suffix: string): (r: seq<string>)
    ensures |r| == |ks|
    ensures forall i :: 0 <= i < |ks| ==> r[i] == ks[i] + suffix
  {
    seq(|ks|, i requires 0 <= i < |ks| => ks[i] + suffix)
  }

  lemma SuffixCancels(a: string, b: string, suffix: string)
    requires a + suffix == b + suffix
    ensures a == b
  {
    assert |a| == |b|;
    assert a == (a + suffix)[..|a|];
    assert b == (b + suffix)[..|b|];
  }

  lemma SuffixesDiffer(a: string, b: string)
    ensures a + LevelSuffix != b + ConcentrationSuffix
  {
    var x := a + LevelSuffix;
    var y := b + ConcentrationSuffix;
    assert x[|x| - 1] == 'l';
    assert y[|y| - 1] == 'n';
  }

  lemma SuffixInjective(suffix: string)
    ensures forall a: string, b: string :: a + suffix == b + suffix ==> a == b
  {
    forall a: string, b: string | a + suffix == b + suffix
      ensures a == b
    {
      SuffixCancels(a, b, suffix);
    }
  }

  /** `{f"{k}{suffix}": v for k, v in d.items()}`. */
  function Relabel(d: Dict, suffix: string): Dict
  {
    SuffixInjective(suffix);
    Dict(Labeled(d.keys, suffix),
         map k | k in d.values :: k + suffix := d.values[k])
  }

  /** The variables at an equilibrium: `{k}_level` entries, then `{k}_concentration` entries. */
  function EquilibriumState(eq: Equilibrium): Dict
  {
    var levels := Relabel(eq.levels, LevelSuffix);
    var concentrations := Relabel(eq.concentrations, ConcentrationSuffix);
    Dict(levels.keys + concentrations.keys, levels.values + concentrations.values)
  }

  lemma RelabelKeysDistinct(d: Dict, suffix: string)
    requires WellFormed(d)
    ensures var r := Relabel(d, suffix); forall i, j :: 0 <= i < j < |r.keys| ==> r.keys[i] != r.keys[j]
  {
    var r := Relabel(d, suffix);
    forall i, j | 0 <= i < j < |r.keys|
      ensures r.keys[i] != r.keys[j]
    {
      if r.keys[i] == r.keys[j] {
        SuffixCancels(d.keys[i], d.keys[j], suffix);
      }
    }
  }

  lemma RelabelKeysMapped(d: Dict, suffix: string)
    requires WellFormed(d)
    ensures var r := Relabel(d, suffix); forall k :: k in r.values <==> k in r.keys
  {
    var r := Relabel(d, suffix);
    forall k
      ensures k in r.values <==> k in r.keys
    {
      if k in r.values {
        var k0 :| k0 in d.values && k == k0 + suffix;
        var i :| 0 <= i < |d.keys| && d.keys[i] == k0;
        assert r.keys[i] == k;
      }
      if k in r.keys {
        var i :| 0 <= i < |r.keys| && r.keys[i] == k;
        assert d.keys[i] in d.values;
      }
    }
  }

  lemma RelabelWellFormed(d: Dict, suffix: string)
    requires WellFormed(d)
    ensures WellFormed(Relabel(d, suffix))
  {
    RelabelKeysDistinct(d, suffix);
    RelabelKeysMapped(d, suffix);
  }

  /** The equilibrium state is a dictionary: every key once, and the listed keys are the mapped ones. */
  lemma EquilibriumStateWellFormed(eq: Equilibrium)
    requires WellFormed(eq.levels) && WellFormed(eq.concentrations)
    ensures WellFormed(EquilibriumState(eq))
  {
    var levels := Relabel(eq.levels, LevelSuffix);
    var concentrations := Relabel(eq.concentrations, ConcentrationSuffix);
    RelabelWellFormed(eq.levels, LevelSuffix);
    RelabelWellFormed(eq.concentrations, ConcentrationSuffix);
    var r := EquilibriumState(eq);
    forall i, j | 0 <= i < j < |r.keys|
      ensures r.keys[i] != r.keys[j]
    {
      if i < |levels.keys| <= j {
        SuffixesDiffer(eq.levels.keys[i], eq.concentrations.keys[j - |levels.keys|]);
      }
    }
  }

  /**
   * The equilibrium state's keys are exactly `{k}_level` for the tanks with a
   * level and `{k}_concentration` for the tanks with a concentration, each
   * carrying the configured value.
   */
  lemma EquilibriumStateEntries(eq: Equilibrium)
    ensures forall key :: key in EquilibriumState(eq).values <==>
              (exists k :: k in eq.levels.values && key == k + LevelSuffix) ||
              (exists k :: k in eq.concentrations.values && key == k + ConcentrationSuffix)
    ensures forall k :: k in eq.levels.values ==> EquilibriumState(eq).values[k + LevelSuffix] == eq.levels.values[k]
    ensures forall k :: k in eq.concentrations.values ==>
              EquilibriumState(eq).values[k + ConcentrationSuffix] == eq.concentrations.values[k]
  {
    var levels := Relabel(eq.levels, LevelSuffix);
    var concentrations := Relabel(eq.concentrations, ConcentrationSuffix);
    assert EquilibriumState(eq).values == levels.values + concentrations.values;
    forall key
      ensures key in EquilibriumState(eq).values <==>
              (exists k :: k in eq.levels.values && key == k + LevelSuffix) ||
              (exists k :: k in eq.concentrations.values && key == k + ConcentrationSuffix)
    {
      RelabelMembers(eq.levels, LevelSuffix, key);
      RelabelMembers(eq.concentrations, ConcentrationSuffix, key);
    }
    forall k | k in eq.levels.values
      ensures EquilibriumState(eq).values[k + LevelSuffix] == eq.levels.values[k]
    {
      RelabelMembers(eq.concentrations, ConcentrationSuffix, k + LevelSuffix);
      forall k0 ensures k + LevelSuffix != k0 + ConcentrationSuffix {
        SuffixesDiffer(k, k0);
      }
      RelabelEntry(eq.levels, LevelSuffix, k);
    }
    forall k | k in eq.concentrations.values
      ensures EquilibriumState(eq).values[k + ConcentrationSuffix] == eq.concentrations.values[k]
    {
      RelabelEntry(eq.concentrations, ConcentrationSuffix, k);
    }
  }

  lemma RelabelMembers(d: Dict, suffix: string, key: string)
    ensures key in Relabel(d, suffix).values <==> exists k :: k in d.values && key == k + suffix
  {
  }

  lemma RelabelEntry(d: Dict, suffix: string, k: string)
    requires k in d.values
    ensures k + suffix in Relabel(d, suffix).values && Relabel(d, suffix).values[k + suffix] == d.values[k]
  {
    SuffixInjective(suffix);
  }

  // ---------------------------------------------------------------------------
  // The first-order demo dynamics
  // ---------------------------------------------------------------------------

  const Tau: real := 300.0

  /** One Euler step of dx/dt = (setpoint - x) / tau over dt. */
  function Drift(x: real, setpoint: real, dt: real): real
  {
    x + (setpoint - x) / Tau * dt
  }

  /** A step no longer than tau moves toward the set-point and never past it. */
  lemma DriftApproachesSetpoint(x: real, setpoint: real, dt: real)
    requires 0.0 <= dt <= Tau
    ensures x <= setpoint ==> x <= Drift(x, setpoint, dt) <= setpoint
    ensures setpoint <= x ==> setpoint <= Drift(x, setpoint, dt) <= x
  {
    var a := (setpoint - x) / Tau;
    assert setpoint - x == a * Tau;
    assert Drift(x, setpoint, dt) == x + a * dt;
    assert setpoint - Drift(x, setpoint, dt) == a * (Tau - dt);
    if x <= setpoint {
      NonNegativeProduct(a, dt);
      NonNegativeProduct(a, Tau - dt);
    } else {
      NonNegativeProduct(-a, dt);
      NonNegativeProduct(-a, Tau - dt);
      assert -(a * dt) == (-a) * dt;
      assert -(a * (Tau - dt)) == (-a) * (Tau - dt);
    }
  }

  /** The physical limits: `level` keys in [0, 3], `concentration` keys in [0, 360], others unlimited. */
  function Limit(key: string, x: real): real
  {
    if Contains(key, "level") then Clip(x, 0.0, 3.0)
    else if Contains(key, "concentration") then Clip(x, 0.0, 360.0)
    else x
  }

  lemma LimitBounds(key: string, x: real)
    ensures Contains(key, "level") ==> 0.0 <= Limit(key, x) <= 3.0
    ensures !Contains(key, "level") && Contains(key, "concentration") ==> 0.0 <= Limit(key, x) <= 360.0
    ensures !Contains(key, "level") && !Contains(key, "concentration") ==> Limit(key, x) == x
  {
  }

  /** The noise level when the configuration enables noise. */
  function NoiseOf(config: Option<Config>): Option<real>
  {
    if config.Some? && config.value.enableNoise then Some(config.value.noiseLevel) else None
  }

  /**
   * `_integrate_step` over the keys ks, in order: each key with a set-point
   * drifts, takes its noise draw and is limited. A draw at a negative
   * standard deviation raises after the drift was stored; the step then
   * stops with false.
   */
  function IntegrateKeys(d: Dict, ks: seq<string>, sp: Dict, dt: real, noise: Option<real>, sample: Sampler)
    : (Dict, bool)
    decreases |ks|
  {
    if ks == [] then (d, true)
    else
      var key := ks[0];
      if key !in sp.values || key !in d.values then IntegrateKeys(d, ks[1..], sp, dt, noise, sample)
      else
        var x := d.values[key];
        var drifted := Drift(x, sp.values[key], dt);
        if DrawRaises(noise, x) then (Put(d, key, drifted), false)
        else IntegrateKeys(Put(d, key, Limit(key, WithNoise(drifted, key, x, noise, sample))), ks[1..], sp, dt, noise, sample)
  }

  function Abs(x: real): real { if x < 0.0 then -x else x }

  /** The draw's standard deviation: the noise level times the magnitude of the value before the step. */
  function Scale(level: real, x: real): real { level * Abs(x) }

  /** `np.random.normal` raises for a negative standard deviation. */
  predicate DrawRaises(noise: Option<real>, x: real)
  {
    noise.Some? && Scale(noise.value, x) < 0.0
  }

  /** The drifted value plus the noise draw when noise is on. */
  function WithNoise(drifted: real, key: string, x: real, noise: Option<real>, sample: Sampler): real
  {
    if noise.Some? then drifted + sample(key, Scale(noise.value, x)) else drifted
  }

  /** The value a key takes when noise is off. */
  function Relaxed(d: Dict, sp: Dict, dt: real, key: string): real
    requires key in d.values
  {
    if key in sp.values then Limit(key, Drift(d.values[key], sp.values[key], dt)) else d.values[key]
  }

  /**
   * With noise off the step over distinct keys keeps the key order, relaxes
   * and limits every visited key that has a set-point and leaves every other
   * value as it was.
   */
  lemma {:induction false} IntegrateKeysWithoutNoise(d: Dict, ks: seq<string>, sp: Dict, dt: real, sample: Sampler)
    requires WellFormed(d)
    requires forall i, j :: 0 <= i < j < |ks| ==> ks[i] != ks[j]
    ensures var r := IntegrateKeys(d, ks, sp, dt, None, sample);
            && r.1 && r.0.keys == d.keys && WellFormed(r.0)
            && (forall key :: key in r.0.values <==> key in d.values)
            && (forall key :: key in d.values ==>
                  r.0.values[key] == if key in ks then Relaxed(d, sp, dt, key) else d.values[key])
    decreases |ks|
  {
    if ks != [] {
      var key := ks[0];
      var rest := ks[1..];
      assert forall i, j :: 0 <= i < j < |rest| ==> rest[i] != rest[j] by {
        forall i, j | 0 <= i < j < |rest| ensures rest[i] != rest[j] { assert rest[i] == ks[i + 1]; }
      }
      assert key !in rest by {
        forall i | 0 <= i < |rest| ensures rest[i] != key { assert rest[i] == ks[i + 1]; }
      }
      if key !in sp.values || key !in d.values {
        IntegrateKeysWithoutNoise(d, rest, sp, dt, sample);
      } else {
        var d1 := Put(d, key, Limit(key, Drift(d.values[key], sp.values[key], dt)));
        IntegrateKeysWithoutNoise(d1, rest, sp, dt, sample);
        forall k | k in d.values && k in rest
          ensures Relaxed(d1, sp, dt, k) == Relaxed(d, sp, dt, k)
        {
        }
      }
    }
  }

  /** The step the service takes: over all its variables in order. */
  function Integrated(d: Dict, sp: Dict, dt: real, noise: Option<real>, sample: Sampler): (Dict, bool)
  {
    IntegrateKeys(d, d.keys, sp, dt, noise, sample)
  }

  /**
   * With noise off the service's step succeeds, keeps the variables and their
   * order, moves each variable with a set-point to its limited Euler step
   * and leaves the others alone.
   */
  lemma IntegratedWithoutNoise(d: Dict, sp: Dict, dt: real, sample: Sampler)
    requires WellFormed(d)
    ensures var r := Integrated(d, sp, dt, None, sample);
            && r.1 && r.0.keys == d.keys && WellFormed(r.0)
            && (forall key :: key in r.0.values <==> key in d.values)
            && (forall key :: key in d.values ==> r.0.values[key] == Relaxed(d, sp, dt, key))
  {
    IntegrateKeysWithoutNoise(d, d.keys, sp, dt, sample);
  }

  // ---------------------------------------------------------------------------
  // The proportional pump nudge
  // ---------------------------------------------------------------------------

  const PumpGain: real := 0.1

  /** The pump each tank variable drives; the first matching pattern wins. */
  function ControlFor(variable: string): Option<string>
  {
    if Contains(variable, "tank_c_level") then Some("tank_c_water_pump")
    else if Contains(variable, "tank_c_concentration") then Some("tank_c_brine_pump")
    else if Contains(variable, "tank_d_level") then Some("tank_d_water_pump")
    else if Contains(variable, "tank_d_concentration") then Some("tank_d_brine_pump")
    else if Contains(variable, "tank_e_level") then Some("tank_e_water_pump")
    else if Contains(variable, "tank_e_concentration") then Some("tank_e_brine_pump")
    else None
  }

  /** The six controls the nudge can move. */
  predicate IsPump(key: string)
  {
    || key == "tank_c_water_pump" || key == "tank_c_brine_pump"
    || key == "tank_d_water_pump" || key == "tank_d_brine_pump"
    || key == "tank_e_water_pump" || key == "tank_e_brine_pump"
  }

  /** A variable drives a pump exactly when it mentions one of the six tank variables. */
  lemma ControlForNamesAPump(variable: string)
    ensures ControlFor(variable).Some? ==> IsPump(ControlFor(variable).value)
    ensures ControlFor(variable).None? <==>
      && !Contains(variable, "tank_c_level") && !Contains(variable, "tank_c_concentration")
      && !Contains(variable, "tank_d_level") && !Contains(variable, "tank_d_concentration")
      && !Contains(variable, "tank_e_level") && !Contains(variable, "tank_e_concentration")
  {
  }

  /** A pump command moved by the gain times the error, clamped to [0, 1]. */
  function Nudged(u: real, error: real): real { Clip(u + PumpGain * error, 0.0, 1.0) }

  /** One variable's nudge: its pump, when present, moves by the gain times the error, clamped to [0, 1]. */
  function Nudge(controls: Dict, key: string, sp: Dict, state: Dict): Dict
  {
    if key in sp.values && key in state.values then
      var error := sp.values[key] - state.values[key];
      var pump := ControlFor(key);
      if pump.Some? && pump.value in controls.values then
        Put(controls, pump.value, Nudged(controls.values[pump.value], error))
      else controls
    else controls
  }

  /** `_update_controls` over the set-point keys ks, in order. */
  function NudgeKeys(controls: Dict, ks: seq<string>, sp: Dict, state: Dict): Dict
    decreases |ks|
  {
    if ks == [] then controls else NudgeKeys(Nudge(controls, ks[0], sp, state), ks[1..], sp, state)
  }

  /**
   * The nudge keeps the controls' keys and their order, never moves a
   * control other than the six pumps, and a pump it moves ends in [0, 1].
   */
  lemma {:induction false} NudgeKeysMovesOnlyPumps(controls: Dict, ks: seq<string>, sp: Dict, state: Dict)
    requires WellFormed(controls)
    ensures var r := NudgeKeys(controls, ks, sp, state);
            && WellFormed(r) && r.keys == controls.keys
            && (forall k :: k in r.values <==> k in controls.values)
            && (forall k :: k in controls.values && !IsPump(k) ==> r.values[k] == controls.values[k])
            && (forall k :: k in controls.values && r.values[k] != controls.values[k] ==> 0.0 <= r.values[k] <= 1.0)
    decreases |ks|
  {
    if ks != [] {
      var c1 := Nudge(controls, ks[0], sp, state);
      ControlForNamesAPump(ks[0]);
      NudgeKeysMovesOnlyPumps(c1, ks[1..], sp, state);
    }
  }

  // ---------------------------------------------------------------------------
  // The service
  // ---------------------------------------------------------------------------

  /** `RealTimeService`: flags, configuration, the three dictionaries, the time base and the sent messages. */
  class RealTimeService {
    var running: bool
    var paused: bool
    var sessionId: Option<string>
    var config: Option<Config>
    var samplingInterval: real
    var currentState: Dict
    var setpoints: Dict
    var controls: Dict
    var lastUpdate: real
    var log: seq<Message>

    ghost predicate Valid()
      reads this
    {
      && WellFormed(currentState) && WellFormed(setpoints) && WellFormed(controls)
      && (config.Some? ==> ConfigWellFormed(config.value))
    }

    /** A stopped service with empty dictionaries, a 0.5 s sampling interval and the time base at now. */
    constructor (now: real)
      ensures Valid()
      ensures !running && !paused && sessionId == None && config == None && samplingInterval == 0.5
      ensures currentState == Empty && setpoints == Empty && controls == Empty
      ensures lastUpdate == now && log == []
    {
      running, paused := false, false;
      sessionId, config := None, None;
      samplingInterval := 0.5;
      currentState, setpoints, controls := Empty, Empty, Empty;
      lastUpdate := now;
      log := [];
    }

    /**
     * `initialize`: the variables at the equilibrium point, the set-points a
     * copy of them, the controls a copy of the equilibrium controls; running,
     * not paused, the time base at now. The fresh session identifier is the
     * parameter id.
     */
    method Initialize(cfg: Config, now: real, id: string) returns (sid: string)
      requires ConfigWellFormed(cfg)
      modifies this
      ensures Valid()
      ensures config == Some(cfg) && sessionId == Some(id) && sid == id
      ensures samplingInterval == cfg.samplingInterval
      ensures currentState == EquilibriumState(cfg.equilibrium) && setpoints == currentState
      ensures controls == cfg.equilibrium.controls
      ensures running && !paused && lastUpdate == now && log == old(log)
    {
      config := Some(cfg);
      sessionId := Some(id);
      samplingInterval := cfg.samplingInterval;
      EquilibriumStateWellFormed(cfg.equilibrium);
      currentState := EquilibriumState(cfg.equilibrium);
      setpoints := currentState;
      controls := cfg.equilibrium.controls;
      running, paused := true, false;
      lastUpdate := now;
      sid := id;
    }

    /** `update_setpoint`: overwrites the set-point `{tank}_{variable}` only if it exists. */
    method UpdateSetpoint(tank: string, variable: string, value: real)
      requires Valid()
      modifies this`setpoints
      ensures Valid()
      ensures var key := tank + "_" + variable;
              if key in old(setpoints.values)
              then setpoints == Dict(old(setpoints.keys), old(setpoints.values)[key := value])
              else setpoints == old(setpoints)
    {
      var key := tank + "_" + variable;
      if key in setpoints.values {
        setpoints := Put(setpoints, key, value);
      }
    }

    /** `pause`. */
    method Pause()
      modifies this`paused
      ensures paused
    {
      paused := true;
    }

    /** `resume`: the time base moves to now, so the next step's dt counts from the resume. */
    method Resume(now: real)
      modifies this`paused, this`lastUpdate
      ensures !paused && lastUpdate == now
    {
      paused := false;
      lastUpdate := now;
    }

    /** `reset`: with a configuration, back to its equilibrium and the time base at now; without one, nothing. */
    method Reset(now: real)
      requires Valid()
      modifies this`currentState, this`setpoints, this`controls, this`lastUpdate
      ensures Valid()
      ensures old(config).Some? ==>
                && currentState == EquilibriumState(config.value.equilibrium) && setpoints == currentState
                && controls == config.value.equilibrium.controls && lastUpdate == now
      ensures old(config).None? ==>
                && currentState == old(currentState) && setpoints == old(setpoints)
                && controls == old(controls) && lastUpdate == old(lastUpdate)
    {
      if config.Some? {
        EquilibriumStateWellFormed(config.value.equilibrium);
        currentState := EquilibriumState(config.value.equilibrium);
        setpoints := currentState;
        controls := config.value.equilibrium.controls;
        lastUpdate := now;
      }
    }

    /** `shutdown`: the loop ends at its next check. */
    method Shutdown()
      modifies this`running
      ensures !running
    {
      running := false;
    }

    /** `_integrate_step`: one pass over the variables; false when a noise draw raised. */
    method IntegrateStep(dt: real, sample: Sampler) returns (ok: bool)
      requires Valid()
      modifies this`currentState
      ensures Valid()
      ensures (currentState, ok) == Integrated(old(currentState), setpoints, dt, NoiseOf(config), sample)
    {
      var ks := currentState.keys;
      var noise := NoiseOf(config);
      var i := 0;
      while i < |ks|
        invariant 0 <= i <= |ks|
        invariant WellFormed(currentState) && currentState.keys == ks
        invariant Integrated(old(currentState), setpoints, dt, noise, sample)
                  == IntegrateKeys(currentState, ks[i..], setpoints, dt, noise, sample)
      {
        var key := ks[i];
        ghost var rest := ks[i..];
        assert rest != [] && rest[0] == key;
        ghost var before := currentState;
        if key in setpoints.values && key in currentState.values {
          var x := currentState.values[key];
          var drifted := Drift(x, setpoints.values[key], dt);
          if DrawRaises(noise, x) {
            currentState := Put(currentState, key, drifted);
            assert IntegrateKeys(before, rest, setpoints, dt, noise, sample) == (currentState, false);
            return false;
          }
          var noisy := WithNoise(drifted, key, x, noise, sample);
          currentState := Put(currentState, key, Limit(key, noisy));
        }
        assert IntegrateKeys(before, rest, setpoints, dt, noise, sample)
               == IntegrateKeys(currentState, rest[1..], setpoints, dt, noise, sample);
        i := i + 1;
        assert ks[i..] == rest[1..];
      }
      return true;
    }

    /** `_update_controls`: one nudge per set-point key, in the set-points' order. */
    method UpdateControls()
      requires Valid()
      modifies this`controls
      ensures Valid()
      ensures controls == NudgeKeys(old(controls), setpoints.keys, setpoints, currentState)
    {
      var ks := setpoints.keys;
      var i := 0;
      while i < |ks|
        invariant 0 <= i <= |ks|
        invariant WellFormed(controls)
        invariant NudgeKeys(old(controls), ks, setpoints, currentState)
                  == NudgeKeys(controls, ks[i..], setpoints, currentState)
      {
        var key := ks[i];
        ghost var rest := ks[i..];
        assert rest != [] && rest[0] == key;
        ghost var before := controls;
        if key in setpoints.values && key in currentState.values {
          var error := setpoints.values[key] - currentState.values[key];
          var pump := ControlFor(key);
          if pump.Some? && pump.value in controls.values {
            controls := Put(controls, pump.value, Nudged(controls.values[pump.value], error));
          }
        }
        assert controls == Nudge(before, key, setpoints, currentState);
        i := i + 1;
        assert ks[i..] == rest[1..];
      }
    }

    /**
     * One pass of `run_realtime_loop`. A stopped service leaves the loop. A
     * paused one only sleeps. Otherwise the variables step over
     * dt = now - lastUpdate, the pumps are nudged, the time base moves to now
     * and a message with the new dictionaries is sent. A raising noise draw,
     * a failed send or a cancelled sleep ends the loop.
     */
    method LoopIteration(now: real, sample: Sampler, sent: bool, slept: bool) returns (continues: bool)
      requires Valid()
      modifies this`currentState, this`controls, this`lastUpdate, this`log
      ensures Valid()
      ensures !old(running) ==>
                && !continues && currentState == old(currentState) && controls == old(controls)
                && lastUpdate == old(lastUpdate) && log == old(log)
      ensures old(running) && paused ==>
                && continues == slept && currentState == old(currentState) && controls == old(controls)
                && lastUpdate == old(lastUpdate) && log == old(log)
      ensures old(running) && !paused ==>
                var step := Integrated(old(currentState), setpoints, now - old(lastUpdate), NoiseOf(config), sample);
                && currentState == step.0
                && (!step.1 ==> && !continues && controls == old(controls)
                                && lastUpdate == old(lastUpdate) && log == old(log))
                && (step.1 ==> && controls == NudgeKeys(old(controls), setpoints.keys, setpoints, step.0)
                               && lastUpdate == now
                               && log == old(log) + (if sent then [StateUpdate(now, step.0, setpoints, controls)] else [])
                               && continues == (sent && slept))
    {
      if !running {
        return false;
      }
      if !paused {
        var dt := now - lastUpdate;
        var ok := IntegrateStep(dt, sample);
        if !ok {
          return false;
        }
        UpdateControls();
        lastUpdate := now;
        if !sent {
          return false;
        }
        log := log + [StateUpdate(now, currentState, setpoints, controls)];
      }
      return slept;
    }

    /** `get_current_state`: the three dictionaries, the two flags and the session identifier. */
    function CurrentState(): (v: StateView)
      reads this
      ensures v.variables == currentState && v.setpoints == setpoints && v.controls == controls
      ensures v.isRunning == running && v.isPaused == paused && v.sessionId == sessionId
    {
      StateView(currentState, setpoints, controls, running, paused, sessionId)
    }
  }
}
