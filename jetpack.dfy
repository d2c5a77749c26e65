/** The jetpack fuel machine of the fly controls.

    Every entry point repeats the same machine: holding Shift while the
    jetpack is enabled and has fuel drains fuel and boosts; otherwise fuel
    refills up to the tank size, and a jetpack that ran dry is re-enabled once
    the refilled fuel reaches the reactivation level. The copies differ in
    two ways only, which the configuration records: whether re-enabling needs
    fuel at or strictly above the reactivation level, and whether the step
    also sets the movement speed (base speed, boosted while active).

    Fuel and frame time are reals (floating-point rounding is not modelled). */
module Jetpack {
  import opened JsNumber

  /** The comparison a copy uses to re-enable a dry jetpack */
  datatype Reactivation = AtThreshold | AboveThreshold

  datatype JetpackConfig = JetpackConfig(
    maxFuel: real,
    refillRate: real,
    drainRate: real,
    minFuelToReactivate: real,
    boostFactor: real,
    reactivation: Reactivation,
    /** The speed the step sets (times `boostFactor` while active), if it sets one */
    baseSpeed: Option<real>)

  /** The tank and rates every copy configures, with a copy's own re-enable
      comparison and speed rule */
  function StandardConfig(reactivation: Reactivation, baseSpeed: Option<real>): (c: JetpackConfig)
    ensures ValidConfig(c)
  {
    JetpackConfig(250.0, 0.8, 1.2, 25.0, 2.5, reactivation, baseSpeed)
  }

  predicate ValidConfig(c: JetpackConfig)
  {
    c.refillRate > 0.0 && c.drainRate > 0.0 && 0.0 < c.minFuelToReactivate < c.maxFuel && c.boostFactor > 1.0
  }

  /** The jetpack fields of the fly controls */
  datatype JetpackState = JetpackState(fuel: real, enabled: bool, active: bool, movementSpeed: real)

  /** A full, enabled, idle jetpack at the configured movement speed */
  function Initial(c: JetpackConfig, movementSpeed: real): JetpackState
  {
    JetpackState(c.maxFuel, true, false, movementSpeed)
  }

  /** Whether `fuel` is enough to re-enable a dry jetpack */
  predicate MayReactivate(c: JetpackConfig, fuel: real)
  {
    match c.reactivation
    case AtThreshold => fuel >= c.minFuelToReactivate
    case AboveThreshold => fuel > c.minFuelToReactivate
  }

  function MaxReal(a: real, b: real): real { if a >= b then a else b }
  function MinReal(a: real, b: real): real { if a <= b then a else b }

  /** The fuel step alone, before any speed update */
  function FuelStep(c: JetpackConfig, s: JetpackState, shiftKeyPressed: bool, delta: real): JetpackState
  {
    if shiftKeyPressed && s.enabled && s.fuel > 0.0 then
      var fuel := MaxReal(0.0, s.fuel - c.drainRate * delta * 60.0);
      if fuel <= 0.0 then s.(fuel := fuel, enabled := false, active := false)
      else s.(fuel := fuel, active := true)
    else if s.fuel < c.maxFuel then
      var fuel := MinReal(c.maxFuel, s.fuel + c.refillRate * delta * 60.0);
      s.(fuel := fuel, active := false, enabled := s.enabled || MayReactivate(c, fuel))
    else
      s.(active := false)
  }

  /** One call of the jetpack handler, `delta` seconds after the previous frame */
  function Next(c: JetpackConfig, s: JetpackState, shiftKeyPressed: bool, delta: real): JetpackState
  {
    var t := FuelStep(c, s, shiftKeyPressed, delta);
    match c.baseSpeed
    case None => t
    case Some(speed) => t.(movementSpeed := if t.active then speed * c.boostFactor else speed)
  }

  /** What every reachable state satisfies: the tank is within bounds, the
      jetpack only boosts while enabled and fuelled, and a disabled jetpack is
      still short of its reactivation level (so it is never stuck disabled on
      a tank that can no longer refill). */
  predicate Inv(c: JetpackConfig, s: JetpackState)
  {
    0.0 <= s.fuel <= c.maxFuel &&
    (s.active ==> s.enabled && s.fuel > 0.0) &&
    (!s.enabled ==> !MayReactivate(c, s.fuel))
  }

  lemma InitialInv(c: JetpackConfig, movementSpeed: real)
    requires ValidConfig(c)
    ensures Inv(c, Initial(c, movementSpeed))
  {
  }

  /** One step keeps the invariant, for any key state and any frame time. */
  lemma NextInv(c: JetpackConfig, s: JetpackState, shiftKeyPressed: bool, delta: real)
    requires ValidConfig(c) && Inv(c, s) && delta >= 0.0
    ensures Inv(c, Next(c, s, shiftKeyPressed, delta))
  {
  }

  /** The jetpack boosts after a step exactly when Shift was held on an
      enabled jetpack with fuel and the step did not empty the tank. */
  lemma ActiveRule(c: JetpackConfig, s: JetpackState, shiftKeyPressed: bool, delta: real)
    requires ValidConfig(c) && Inv(c, s) && delta >= 0.0
    ensures var t := Next(c, s, shiftKeyPressed, delta);
      t.active <==> shiftKeyPressed && s.enabled && s.fuel > 0.0 && t.fuel > 0.0
  {
  }

  /** Boosting burns fuel; not boosting never does. */
  lemma FuelDirection(c: JetpackConfig, s: JetpackState, shiftKeyPressed: bool, delta: real)
    requires ValidConfig(c) && Inv(c, s) && delta >= 0.0
    ensures var t := Next(c, s, shiftKeyPressed, delta);
      (shiftKeyPressed && s.enabled && s.fuel > 0.0 ==> t.fuel <= s.fuel) &&
      (!(shiftKeyPressed && s.enabled && s.fuel > 0.0) ==> s.fuel <= t.fuel <= c.maxFuel)
  {
  }

  /** The jetpack is disabled only by boosting the tank dry. */
  lemma DisabledOnlyWhenEmpty(c: JetpackConfig, s: JetpackState, shiftKeyPressed: bool, delta: real)
    requires ValidConfig(c) && Inv(c, s) && delta >= 0.0
    ensures var t := Next(c, s, shiftKeyPressed, delta);
      s.enabled && !t.enabled ==> shiftKeyPressed && t.fuel == 0.0 && !t.active
  {
  }

  /** A disabled jetpack comes back exactly when the refilled fuel reaches the
      reactivation level (under the copy's own comparison). */
  lemma ReenableRule(c: JetpackConfig, s: JetpackState, shiftKeyPressed: bool, delta: real)
    requires ValidConfig(c) && Inv(c, s) && delta >= 0.0 && !s.enabled
    ensures var t := Next(c, s, shiftKeyPressed, delta);
      !t.active && (t.enabled <==> MayReactivate(c, t.fuel))
  {
  }

  /** Copies that set the speed boost it while active and restore the base
      speed otherwise; the other copies leave the speed alone. */
  lemma SpeedRule(c: JetpackConfig, s: JetpackState, shiftKeyPressed: bool, delta: real)
    ensures var t := Next(c, s, shiftKeyPressed, delta);
      match c.baseSpeed
      case None => t.movementSpeed == s.movementSpeed
      case Some(speed) => t.movementSpeed == if t.active then speed * c.boostFactor else speed
  {
  }

  /** The frames a session feeds the handler: Shift state and frame time */
  datatype Frame = Frame(shiftKeyPressed: bool, delta: real)

  /** The state after a sequence of frames */
  function Run(c: JetpackConfig, s: JetpackState, frames: seq<Frame>): JetpackState
  {
    if frames == [] then s
    else
      var last := frames[|frames| - 1];
      Next(c, Run(c, s, frames[..|frames| - 1]), last.shiftKeyPressed, last.delta)
  }

  /** Over any session of frames with non-negative frame times, started from
      the initial state, the invariant holds throughout. */
  lemma {:induction false} RunInv(c: JetpackConfig, movementSpeed: real, frames: seq<Frame>)
    requires ValidConfig(c)
    requires forall i :: 0 <= i < |frames| ==> frames[i].delta >= 0.0
    ensures Inv(c, Run(c, Initial(c, movementSpeed), frames))
  {
    if frames == [] {
      InitialInv(c, movementSpeed);
    } else {
      var last := frames[|frames| - 1];
      RunInv(c, movementSpeed, frames[..|frames| - 1]);
      NextInv(c, Run(c, Initial(c, movementSpeed), frames[..|frames| - 1]), last.shiftKeyPressed, last.delta);
    }
  }

  /** The two comparisons really differ: a dry jetpack refilled to exactly the
      reactivation level comes back under `>=` and stays off under `>`. */
  lemma ReactivationVariantsDiffer()
    ensures var s := JetpackState(24.2, false, false, 400.0);
      var atLevel := Next(StandardConfig(AtThreshold, None), s, false, 1.0 / 60.0);
      var aboveLevel := Next(StandardConfig(AboveThreshold, None), s, false, 1.0 / 60.0);
      atLevel.fuel == aboveLevel.fuel == 25.0 && atLevel.enabled && !aboveLevel.enabled
  {
  }

  /** Forward thrust speed of the physics step: boosted speed while the
      jetpack is active and enabled, none otherwise */
  function ThrustSpeed(c: JetpackConfig, s: JetpackState): Option<real>
  {
    if s.active && s.enabled then Some(s.movementSpeed * c.boostFactor) else None
  }

  /** In a reachable state the `enabled` test of the thrust is redundant:
      there is thrust exactly while the jetpack is active. */
  lemma ThrustWhileActive(c: JetpackConfig, s: JetpackState)
    requires Inv(c, s)
    ensures ThrustSpeed(c, s).Some? <==> s.active
  {
  }

  /** The fly controls' jetpack fields, updated in place once per frame */
  class JetpackControls {
    const config: JetpackConfig
    var jetpackFuel: real
    var jetpackEnabled: bool
    var jetpackActive: bool
    var movementSpeed: real

    function State(): JetpackState
      reads this
    {
      JetpackState(jetpackFuel, jetpackEnabled, jetpackActive, movementSpeed)
    }

    /** The desktop set-up: full tank, enabled, idle */
    constructor (config: JetpackConfig, movementSpeed: real)
      ensures this.config == config
      ensures State() == Initial(config, movementSpeed)
    {
      this.config := config;
      jetpackFuel := config.maxFuel;
      jetpackActive := false;
      jetpackEnabled := true;
      this.movementSpeed := movementSpeed;
    }

    /** `handleJetpack(delta)` (inline in the animation loop of the bundled entry point) */
    method HandleJetpack(shiftKeyPressed: bool, delta: real)
      modifies this
      ensures State() == Next(config, old(State()), shiftKeyPressed, delta)
    {
      if shiftKeyPressed && jetpackEnabled && jetpackFuel > 0.0 {
        jetpackActive := true;
        jetpackFuel := MaxReal(0.0, jetpackFuel - config.drainRate * delta * 60.0);
        if jetpackFuel <= 0.0 {
          jetpackEnabled := false;
          jetpackActive := false;
        }
      } else {
        jetpackActive := false;
        if jetpackFuel < config.maxFuel {
          jetpackFuel := MinReal(config.maxFuel, jetpackFuel + config.refillRate * delta * 60.0);
          if !jetpackEnabled && MayReactivate(config, jetpackFuel) {
            jetpackEnabled := true;
          }
        }
      }
      if config.baseSpeed.Some? {
        if jetpackActive {
          movementSpeed := config.baseSpeed.value * config.boostFactor;
        } else {
          movementSpeed := config.baseSpeed.value;
        }
      }
    }
  }

  /** The fuel meter's colour band */
  datatype FuelBand = Low | Medium | High

  function Rank(b: FuelBand): nat
  {
    match b
    case Low => 0
    case Medium => 1
    case High => 2
  }

  /** How a copy cuts the fuel percentage into bands: either from the top
      (`> high` is high, `> medium` is medium) or from the bottom
      (`< low` is low, `< medium` is medium) */
  datatype BandRule = FromTop(high: real, medium: real) | FromBottom(low: real, medium: real)

  predicate OrderedRule(rule: BandRule)
  {
    match rule
    case FromTop(high, medium) => medium <= high
    case FromBottom(low, medium) => low <= medium
  }

  function Band(rule: BandRule, percentage: real): FuelBand
  {
    match rule
    case FromTop(high, medium) =>
      if percentage > high then High else if percentage > medium then Medium else Low
    case FromBottom(low, medium) =>
      if percentage < low then Low else if percentage < medium then Medium else High
  }

  /** The meter width in percent */
  function FuelPercentage(c: JetpackConfig, fuel: real): (p: real)
    requires c.maxFuel > 0.0
    ensures 0.0 <= fuel <= c.maxFuel ==> 0.0 <= p <= 100.0
  {
    fuel / c.maxFuel * 100.0
  }

  /** Colours of the three bands */
  datatype Palette = Palette(low: string, medium: string, high: string)

  function Colour(palette: Palette, band: FuelBand): string
  {
    match band
    case Low => palette.low
    case Medium => palette.medium
    case High => palette.high
  }

  /** The meter colour for a fuel level */
  function MeterColour(c: JetpackConfig, rule: BandRule, palette: Palette, fuel: real): string
    requires c.maxFuel > 0.0
  {
    Colour(palette, Band(rule, FuelPercentage(c, fuel)))
  }

  /** More fuel never shows a lower band. */
  lemma BandMonotone(rule: BandRule, p: real, q: real)
    requires OrderedRule(rule) && p <= q
    ensures Rank(Band(rule, p)) <= Rank(Band(rule, q))
  {
  }

  /** With bands cut strictly inside 0..100, a full tank shows the high band
      and an empty one the low band. */
  lemma BandExtremes(rule: BandRule)
    requires OrderedRule(rule)
    requires match rule
      case FromTop(high, medium) => 0.0 <= medium && high < 100.0
      case FromBottom(low, medium) => 0.0 < low && medium <= 100.0
    ensures Band(rule, 100.0) == High && Band(rule, 0.0) == Low
  {
  }
}
