/** The lean dynamics of the Python Bike (main.py:75-107): each tick the angular velocity
    gains the angle times an effective gravity plus the wind, the W and S keys push it back
    or forward, the angle integrates it, and boost fuel drains or regenerates. */
module Dynamics {

  import opened Config

  /** The keys of `pygame.key.get_pressed()` the physics reads. */
  datatype Keys = Keys(space: bool, w: bool, s: bool)

  const NoKeys := Keys(false, false, false)

  /** A bike's physical state: lean angle (degrees), angular velocity (degrees per tick)
      and boost fuel. */
  datatype Lean = Lean(angle: real, vel: real, fuel: real)

  /** The state `Bike.reset` leaves. */
  const Upright := Lean(0.0, 0.0, 100.0)

  const ScoreScale: real := 50000.0
  const BoostGravity: real := 0.6
  const BoostLean: real := 1.5
  const FuelDrain: real := 0.7
  const FuelRegen: real := 0.15
  const FuelFull: real := 100.0
  const CrashAngle: real := 90.0

  /** The outcome of one `Bike.update`: the new state and its return value. */
  datatype Tick = Tick(next: Lean, boosting: bool)

  /** A tick boosts when SPACE is held and there is fuel left. */
  predicate Boosting(keys: Keys, fuel: real) {
    keys.space && fuel > 0.0
  }

  /** The gravity coefficient of a tick: the bike's own, stiffened by the score. */
  function Gravity(spec: BikeSpec, score: int): real {
    spec.grav + score as real / ScoreScale
  }

  /** One `Bike.update(keys, score, wind_force)`. */
  function Step(spec: BikeSpec, b: Lean, keys: Keys, score: int, wind: real): Tick {
    var boosting := Boosting(keys, b.fuel);
    var gravity := Gravity(spec, score);
    var leanPower := spec.lean * (if boosting then BoostLean else 1.0);
    var v0 := b.vel + b.angle * (if boosting then gravity * BoostGravity else gravity) + wind;
    var v1 := if keys.w then v0 - leanPower else v0;
    var v2 := if keys.s then v1 + leanPower else v1;
    var fuel :=
      if boosting then b.fuel - FuelDrain
      else if b.fuel < FuelFull then b.fuel + FuelRegen
      else b.fuel;
    Tick(Lean(b.angle + v2, v2, fuel), boosting)
  }

  /** `abs(angle) > 90`: the bike has fallen. */
  predicate Crashed(angle: real) {
    angle > CrashAngle || angle < -CrashAngle
  }

  /** The tick reports boosting exactly when SPACE is held and fuel is positive; with no
      fuel it never boosts, whatever the keys, and then regenerates. */
  lemma BoostGate(spec: BikeSpec, b: Lean, keys: Keys, score: int, wind: real)
    ensures Step(spec, b, keys, score, wind).boosting <==> keys.space && b.fuel > 0.0
    ensures b.fuel <= 0.0 ==>
      !Step(spec, b, keys, score, wind).boosting &&
      Step(spec, b, keys, score, wind).next.fuel == b.fuel + FuelRegen
  {
  }

  /** The fuel rule: exactly 0.7 less on a boosting tick, 0.15 more on another tick below
      100, unchanged otherwise; no clamp is applied. */
  lemma FuelRule(spec: BikeSpec, b: Lean, keys: Keys, score: int, wind: real)
    ensures var t := Step(spec, b, keys, score, wind);
      t.next.fuel == (if t.boosting then b.fuel - 0.7
                      else if b.fuel < 100.0 then b.fuel + 0.15
                      else b.fuel)
  {
  }

  /** The band the fuel stays in: it can dip below 0 and overshoot 100, but only by less
      than one drain or one regeneration step. */
  predicate FuelInBand(fuel: real) {
    -FuelDrain < fuel < FuelFull + FuelRegen
  }

  lemma FuelBandPreserved(spec: BikeSpec, b: Lean, keys: Keys, score: int, wind: real)
    requires FuelInBand(b.fuel)
    ensures FuelInBand(Step(spec, b, keys, score, wind).next.fuel)
  {
  }

  /** The velocity update with both corrections, and the angle integrating the new
      velocity: vel' = vel + angle*g + wind - (W ? lp : 0) + (S ? lp : 0) with g scaled by
      0.6 and lp by 1.5 on a boosting tick. */
  lemma VelocityRule(spec: BikeSpec, b: Lean, keys: Keys, score: int, wind: real)
    ensures var t := Step(spec, b, keys, score, wind);
      var g := (spec.grav + score as real / 50000.0) * (if t.boosting then 0.6 else 1.0);
      var lp := spec.lean * (if t.boosting then 1.5 else 1.0);
      && t.next.vel == b.vel + b.angle * g + wind - (if keys.w then lp else 0.0) + (if keys.s then lp else 0.0)
      && t.next.angle == b.angle + t.next.vel
  {
  }

  /** Holding W and S together is the same as holding neither. */
  lemma OpposedKeysCancel(spec: BikeSpec, b: Lean, space: bool, score: int, wind: real)
    ensures Step(spec, b, Keys(space, true, true), score, wind)
         == Step(spec, b, Keys(space, false, false), score, wind)
  {
  }

  function Mirror(b: Lean): Lean {
    Lean(-b.angle, -b.vel, b.fuel)
  }

  function SwapLeanKeys(k: Keys): Keys {
    Keys(k.space, k.s, k.w)
  }

  /** The dynamics have no preferred side: leaning the other way, against the opposite
      wind, with W and S swapped, gives the mirror image of the tick. */
  lemma MirrorSymmetry(spec: BikeSpec, b: Lean, keys: Keys, score: int, wind: real)
    ensures Step(spec, Mirror(b), SwapLeanKeys(keys), score, -wind)
         == Tick(Mirror(Step(spec, b, keys, score, wind).next), Step(spec, b, keys, score, wind).boosting)
  {
    var t := Step(spec, b, keys, score, wind);
    var m := Step(spec, Mirror(b), SwapLeanKeys(keys), score, -wind);
    var g := Gravity(spec, score) * (if t.boosting then BoostGravity else 1.0);
    assert (-b.angle) * g == -(b.angle * g);
  }

  /** Upright, still, in calm air and with no keys, the bike stays exactly upright. */
  lemma Equilibrium(spec: BikeSpec, fuel: real, score: int)
    ensures Step(spec, Lean(0.0, 0.0, fuel), NoKeys, score, 0.0).next.angle == 0.0
    ensures Step(spec, Lean(0.0, 0.0, fuel), NoKeys, score, 0.0).next.vel == 0.0
  {
  }

  /** The Agile Scout tilted to 10 degrees at rest: one tick gives velocity 10 * 0.0012. */
  lemma TiltScenario()
    ensures Step(AgileScout, Lean(10.0, 0.0, 100.0), NoKeys, 0, 0.0).next.vel == 0.012
    ensures Step(AgileScout, Lean(10.0, 0.0, 100.0), NoKeys, 0, 0.0).next.angle == 10.012
  {
  }

  /** Gravity feeds an existing tilt: at rest, with no keys and no wind, a bike leaning
      right leans further right on the next tick. */
  lemma TiltGrows(spec: BikeSpec, b: Lean, score: nat)
    requires spec.grav > 0.0 && b.angle > 0.0 && b.vel == 0.0
    ensures Step(spec, b, NoKeys, score, 0.0).next.angle > b.angle
  {
    var g := Gravity(spec, score);
    assert g > 0.0;
    assert b.angle * g > 0.0;
  }

  /** What reaches one `Bike.update`: the keys, the current score and the wind force. */
  datatype Input = Input(keys: Keys, score: int, wind: real)

  /** True when every tick of the ride `ins`, started from `b`, boosts. */
  predicate BoostStreak(spec: BikeSpec, b: Lean, ins: seq<Input>)
    decreases |ins|
  {
    ins == [] ||
    (var t := Step(spec, b, ins[0].keys, ins[0].score, ins[0].wind);
     t.boosting && BoostStreak(spec, t.next, ins[1..]))
  }

  /** Boosting is paid for: a streak of n boosting ticks needs more than 0.7*(n-1) fuel at
      its start. */
  lemma {:induction false} BoostStreakCost(spec: BikeSpec, b: Lean, ins: seq<Input>)
    requires ins != [] && BoostStreak(spec, b, ins)
    ensures FuelDrain * (|ins| - 1) as real < b.fuel
    decreases |ins|
  {
    var t := Step(spec, b, ins[0].keys, ins[0].score, ins[0].wind);
    if |ins| > 1 {
      BoostStreakCost(spec, t.next, ins[1..]);
    }
  }

  /** From a tank of at most 100.1 (regeneration overshoots 100: one boost and five rests
      give 100.05) at most 143 ticks in a row can boost (in exact arithmetic); from any
      fuel in the band, at most 144. */
  lemma FullTankBoostLimit(spec: BikeSpec, b: Lean, ins: seq<Input>)
    requires BoostStreak(spec, b, ins)
    ensures b.fuel <= 100.1 ==> |ins| <= 143
    ensures FuelInBand(b.fuel) ==> |ins| <= 144
  {
    if ins != [] {
      BoostStreakCost(spec, b, ins);
    }
  }

  predicate SpaceHeld(ins: seq<Input>) {
    forall i :: 0 <= i < |ins| ==> ins[i].keys.space
  }

  /** The converse of BoostStreakCost: with SPACE held throughout, more than 0.7*(n-1)
      fuel is enough for n boosting ticks in a row. */
  lemma {:induction false} BoostStreakReached(spec: BikeSpec, b: Lean, ins: seq<Input>)
    requires SpaceHeld(ins) && FuelDrain * (|ins| - 1) as real < b.fuel
    ensures BoostStreak(spec, b, ins)
    decreases |ins|
  {
    if ins != [] {
      assert ins[0].keys.space;
      var t := Step(spec, b, ins[0].keys, ins[0].score, ins[0].wind);
      assert t.boosting && t.next.fuel == b.fuel - FuelDrain;
      assert SpaceHeld(ins[1..]) by {
        forall i | 0 <= i < |ins| - 1 ensures ins[1..][i].keys.space {
          assert ins[1..][i] == ins[i + 1];
        }
      }
      BoostStreakReached(spec, t.next, ins[1..]);
    }
  }

  /** From a tank of 100 with SPACE held, all of 143 ticks boost: the bound above is met. */
  lemma FullTankBoosts143(spec: BikeSpec, b: Lean, ins: seq<Input>)
    requires b.fuel == FuelFull && |ins| == 143 && SpaceHeld(ins)
    ensures BoostStreak(spec, b, ins)
  {
    BoostStreakReached(spec, b, ins);
  }

  /** Running dry does not end boosting for good: with SPACE still held, at fuel -0.1 (where
      143 boosts from 100 leave it) one tick does not boost and regenerates to 0.05, and the
      next tick boosts again. */
  lemma BoostComesBack(spec: BikeSpec, b: Lean, keys: Keys, score: int, wind: real,
                       score2: int, wind2: real)
    requires b.fuel == -0.1 && keys.space
    ensures var t := Step(spec, b, keys, score, wind);
      && !t.boosting && t.next.fuel == 0.05
      && Step(spec, t.next, keys, score2, wind2).boosting
  {
  }

  class Bike {
    const specs: BikeSpec
    var angle: real
    var angularVelocity: real
    var boostFuel: real

    function State(): Lean
      reads this
    {
      Lean(angle, angularVelocity, boostFuel)
    }

    /** `Bike(specs)`: a fresh bike, reset. */
    constructor (specs: BikeSpec)
      ensures this.specs == specs && State() == Upright
    {
      this.specs := specs;
      new;
      Reset();
    }

    method Reset()
      modifies this
      ensures State() == Upright
    {
      angle := 0.0;
      angularVelocity := 0.0;
      boostFuel := 100.0;
    }

    method Update(keys: Keys, score: int, windForce: real) returns (isBoosting: bool)
      modifies this
      ensures Tick(State(), isBoosting) == Step(specs, old(State()), keys, score, windForce)
    {
      isBoosting := keys.space && boostFuel > 0.0;
      var gravity := specs.grav + score as real / ScoreScale;
      var leanPower := specs.lean * (if isBoosting then BoostLean else 1.0);
      angularVelocity := angularVelocity + angle * (if isBoosting then gravity * BoostGravity else gravity) + windForce;
      if keys.w {
        angularVelocity := angularVelocity - leanPower;
      }
      if keys.s {
        angularVelocity := angularVelocity + leanPower;
      }
      angle := angle + angularVelocity;
      if isBoosting {
        boostFuel := boostFuel - FuelDrain;
      } else if boostFuel < FuelFull {
        boostFuel := boostFuel + FuelRegen;
      }
    }
  }
}
