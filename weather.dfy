/** The wind part of WeatherSystem (main.py:46-57): a tick counter, a target gust re-rolled
    every 180 ticks, and a force that follows the target by exponential smoothing. The rain
    drops it also animates are presentation only. */
module Weather {

  const Period: nat := 180
  const MaxGust: real := 0.012
  const Smoothing: real := 0.02

  /** The physics-relevant state of a WeatherSystem. */
  datatype Wind = Wind(timer: nat, target: real, force: real)

  /** The state `WeatherSystem.__init__` leaves. */
  const Calm := Wind(0, 0.0, 0.0)

  /** The target is re-rolled on a tick whose incremented counter is a multiple of 180. */
  predicate Rerolls(w: Wind) {
    (w.timer + 1) % Period == 0
  }

  /** One `WeatherSystem.update`; `roll` is the value `random.uniform(-0.012, 0.012)`
      would return on this tick (it is ignored when no re-roll is due). */
  function Step(w: Wind, roll: real): Wind {
    var timer := w.timer + 1;
    var target := if timer % Period == 0 then roll else w.target;
    Wind(timer, target, w.force + (target - w.force) * Smoothing)
  }

  /** A draw that `random.uniform(-0.012, 0.012)` can return. */
  predicate InRange(x: real) {
    -MaxGust <= x <= MaxGust
  }

  predicate Bounded(w: Wind) {
    InRange(w.target) && InRange(w.force)
  }

  /** The counter advances by one, the target changes only on a re-roll tick and is then the
      draw, and the force moves 2% of the way to the (new) target. */
  lemma StepSpec(w: Wind, roll: real)
    ensures Step(w, roll).timer == w.timer + 1
    ensures Rerolls(w) ==> Step(w, roll).target == roll
    ensures !Rerolls(w) ==> Step(w, roll).target == w.target
    ensures Step(w, roll).force - w.force == (Step(w, roll).target - w.force) * Smoothing
  {
  }

  /** With in-range draws the force never leaves the draw range, and one tick moves it by
      at most 2% of the widest possible gap (0.00048): gusts are smooth. */
  lemma StepBounded(w: Wind, roll: real)
    requires Bounded(w) && InRange(roll)
    ensures Bounded(Step(w, roll))
    ensures -Smoothing * 2.0 * MaxGust <= Step(w, roll).force - w.force <= Smoothing * 2.0 * MaxGust
  {
  }

  /** The wind after one tick per draw in `rolls`. */
  function Run(w: Wind, rolls: seq<real>): Wind
    decreases |rolls|
  {
    if rolls == [] then w else Step(Run(w, rolls[..|rolls| - 1]), rolls[|rolls| - 1])
  }

  predicate AllInRange(rolls: seq<real>) {
    forall i :: 0 <= i < |rolls| ==> InRange(rolls[i])
  }

  /** Over any number of ticks with in-range draws, the wind stays in range and the counter
      counts the ticks. */
  lemma {:induction false} RunBounded(w: Wind, rolls: seq<real>)
    requires Bounded(w) && AllInRange(rolls)
    ensures Bounded(Run(w, rolls))
    ensures Run(w, rolls).timer == w.timer + |rolls|
    decreases |rolls|
  {
    if rolls != [] {
      var prefix := rolls[..|rolls| - 1];
      assert AllInRange(prefix) by {
        forall i | 0 <= i < |prefix| ensures InRange(prefix[i]) {
          assert prefix[i] == rolls[i];
        }
      }
      RunBounded(w, prefix);
      StepBounded(Run(w, prefix), rolls[|rolls| - 1]);
    }
  }

  /** From a fresh WeatherSystem the first re-roll happens on tick 180: for 179 ticks the
      target stays 0, so the force stays exactly 0. */
  lemma {:induction false} CalmUntilFirstReroll(rolls: seq<real>)
    requires |rolls| < Period
    ensures Run(Calm, rolls) == Wind(|rolls|, 0.0, 0.0)
    decreases |rolls|
  {
    if rolls != [] {
      CalmUntilFirstReroll(rolls[..|rolls| - 1]);
    }
  }

  class WeatherSystem {
    var timer: nat
    var targetWind: real
    var windForce: real

    function Current(): Wind
      reads this
    {
      Wind(timer, targetWind, windForce)
    }

    constructor ()
      ensures Current() == Calm
    {
      windForce := 0.0;
      targetWind := 0.0;
      timer := 0;
    }

    /** `WeatherSystem.update`, wind part. */
    method Update(roll: real)
      modifies this
      ensures Current() == Step(old(Current()), roll)
    {
      timer := timer + 1;
      if timer % Period == 0 {
        targetWind := roll;
      }
      windForce := windForce + (targetWind - windForce) * Smoothing;
    }
  }
}
