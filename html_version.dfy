/** The browser version of the game (html-version/game.js): the BIKES table, `start`, the
    physics, nitro, score and crash part of `loop`, and `endGame`. Its dynamics differ from
    the Python version: W and S are exclusive with S winning, the velocity is damped every
    tick, nitro drains by 0.6, the score grows with speed and velocity, and the bike falls
    beyond 1.55 (the angle is in radians here). */
module HtmlVersion {

  import opened Wrappers

  /** The numeric part of one BIKES entry; image and colour are presentation only. */
  datatype BikeConfig = BikeConfig(name: string, grav: real, lean: real, speed: real)

  const Cobra := BikeConfig("COBRA", 1.2, 0.5, 2.0)
  const Fatboy := BikeConfig("FATBOY", 0.7, 0.2, 1.1)
  const VRaptor := BikeConfig("V-RAPTOR", 1.5, 0.7, 2.8)

  /** BIKES, keyed by the id the garage passes to `start`. */
  const Bikes: map<string, BikeConfig> := map["1" := Cobra, "2" := Fatboy, "3" := VRaptor]

  /** `this.state`: undefined until the first `start`, then "PLAYING" or "GAMEOVER". */
  datatype Status = Unstarted | Playing | GameOver

  const CrashAngle: real := 1.55
  const NitroDrain: real := 0.6
  const NitroRegen: real := 0.15
  const NitroFull: real := 100.0
  const BoostDamping: real := 0.85
  const Damping: real := 0.95
  const WindSmoothing: real := 0.02

  /** What one `loop` reads from outside: the `keys` map the key handlers maintain and its
      two `Math.random()` draws, `coin` deciding a re-roll and `gust` giving the new target. */
  datatype Input = Input(keys: map<string, bool>, coin: real, gust: real)

  /** The fields of the JavaScript Game that the physics reads or writes; `angle` and `vel`
      are `this.bike.angle` and `this.bike.vel`. */
  datatype Snap = Snap(
    state: Status,
    config: Option<BikeConfig>,
    angle: real,
    vel: real,
    score: real,
    nitro: real,
    levelIntensity: real,
    windForce: real,
    targetWind: real)

  /** The fields the constructor sets. */
  const Fresh := Snap(Unstarted, None, 0.0, 0.0, 0.0, NitroFull, 0.0, 0.0, 0.0)

  /** A configuration is present while playing, and it is one of BIKES. */
  predicate Wf(s: Snap) {
    && (s.state == Playing ==> s.config.Some?)
    && (s.config.Some? ==> s.config.value in Bikes.Values)
  }

  function Abs(x: real): real {
    if x < 0.0 then -x else x
  }

  /** `this.keys[k]` is truthy. */
  predicate Held(keys: map<string, bool>, k: string) {
    k in keys && keys[k]
  }

  predicate Boosting(keys: map<string, bool>, nitro: real) {
    Held(keys, " ") && nitro > 0.0
  }

  /** The steering term: W pulls back, S pushes forward, and S is assigned last. */
  function Control(keys: map<string, bool>, lean: real): real {
    var c := if Held(keys, "w") || Held(keys, "W") then -lean else 0.0;
    if Held(keys, "s") || Held(keys, "S") then lean else c
  }

  /** `levelIntensity`, from the velocity before the update. */
  function Intensity(vel: real): real {
    Abs(vel) * 20.0
  }

  /** Whether `loop` re-rolls the target wind. */
  predicate Rerolls(s: Snap, coin: real) {
    coin < 0.005 + Intensity(s.vel) / 100.0
  }

  /** The target wind after this tick's possible re-roll. */
  function TargetAfter(s: Snap, input: Input): real {
    if Rerolls(s, input.coin) then (input.gust - 0.5) * (0.035 + Intensity(s.vel) / 50.0)
    else s.targetWind
  }

  /** The wind force after one smoothing step towards the target. */
  function WindAfter(s: Snap, input: Input): real {
    s.windForce + (TargetAfter(s, input) - s.windForce) * WindSmoothing
  }

  /** The velocity after steering, gravity and wind, the boost damping and the damping. */
  function VelAfter(s: Snap, input: Input): real
    requires s.config.Some?
  {
    var cfg := s.config.value;
    var v0 := s.vel + (Control(input.keys, cfg.lean) + s.angle * (0.0055 * cfg.grav) + WindAfter(s, input));
    var v1 := if Boosting(input.keys, s.nitro) then v0 * BoostDamping else v0;
    v1 * Damping
  }

  function NitroAfter(keys: map<string, bool>, nitro: real): real {
    if Boosting(keys, nitro) then nitro - NitroDrain
    else if nitro < NitroFull then nitro + NitroRegen
    else nitro
  }

  /** The physics of one `loop` while playing, ending the game on a fall. */
  function Physics(s: Snap, input: Input): Snap
    requires s.config.Some?
  {
    var angle := s.angle + VelAfter(s, input);
    s.(state := if Abs(angle) > CrashAngle then GameOver else Playing,
       angle := angle,
       vel := VelAfter(s, input),
       nitro := NitroAfter(input.keys, s.nitro),
       score := s.score + s.config.value.speed + Intensity(s.vel),
       levelIntensity := Intensity(s.vel),
       windForce := WindAfter(s, input),
       targetWind := TargetAfter(s, input))
  }

  /** One `loop` call: nothing unless playing. */
  function LoopStep(s: Snap, input: Input): (r: Snap)
    requires Wf(s)
    ensures Wf(r)
  {
    if s.state != Playing then s else Physics(s, input)
  }

  /** The field assignments of `start` with configuration `cfg`, before it calls `loop`.
      The wind and the level intensity carry over from the previous session. */
  function Started(s: Snap, cfg: BikeConfig): Snap {
    s.(config := Some(cfg), angle := 0.0, vel := 0.0, state := Playing, score := 0.0, nitro := NitroFull)
  }

  /** The chain of `loop` calls that `requestAnimationFrame` schedules, one per input. */
  function Frames(s: Snap, inputs: seq<Input>): (r: Snap)
    requires Wf(s)
    ensures Wf(r)
    decreases |inputs|
  {
    if inputs == [] then s else Frames(LoopStep(s, inputs[0]), inputs[1..])
  }

  class Game {
    var state: Status
    var config: Option<BikeConfig>
    var angle: real
    var vel: real
    var score: real
    var nitro: real
    var levelIntensity: real
    var windForce: real
    var targetWind: real

    function Snapshot(): Snap
      reads this
    {
      Snap(state, config, angle, vel, score, nitro, levelIntensity, windForce, targetWind)
    }

    predicate Valid()
      reads this
    {
      Wf(Snapshot())
    }

    constructor ()
      ensures Valid() && Snapshot() == Fresh
    {
      state := Unstarted;
      config := None;
      angle := 0.0;
      vel := 0.0;
      score := 0.0;
      nitro := NitroFull;
      levelIntensity := 0.0;
      windForce := 0.0;
      targetWind := 0.0;
    }

    /** `start(id)`: reset the session for bike `id`, then run the first `loop`. */
    method Start(id: string, first: Input)
      requires id in Bikes
      modifies this
      ensures Valid()
      ensures Snapshot() == LoopStep(Started(old(Snapshot()), Bikes[id]), first)
    {
      config := Some(Bikes[id]);
      angle := 0.0;
      vel := 0.0;
      state := Playing;
      score := 0.0;
      nitro := NitroFull;
      Loop(first);
    }

    /** `loop`, without the drawing, the audio and the rescheduling. */
    method Loop(input: Input)
      requires Valid()
      modifies this
      ensures Valid()
      ensures Snapshot() == LoopStep(old(Snapshot()), input)
    {
      if state != Playing {
        return;
      }
      var cfg := config.value;
      levelIntensity := Abs(vel) * 20.0;
      if input.coin < 0.005 + levelIntensity / 100.0 {
        targetWind := (input.gust - 0.5) * (0.035 + levelIntensity / 50.0);
      }
      windForce := windForce + (targetWind - windForce) * WindSmoothing;
      assert targetWind == TargetAfter(old(Snapshot()), input);
      assert windForce == WindAfter(old(Snapshot()), input);
      var isBoosting := Held(input.keys, " ") && nitro > 0.0;
      var control := 0.0;
      if Held(input.keys, "w") || Held(input.keys, "W") {
        control := -cfg.lean;
      }
      if Held(input.keys, "s") || Held(input.keys, "S") {
        control := cfg.lean;
      }
      assert control == Control(input.keys, cfg.lean);
      vel := vel + (control + angle * (0.0055 * cfg.grav) + windForce);
      if isBoosting {
        vel := vel * BoostDamping;
        nitro := nitro - NitroDrain;
      } else if nitro < NitroFull {
        nitro := nitro + NitroRegen;
      }
      vel := vel * Damping;
      assert vel == VelAfter(old(Snapshot()), input);
      assert nitro == NitroAfter(input.keys, old(nitro));
      angle := angle + vel;
      score := score + cfg.speed + levelIntensity;
      if Abs(angle) > CrashAngle {
        EndGame();
      }
    }

    /** `endGame`, without the screen and audio changes. */
    method EndGame()
      requires Valid()
      modifies this
      ensures Valid()
      ensures Snapshot() == old(Snapshot()).(state := GameOver)
    {
      state := GameOver;
    }
  }
}
