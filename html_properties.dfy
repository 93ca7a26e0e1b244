/** What the browser version's `start`, `loop` and `endGame` guarantee. */
module HtmlProperties {

  import opened Wrappers
  import opened HtmlVersion

  /** `start` resets the session (score 0, nitro 100, angle and velocity 0) and its own
      first `loop` then sees a bike at rest: level intensity 0, a score of exactly the
      bike's speed, a re-roll chance of 0.005, and wind carried over from before. */
  lemma StartFirstTick(s: Snap, id: string, input: Input)
    requires id in Bikes
    ensures var r := LoopStep(Started(s, Bikes[id]), input);
      && r.config == Some(Bikes[id])
      && r.levelIntensity == 0.0
      && r.score == Bikes[id].speed
      && r.nitro == (if Held(input.keys, " ") then 99.4 else 100.0)
      && r.targetWind == (if input.coin < 0.005 then (input.gust - 0.5) * 0.035 else s.targetWind)
      && r.windForce == s.windForce + (r.targetWind - s.windForce) * 0.02
  {
  }

  /** `loop` does nothing unless playing, so once `endGame` has run no later frame moves
      anything. */
  lemma {:induction false} NothingMovesAfterEnd(s: Snap, inputs: seq<Input>)
    requires Wf(s) && s.state != Playing
    ensures Frames(s, inputs) == s
    decreases |inputs|
  {
    if inputs != [] {
      NothingMovesAfterEnd(LoopStep(s, inputs[0]), inputs[1..]);
    }
  }

  /** A playing tick ends the game exactly when the new angle is beyond 1.55 either way. */
  lemma CrashExactly(s: Snap, input: Input)
    requires Wf(s) && s.state == Playing
    ensures LoopStep(s, input).state == GameOver <==> Abs(LoopStep(s, input).angle) > 1.55
    ensures LoopStep(s, input).state == Playing <==> Abs(LoopStep(s, input).angle) <= 1.55
  {
  }

  /** The steering term is -lean, 0 or +lean: +lean whenever S (either case) is held,
      -lean when only W is, 0 when neither is. */
  lemma ControlValues(keys: map<string, bool>, lean: real)
    ensures Control(keys, lean) in {-lean, 0.0, lean}
    ensures (Held(keys, "s") || Held(keys, "S")) ==> Control(keys, lean) == lean
    ensures !(Held(keys, "s") || Held(keys, "S")) && (Held(keys, "w") || Held(keys, "W"))
            ==> Control(keys, lean) == -lean
    ensures !(Held(keys, "s") || Held(keys, "S") || Held(keys, "w") || Held(keys, "W"))
            ==> Control(keys, lean) == 0.0
  {
  }

  /** Nitro: 0.6 less on a boosting tick (SPACE held and nitro positive), 0.15 more on
      another tick below 100, unchanged otherwise. */
  lemma NitroRule(s: Snap, input: Input)
    requires Wf(s) && s.state == Playing
    ensures LoopStep(s, input).nitro ==
      if Held(input.keys, " ") && s.nitro > 0.0 then s.nitro - 0.6
      else if s.nitro < 100.0 then s.nitro + 0.15
      else s.nitro
  {
  }

  predicate NitroInBand(nitro: real) {
    -NitroDrain < nitro < NitroFull + NitroRegen
  }

  lemma NitroBandPreserved(s: Snap, input: Input)
    requires Wf(s) && NitroInBand(s.nitro)
    ensures NitroInBand(LoopStep(s, input).nitro)
  {
  }

  /** Over any chain of frames nitro stays in (-0.6, 100.15); there is no clamp. */
  lemma {:induction false} NitroBandForever(s: Snap, inputs: seq<Input>)
    requires Wf(s) && NitroInBand(s.nitro)
    ensures NitroInBand(Frames(s, inputs).nitro)
    decreases |inputs|
  {
    if inputs != [] {
      NitroBandPreserved(s, inputs[0]);
      NitroBandForever(LoopStep(s, inputs[0]), inputs[1..]);
    }
  }

  /** vel' = (vel + control + angle*0.0055*grav + wind') * (boosting ? 0.85 : 1) * 0.95,
      with wind' the already smoothed wind, and angle' = angle + vel'. */
  lemma VelocityRule(s: Snap, input: Input)
    requires Wf(s) && s.state == Playing
    ensures var r := LoopStep(s, input);
      var cfg := s.config.value;
      && r.vel == (s.vel + Control(input.keys, cfg.lean) + s.angle * 0.0055 * cfg.grav + r.windForce)
                  * (if Boosting(input.keys, s.nitro) then 0.85 else 1.0) * 0.95
      && r.angle == s.angle + r.vel
  {
  }

  /** Upright in calm air with no keys, the velocity just decays: it is multiplied by 0.95,
      so any motion shrinks. */
  lemma CalmDecay(s: Snap, coin: real)
    requires Wf(s) && s.state == Playing
    requires s.angle == 0.0 && s.windForce == 0.0 && s.targetWind == 0.0
    ensures LoopStep(s, Input(map[], coin, 0.5)).vel == 0.95 * s.vel
    ensures s.vel != 0.0 ==> Abs(LoopStep(s, Input(map[], coin, 0.5)).vel) < Abs(s.vel)
  {
  }

  /** The score grows by the bike's speed plus the level intensity, which is 20 times the
      velocity from before the update; since every speed in BIKES is positive, the score
      strictly increases on every playing tick. */
  lemma ScoreGrowth(s: Snap, input: Input)
    requires Wf(s) && s.state == Playing
    ensures LoopStep(s, input).levelIntensity == 20.0 * Abs(s.vel)
    ensures LoopStep(s, input).score == s.score + s.config.value.speed + 20.0 * Abs(s.vel)
    ensures LoopStep(s, input).score > s.score
  {
  }

  /** The score never goes down over any chain of frames. */
  lemma {:induction false} ScoreNeverDecreases(s: Snap, inputs: seq<Input>)
    requires Wf(s)
    ensures Frames(s, inputs).score >= s.score
    decreases |inputs|
  {
    if inputs != [] {
      if s.state == Playing {
        ScoreGrowth(s, inputs[0]);
      }
      ScoreNeverDecreases(LoopStep(s, inputs[0]), inputs[1..]);
    }
  }

  function Max(a: real, b: real): real {
    if a >= b then a else b
  }

  lemma HalfBound(u: real, k: real)
    requires 0.0 <= u < 1.0 && k >= 0.0
    ensures Abs((u - 0.5) * k) <= k / 2.0
  {
    if u >= 0.5 {
      assert (u - 0.5) * k <= 0.5 * k;
    } else {
      assert (0.5 - u) * k <= 0.5 * k;
    }
  }

  /** The wind: re-rolled with probability 0.005 + intensity/100, and then to at most half
      of 0.035 + intensity/50 either way; otherwise the target is kept; the force moves 2% of
      the way to the target, so it never overshoots the larger of its old size and the
      target's. */
  lemma WindRule(s: Snap, input: Input)
    requires Wf(s) && s.state == Playing
    requires 0.0 <= input.gust < 1.0
    ensures var r := LoopStep(s, input);
      && (Rerolls(s, input.coin) ==> Abs(r.targetWind) <= (0.035 + r.levelIntensity / 50.0) / 2.0)
      && (!Rerolls(s, input.coin) ==> r.targetWind == s.targetWind)
      && r.windForce - s.windForce == (r.targetWind - s.windForce) * 0.02
      && Abs(r.windForce) <= Max(Abs(s.windForce), Abs(r.targetWind))
  {
    if Rerolls(s, input.coin) {
      HalfBound(input.gust, 0.035 + Intensity(s.vel) / 50.0);
    }
  }

  /** Nitro runs out and comes back with SPACE still held: from -0.2 (where 167 boosts
      from 100 leave it) a tick regenerates to -0.05, the next to 0.1, and the one after
      that boosts again (it drains 0.6), as long as the bike has not fallen. */
  lemma NitroComesBack(s: Snap, in1: Input, in2: Input, in3: Input)
    requires Wf(s) && s.state == Playing && s.nitro == -0.2
    requires Held(in1.keys, " ") && Held(in2.keys, " ") && Held(in3.keys, " ")
    ensures var r1 := LoopStep(s, in1);
      && r1.nitro == -0.05
      && (r1.state == Playing ==>
            var r2 := LoopStep(r1, in2);
            && r2.nitro == 0.1
            && (r2.state == Playing ==> LoopStep(r2, in3).nitro == 0.1 - 0.6))
  {
  }

  /** True when every tick of an uninterrupted stretch of play with these keys, started at
      `nitro`, boosts; the nitro of each tick is the one NitroRule gives. */
  predicate NitroStreak(nitro: real, keys: seq<map<string, bool>>)
    decreases |keys|
  {
    keys == [] ||
    (Boosting(keys[0], nitro) && NitroStreak(NitroAfter(keys[0], nitro), keys[1..]))
  }

  lemma {:induction false} NitroStreakCost(nitro: real, keys: seq<map<string, bool>>)
    requires keys != [] && NitroStreak(nitro, keys)
    ensures NitroDrain * (|keys| - 1) as real < nitro
    decreases |keys|
  {
    if |keys| > 1 {
      NitroStreakCost(NitroAfter(keys[0], nitro), keys[1..]);
    }
  }

  predicate SpaceHeldAll(keys: seq<map<string, bool>>) {
    forall i :: 0 <= i < |keys| ==> Held(keys[i], " ")
  }

  lemma {:induction false} NitroStreakReached(nitro: real, keys: seq<map<string, bool>>)
    requires SpaceHeldAll(keys) && NitroDrain * (|keys| - 1) as real < nitro
    ensures NitroStreak(nitro, keys)
    decreases |keys|
  {
    if keys != [] {
      assert Held(keys[0], " ");
      assert SpaceHeldAll(keys[1..]) by {
        forall i | 0 <= i < |keys| - 1 ensures Held(keys[1..][i], " ") {
          assert keys[1..][i] == keys[i + 1];
        }
      }
      NitroStreakReached(NitroAfter(keys[0], nitro), keys[1..]);
    }
  }

  /** In the browser at most 167 ticks in a row can boost from any nitro in the band, and
      from a full tank with SPACE held all 167 do (100 - 0.6 * 166 = 0.4 > 0). */
  lemma NitroStreakLimit(nitro: real, keys: seq<map<string, bool>>)
    ensures NitroInBand(nitro) && NitroStreak(nitro, keys) ==> |keys| <= 167
    ensures nitro == NitroFull && |keys| == 167 && SpaceHeldAll(keys) ==> NitroStreak(nitro, keys)
  {
    if keys != [] && NitroStreak(nitro, keys) {
      NitroStreakCost(nitro, keys);
    }
    if nitro == NitroFull && |keys| == 167 && SpaceHeldAll(keys) {
      NitroStreakReached(nitro, keys);
    }
  }

  /** `k2` is `k1` with the W and S sides exchanged. */
  predicate MirrorKeys(k1: map<string, bool>, k2: map<string, bool>) {
    && Held(k2, " ") == Held(k1, " ")
    && (Held(k2, "w") || Held(k2, "W")) == (Held(k1, "s") || Held(k1, "S"))
    && (Held(k2, "s") || Held(k2, "S")) == (Held(k1, "w") || Held(k1, "W"))
  }

  predicate BothSides(k: map<string, bool>) {
    (Held(k, "w") || Held(k, "W")) && (Held(k, "s") || Held(k, "S"))
  }

  function Mirror(s: Snap): Snap {
    s.(angle := -s.angle, vel := -s.vel, windForce := -s.windForce, targetWind := -s.targetWind)
  }

  /** Without both sides held, the browser dynamics are mirror-symmetric: the mirrored
      bike, with W and S exchanged and the mirrored gust draw, does the mirror image of the
      tick. */
  lemma MirrorSymmetry(s: Snap, k1: map<string, bool>, k2: map<string, bool>, coin: real, gust: real)
    requires Wf(s) && s.state == Playing
    requires MirrorKeys(k1, k2) && !BothSides(k1)
    ensures LoopStep(Mirror(s), Input(k2, coin, 1.0 - gust)) == Mirror(LoopStep(s, Input(k1, coin, gust)))
  {
    var cfg := s.config.value;
    var i1 := Input(k1, coin, gust);
    var i2 := Input(k2, coin, 1.0 - gust);
    var m := Mirror(s);
    assert Intensity(m.vel) == Intensity(s.vel);
    assert Control(k2, cfg.lean) == -Control(k1, cfg.lean);
    var k := 0.035 + Intensity(s.vel) / 50.0;
    assert (1.0 - gust - 0.5) * k == -((gust - 0.5) * k);
    assert TargetAfter(m, i2) == -TargetAfter(s, i1);
    assert WindAfter(m, i2) == -WindAfter(s, i1);
    assert (-s.angle) * (0.0055 * cfg.grav) == -(s.angle * (0.0055 * cfg.grav));
    assert VelAfter(m, i2) == -VelAfter(s, i1);
  }

  /** With both sides held the symmetry breaks: S wins in both pictures, so the mirrored
      keys steer the same way instead of the opposite way. */
  lemma BothSidesSteerForward(k1: map<string, bool>, k2: map<string, bool>, lean: real)
    requires MirrorKeys(k1, k2) && BothSides(k1)
    ensures Control(k1, lean) == lean && Control(k2, lean) == lean
  {
  }
}
