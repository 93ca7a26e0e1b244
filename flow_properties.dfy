/** What the rules of the Python Game guarantee: how each screen reacts to keys, what a
    playing tick does to the score and the high score, and what holds over any run of
    frames. */
module FlowProperties {

  import opened Wrappers
  import opened Config
  import Weather
  import opened Dynamics
  import opened Flow

  function Max(a: int, b: int): int {
    if a >= b then a else b
  }

  predicate IsRetry(e: Event) {
    e.KeyDown? && e.key == KeyR
  }

  /** In the garage a BIKE_CONFIGS key starts play with a fresh, upright bike of that
      configuration and score 0; nothing else changes (in particular not the weather). */
  lemma SelectionStartsSession(g: Session, unicode: string, key: int)
    requires g.screen == Menu && unicode in BikeConfigs
    ensures EventStep(g, KeyDown(unicode, key))
         == g.(screen := Playing, score := 0, ride := Some(Ride(BikeConfigs[unicode], Upright)))
  {
    SelectionAndThemeDisjoint(unicode);
  }

  /** In the garage k, l and g (either case) change the theme and nothing else. */
  lemma ThemeKeyChangesOnlyTheme(g: Session, unicode: string, key: int)
    requires g.screen == Menu && unicode in {"k", "K", "l", "L", "g", "G"}
    ensures EventStep(g, KeyDown(unicode, key)) == g.(bgKey := Upper(unicode))
  {
    ThemeKeys(unicode);
  }

  /** In the garage play starts exactly on a BIKE_CONFIGS key; any other event leaves the
      screen on the garage and changes at most the theme. */
  lemma MenuLeavesOnlyBySelection(g: Session, e: Event)
    requires g.screen == Menu
    ensures EventStep(g, e).screen == Playing <==> e.KeyDown? && e.unicode in BikeConfigs
    ensures EventStep(g, e).screen != Playing ==> EventStep(g, e) == g.(bgKey := EventStep(g, e).bgKey)
    ensures EventStep(g, e).screen != GameOver
  {
  }

  /** After a crash only R does anything: it returns to the garage. */
  lemma GameOverOnlyRetry(g: Session, e: Event)
    requires g.screen == GameOver
    ensures EventStep(g, e) == if IsRetry(e) then g.(screen := Menu) else g
  {
  }

  /** While playing, events (selection and theme keys included) are ignored. */
  lemma PlayingIgnoresEvents(g: Session, e: Event)
    requires g.screen == Playing
    ensures EventStep(g, e) == g
  {
  }

  lemma {:induction false} PollWhilePlaying(g: Session, events: seq<Event>)
    requires g.screen == Playing
    ensures Poll(g, events).session == g
    decreases |events|
  {
    if events != [] && !events[0].QuitEvent? {
      PlayingIgnoresEvents(g, events[0]);
      PollWhilePlaying(EventStep(g, events[0]), events[1..]);
    }
  }

  /** Events alone never end a session: the game-over screen is reached only by a crash. */
  lemma {:induction false} PollNeverEntersGameOver(g: Session, events: seq<Event>)
    ensures Poll(g, events).session.screen == GameOver ==> g.screen == GameOver
    decreases |events|
  {
    if events != [] && !events[0].QuitEvent? {
      PollNeverEntersGameOver(EventStep(g, events[0]), events[1..]);
    }
  }

  /** When a frame's events start play, the session begins from the state `Bike.reset`
      leaves, with a configured bike and score 0. */
  lemma {:induction false} PollStartsFresh(g: Session, events: seq<Event>)
    requires g.screen != Playing && Poll(g, events).session.screen == Playing
    ensures var s := Poll(g, events).session;
      s.score == 0 && s.ride.Some? && s.ride.value.lean == Upright &&
      s.ride.value.spec in BikeConfigs.Values
    decreases |events|
  {
    var g1 := EventStep(g, events[0]);
    if g1.screen == Playing {
      PollWhilePlaying(g1, events[1..]);
    } else {
      PollStartsFresh(g1, events[1..]);
    }
  }

  /** A frame after a crash in which R is not pressed changes nothing at all. */
  lemma {:induction false} PollGameOverFrozen(g: Session, events: seq<Event>)
    requires g.screen == GameOver
    requires forall i :: 0 <= i < |events| ==> !IsRetry(events[i])
    ensures Poll(g, events).session == g
    decreases |events|
  {
    if events != [] && !events[0].QuitEvent? {
      GameOverOnlyRetry(g, events[0]);
      PollGameOverFrozen(g, events[1..]);
    }
  }

  lemma GameOverFrozen(g: Session, f: FrameInput)
    requires Wf(g) && g.screen == GameOver
    requires forall i :: 0 <= i < |f.events| ==> !IsRetry(f.events[i])
    ensures FrameStep(g, f).session == g
  {
    PollGameOverFrozen(g, f.events);
  }

  /** A playing tick: the score goes up by 2 when the bike boosted and by 1 otherwise; the
      session ends exactly when the bike's new angle is beyond 90 degrees either way, and
      only then can the high score change, to the larger of itself and the score that
      already includes the crashing tick. The record file is written only on a strict
      improvement, with the new score. */
  lemma PlayTickRules(g: Session, keys: Keys, roll: real)
    requires g.screen == Playing && g.ride.Some?
    ensures var t := BikeTick(g, keys, roll);
      var r := PlayStep(g, keys, roll);
      var crashed := t.next.angle > 90.0 || t.next.angle < -90.0;
      && r.score == g.score + (if t.boosting then 2 else 1)
      && r.ride == Some(Ride(g.ride.value.spec, t.next))
      && r.wind == Weather.Step(g.wind, roll)
      && (r.screen == GameOver <==> crashed)
      && (r.screen == Playing <==> !crashed)
      && r.highScore == (if crashed then Max(g.highScore, r.score) else g.highScore)
      && r.record == (if crashed && r.score > g.highScore then Some(r.score) else g.record)
  {
  }

  /** Physics, wind and score advance only in frames that end on the playing screen: in
      any other frame the wind is untouched and the bike is at most replaced by a fresh one. */
  lemma PhysicsOnlyWhilePlaying(g: Session, f: FrameInput)
    requires Wf(g)
    ensures var p := Poll(g, f.events);
      var r := FrameStep(g, f);
      && (!p.quit && p.session.screen == Playing ==> r.session.wind == Weather.Step(g.wind, f.roll))
      && (p.quit || p.session.screen != Playing ==> r.session == p.session && r.session.wind == g.wind)
  {
  }

  /** The high score never decreases over any run of frames. */
  lemma {:induction false} HighScoreNeverDecreases(g: Session, frames: seq<FrameInput>)
    requires Wf(g)
    ensures RunFrames(g, frames).session.highScore >= g.highScore
    decreases |frames|
  {
    if frames != [] {
      var p := FrameStep(g, frames[0]);
      if !p.quit {
        HighScoreNeverDecreases(p.session, frames[1..]);
      }
    }
  }

  /** The record file always holds the high score once anything has been written, so a
      new game reads back the best score: `Game()` over the record a run leaves starts
      with the high score that run reached. */
  lemma RecordReadsBackBest(g: Session, frames: seq<FrameInput>)
    requires Wf(g)
    ensures Initial(RunFrames(g, frames).session.record).highScore == RunFrames(g, frames).session.highScore
  {
  }

  /** The physical sanity of a session: the wind within its draw range and the fuel in
      its band. */
  predicate Sane(g: Session) {
    && Wf(g)
    && Weather.Bounded(g.wind)
    && (g.ride.Some? ==> FuelInBand(g.ride.value.lean.fuel))
  }

  lemma InitialSane(stored: Option<int>)
    ensures Sane(Initial(stored))
  {
  }

  lemma {:induction false} PollSane(g: Session, events: seq<Event>)
    requires Sane(g)
    ensures Sane(Poll(g, events).session)
    decreases |events|
  {
    if events != [] && !events[0].QuitEvent? {
      PollSane(EventStep(g, events[0]), events[1..]);
    }
  }

  lemma FrameSane(g: Session, f: FrameInput)
    requires Sane(g) && Weather.InRange(f.roll)
    ensures Sane(FrameStep(g, f).session)
  {
    var p := Poll(g, f.events);
    PollSane(g, f.events);
    if !p.quit && p.session.screen == Playing {
      var ride := p.session.ride.value;
      Weather.StepBounded(p.session.wind, f.roll);
      FuelBandPreserved(ride.spec, ride.lean, f.keys, p.session.score, Weather.Step(p.session.wind, f.roll).force);
    }
  }

  predicate RollsInRange(frames: seq<FrameInput>) {
    forall i :: 0 <= i < |frames| ==> Weather.InRange(frames[i].roll)
  }

  /** Over any run of frames with in-range wind draws, the wind never leaves
      [-0.012, 0.012] and the fuel never leaves (-0.7, 100.15). */
  lemma {:induction false} RunStaysSane(g: Session, frames: seq<FrameInput>)
    requires Sane(g) && RollsInRange(frames)
    ensures Sane(RunFrames(g, frames).session)
    decreases |frames|
  {
    if frames != [] {
      FrameSane(g, frames[0]);
      var p := FrameStep(g, frames[0]);
      if !p.quit {
        assert RollsInRange(frames[1..]) by {
          forall i | 0 <= i < |frames| - 1 ensures Weather.InRange(frames[1..][i].roll) {
            assert frames[1..][i] == frames[i + 1];
          }
        }
        RunStaysSane(p.session, frames[1..]);
      }
    }
  }
}
