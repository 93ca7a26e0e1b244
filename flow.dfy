/** The Python Game (main.py:115-205): the MENU / PLAYING / GAMEOVER state machine driven
    by key events, the per-tick score, the crash check and the high score with its record
    file. The pure functions below say what one event, one playing tick, one frame of the
    main loop and a run of frames do to a Session; the Game class does it in place. */
module Flow {

  import opened Wrappers
  import opened Config
  import Weather
  import opened Dynamics

  datatype Screen = Menu | Playing | GameOver

  /** A pygame event as the game reads it: QUIT, a KEYDOWN with its text and key code, or
      anything else. */
  datatype Event = QuitEvent | KeyDown(unicode: string, key: int) | OtherEvent

  /** pygame's key code K_r. */
  const KeyR: int := 114

  /** The bike in use: its configuration and its physical state. */
  datatype Ride = Ride(spec: BikeSpec, lean: Lean)

  /** Everything about a Game that the rules read or write. `record` is the content of
      record.pkl (None when the file is absent); `ride` is None until a bike is chosen. */
  datatype Session = Session(
    screen: Screen,
    score: nat,
    highScore: int,
    wind: Weather.Wind,
    ride: Option<Ride>,
    bgKey: string,
    record: Option<int>)

  /** `load_record`: the stored number, or 0 when there is no record file. */
  function LoadRecord(stored: Option<int>): int {
    stored.GetOr(0)
  }

  /** The Session `Game.__init__` builds over a record file with content `stored`. */
  function Initial(stored: Option<int>): Session {
    Session(Menu, 0, LoadRecord(stored), Weather.Calm, None, DefaultTheme, stored)
  }

  /** A bike exists whenever play is on, and the high score is what `load_record` would
      read back from the record file. */
  predicate Wf(g: Session) {
    && (g.screen == Playing ==> g.ride.Some?)
    && g.highScore == LoadRecord(g.record)
  }

  /** A KEYDOWN in the garage: a BIKE_CONFIGS key builds a fresh bike and starts play with
      score 0; a key whose upper case is a BG_THEMES key picks that theme. */
  function MenuKey(g: Session, unicode: string): Session {
    var g1 :=
      if unicode in BikeConfigs
      then g.(ride := Some(Ride(BikeConfigs[unicode], Upright)), score := 0, screen := Playing)
      else g;
    if Upper(unicode) in BgThemes then g1.(bgKey := Upper(unicode)) else g1
  }

  /** One event of the event loop, other than QUIT. */
  function EventStep(g: Session, e: Event): Session {
    match e
    case KeyDown(unicode, key) =>
      var g1 := if g.screen == Menu then MenuKey(g, unicode) else g;
      if g1.screen == GameOver && key == KeyR then g1.(screen := Menu) else g1
    case _ => g
  }

  /** The result of processing events: the new Session, and whether QUIT was seen (the
      game exits there; later events are not processed). */
  datatype Polled = Polled(session: Session, quit: bool)

  /** The `for event in pygame.event.get()` loop of one frame. Events never touch the
      weather, the high score or the record file. */
  function Poll(g: Session, events: seq<Event>): (p: Polled)
    ensures p.session.wind == g.wind
    ensures p.session.highScore == g.highScore && p.session.record == g.record
    ensures Wf(g) ==> Wf(p.session)
    decreases |events|
  {
    if events == [] then Polled(g, false)
    else if events[0].QuitEvent? then Polled(g, true)
    else Poll(EventStep(g, events[0]), events[1..])
  }

  /** The `Bike.update` result of a playing tick: the weather is advanced first and the
      bike sees the new wind force and the score before this tick's increment. */
  function BikeTick(g: Session, keys: Keys, roll: real): Tick
    requires g.ride.Some?
  {
    Step(g.ride.value.spec, g.ride.value.lean, keys, g.score, Weather.Step(g.wind, roll).force)
  }

  /** `update_playing`: advance the weather and the bike, add 2 to the score on a boosting
      tick and 1 otherwise, then end the session if the bike has fallen, saving a strictly
      better score as the new record. */
  function PlayStep(g: Session, keys: Keys, roll: real): Session
    requires g.ride.Some?
  {
    var t := BikeTick(g, keys, roll);
    var score := g.score + (if t.boosting then 2 else 1);
    var g1 := g.(wind := Weather.Step(g.wind, roll),
                 ride := Some(Ride(g.ride.value.spec, t.next)),
                 score := score);
    if !Crashed(t.next.angle) then g1
    else if score > g.highScore then g1.(screen := GameOver, highScore := score, record := Some(score))
    else g1.(screen := GameOver)
  }

  /** What one iteration of the main loop reads: this frame's events, the keys held and
      the wind draw `random.uniform(-0.012, 0.012)` would give if a re-roll is due. */
  datatype FrameInput = FrameInput(events: seq<Event>, keys: Keys, roll: real)

  /** One iteration of the `while True` loop of `Game.run`: the events, then a playing
      tick if play is on. The high score never goes down. */
  function FrameStep(g: Session, f: FrameInput): (p: Polled)
    requires Wf(g)
    ensures Wf(p.session)
    ensures p.session.highScore >= g.highScore
  {
    var p := Poll(g, f.events);
    if !p.quit && p.session.screen == Playing
    then Polled(PlayStep(p.session, f.keys, f.roll), false)
    else p
  }

  /** `Game.run` over a sequence of frames, stopping at QUIT. */
  function RunFrames(g: Session, frames: seq<FrameInput>): (p: Polled)
    requires Wf(g)
    ensures Wf(p.session)
    decreases |frames|
  {
    if frames == [] then Polled(g, false)
    else
      var p := FrameStep(g, frames[0]);
      if p.quit then p else RunFrames(p.session, frames[1..])
  }

  class Game {
    var state: Screen
    var score: nat
    var highScore: int
    const weather: Weather.WeatherSystem
    var bike: Bike?
    var bgKey: string
    /** The content of record.pkl. */
    ghost var record: Option<int>

    ghost function Snapshot(): Session
      reads this, weather, bike
    {
      Session(state, score, highScore, weather.Current(),
              if bike == null then None else Some(Ride(bike.specs, bike.State())),
              bgKey, record)
    }

    ghost predicate Valid()
      reads this, weather, bike
    {
      Wf(Snapshot())
    }

    /** `Game()` over a record file with content `stored`. */
    constructor (stored: Option<int>)
      ensures Valid() && Snapshot() == Initial(stored)
    {
      state := Menu;
      score := 0;
      highScore := LoadRecord(stored);
      record := stored;
      weather := new Weather.WeatherSystem();
      bgKey := DefaultTheme;
      bike := null;
    }

    /** The body of the event loop in `run`, for one event other than QUIT. */
    method HandleEvent(e: Event)
      requires !e.QuitEvent?
      modifies this
      ensures Snapshot() == EventStep(old(Snapshot()), e)
      ensures bike == old(bike) || (bike != null && fresh(bike))
    {
      if e.KeyDown? {
        if state == Menu {
          if e.unicode in BikeConfigs {
            bike := new Bike(BikeConfigs[e.unicode]);
            score := 0;
            state := Playing;
          }
          var upper := Upper(e.unicode);
          if upper in BgThemes {
            bgKey := upper;
          }
        }
        if state == GameOver && e.key == KeyR {
          state := Menu;
        }
      }
    }

    /** `update_playing`, without the drawing. */
    method UpdatePlaying(keys: Keys, roll: real)
      requires Valid() && state == Playing
      modifies this, weather, bike
      ensures Snapshot() == PlayStep(old(Snapshot()), keys, roll)
      ensures Valid() && bike == old(bike)
    {
      weather.Update(roll);
      var isBoosting := bike.Update(keys, score, weather.windForce);
      score := score + if isBoosting then 2 else 1;
      if bike.angle > CrashAngle || bike.angle < -CrashAngle {
        state := GameOver;
        if score > highScore {
          highScore := score;
          record := Some(highScore);
        }
      }
    }

    /** One iteration of the main loop of `run`: returns true when QUIT was seen. */
    method Frame(f: FrameInput) returns (quit: bool)
      requires Valid()
      modifies this, weather, bike
      ensures Valid()
      ensures Polled(Snapshot(), quit) == FrameStep(old(Snapshot()), f)
      ensures bike == old(bike) || (bike != null && fresh(bike))
    {
      var i := 0;
      while i < |f.events|
        invariant 0 <= i <= |f.events|
        invariant Valid()
        invariant Poll(Snapshot(), f.events[i..]) == Poll(old(Snapshot()), f.events)
        invariant bike == old(bike) || (bike != null && fresh(bike))
        invariant unchanged(weather)
      {
        if f.events[i].QuitEvent? {
          return true;
        }
        assert f.events[i..][1..] == f.events[i + 1..];
        HandleEvent(f.events[i]);
        i := i + 1;
      }
      quit := false;
      if state == Playing {
        UpdatePlaying(f.keys, f.roll);
      }
    }

    /** The `while True` loop of `run`, over a finite sequence of frames. */
    method Run(frames: seq<FrameInput>) returns (quit: bool)
      requires Valid()
      modifies this, weather, bike
      ensures Valid()
      ensures Polled(Snapshot(), quit) == RunFrames(old(Snapshot()), frames)
      ensures highScore >= old(highScore)
    {
      var i := 0;
      quit := false;
      while i < |frames|
        invariant 0 <= i <= |frames|
        invariant Valid()
        invariant RunFrames(Snapshot(), frames[i..]) == RunFrames(old(Snapshot()), frames)
        invariant highScore >= old(highScore)
        invariant bike == old(bike) || (bike != null && fresh(bike))
      {
        assert frames[i..][1..] == frames[i + 1..];
        quit := Frame(frames[i]);
        if quit {
          return;
        }
        i := i + 1;
      }
    }
  }
}
