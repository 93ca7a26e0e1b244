# Extreme Bike Balance — a verified model of the game core

This project models the core of *Extreme Bike Balance*, a small arcade game. The player
keeps a leaning bike upright under gravity, steering, wind and a boost resource, while the
distance score grows. The game exists in two versions:

- **Python / pygame** (`main.py`; `app.py` lines 132–334 are the same code again). Model:
  `Weather` (the wind of `WeatherSystem`), `Dynamics` (`Bike.reset` / `Bike.update`) and
  `Flow` (the `Game` state machine MENU → PLAYING → GAMEOVER → MENU, the score, the crash
  check and the high score with its record file).
- **Browser** (`html-version/game.js`). Model: `HtmlVersion` (the `BIKES` table, `start`,
  the physics/nitro/score/crash part of `loop`, `endGame`).

Each mutating entity of the source is a Dafny class: `WeatherSystem`, `Bike`, `Game`
(Python) and `Game` (browser). The Python classes keep the physics fields of their source
(colours, images, fonts and the rain list are left out). The browser `Game` flattens its
`this.bike` object into `angle` and `vel` fields, and takes the `this.keys` map as a
parameter of each `loop`. Each method states its new state as a pure
function of its old state and its inputs (`Weather.Step`, `Dynamics.Step`,
`Flow.EventStep`, `Flow.PlayStep`, `Flow.FrameStep`, `Flow.RunFrames`,
`HtmlVersion.LoopStep`, `HtmlVersion.Frames`). The game's properties are lemmas about those
functions, in `FlowProperties`, `HtmlProperties` and the `Weather` and `Dynamics` modules.

Inputs from outside the core are parameters:
- the keys held, as booleans in Python and as the `keys` map in the browser;
- the pygame events of a frame;
- each random draw: `random.uniform(-0.012, 0.012)` in Python, and the two `Math.random()`
  values of a browser `loop`;
- the content of `record.pkl` when the game starts.

Writing `record.pkl` is modelled by a ghost field `record`. The invariant ties it to the
high score: the high score is always what `load_record` would read back.

Floating-point numbers are modelled as exact `real`s. Python integers are unbounded, and
so are Dafny's.

Facts about the code that the model keeps as written:
- Boost fuel is not clamped to [0, 100]. A boosting tick can take it below 0 and a
  regenerating tick above 100, but it stays strictly between −0.7 and 100.15
  (`Dynamics.FuelBandPreserved`).
- The score scale for gravity is 50000 in both Python files.
- The Python drain/regen is 0.7/0.15. The browser's is 0.6/0.15.
- Running out of boost does not stop boosting for good while SPACE stays held. In Python,
  143 boosts from 100 leave −0.1; the next tick regenerates to 0.05 and the one after
  boosts again (`Dynamics.BoostComesBack`). The browser goes from −0.2 through −0.05 and
  0.1 to a boost (`HtmlProperties.NitroComesBack`).
- Both Python copies apply W and S independently, so holding both cancels. The browser
  makes them exclusive, and S wins.

## Model

| member | source | states |
|---|---|---|
| `Weather.WeatherSystem.constructor` | main.py:47-50 | a new weather system has counter 0, target 0 and force 0 |
| `Weather.WeatherSystem.Update` | main.py:53-57 | one update leaves exactly the wind `Weather.Step` gives for the old wind and the draw |
| `Weather.StepSpec` | app.py:165-169 | the counter goes up by one; the target becomes the draw exactly on a tick whose new counter is a multiple of 180, and is kept otherwise; the force moves 2% of the way to the new target |
| `Weather.StepBounded` | main.py:55-57 | if all draws are within ±0.012, target and force stay within ±0.012, and the force moves by at most 0.00048 per tick (no jumps) |
| `Weather.RunBounded` | app.py:166-169 | over any number of ticks with in-range draws the wind stays within ±0.012, and the counter advances by the number of ticks |
| `Weather.CalmUntilFirstReroll` | main.py:47-57 | from a new weather system, the first 179 ticks have target and force exactly 0 |
| `Dynamics.Bike.constructor` | main.py:76-80 | a new bike has the given configuration and starts upright: angle 0, velocity 0, fuel 100 |
| `Dynamics.Bike.Reset` | main.py:91-95 | after a reset, angle 0, angular velocity 0 and boost fuel 100 |
| `Dynamics.Bike.Update` | main.py:97-107 | the new angle, velocity and fuel and the returned boost flag are exactly those of `Dynamics.Step` |
| `Dynamics.BoostGate` | app.py:210 | a tick boosts exactly when SPACE is held and fuel > 0; with fuel ≤ 0 it never boosts, whatever the keys, and the fuel rises by 0.15 |
| `Dynamics.FuelRule` | main.py:105-106 | fuel drops by exactly 0.7 on a boosting tick, and otherwise rises by 0.15 only when below 100; there is no clamp |
| `Dynamics.FuelBandPreserved` | app.py:217-218 | fuel strictly between −0.7 and 100.15 stays strictly between them after any tick |
| `Dynamics.VelocityRule` | app.py:211-216 | vel' = vel + angle·g + wind − (W ? lp : 0) + (S ? lp : 0), with g = grav + score/50000 (×0.6 when boosting) and lp = lean (×1.5 when boosting); angle' = angle + vel' |
| `Dynamics.OpposedKeysCancel` | main.py:102-103 | holding W and S together gives the same tick as holding neither |
| `Dynamics.MirrorSymmetry` | main.py:99-104 | mirror the angle, the velocity and the wind and swap W with S: the tick is the mirror image, with the same fuel and boost flag |
| `Dynamics.Equilibrium` | main.py:99-104 | upright and at rest, with no wind and no keys, a tick leaves angle and velocity exactly 0 for any bike and score |
| `Dynamics.TiltScenario` | app.py:152 | the Agile Scout at angle 10, at rest, score 0, no wind, no keys: velocity becomes 0.012 and the angle 10.012 |
| `Dynamics.TiltGrows` | main.py:101 | a bike at rest leaning right, with no keys and no wind, leans further right after the tick (gravity feeds the tilt) |
| `Dynamics.BoostStreakCost` | main.py:98-105 | a streak of n boosting ticks needs more than 0.7·(n−1) fuel at its start |
| `Dynamics.FullTankBoostLimit` | main.py:94-105 | starting with at most 100.1 fuel (regeneration can overshoot 100), at most 143 ticks in a row can boost; from any fuel in the band, at most 144 |
| `Dynamics.BoostStreakReached` | main.py:98-105 | with SPACE held throughout, more than 0.7·(n−1) fuel at the start makes all n ticks boost (the converse of `BoostStreakCost`) |
| `Dynamics.FullTankBoosts143` | main.py:94-105 | from a full tank with SPACE held, all of 143 ticks boost, so the bound of `FullTankBoostLimit` is reached |
| `Dynamics.BoostComesBack` | main.py:98-106 | with SPACE held, fuel −0.1 gives a tick without boost that ends at 0.05, and the next tick boosts again |
| `Config.BikeConfigsPositive` | main.py:39-43 | every bike in BIKE_CONFIGS has positive gravity, lean and speed |
| `Config.ThemeKeys` | main.py:173-174 | the upper case of a typed text is a theme key exactly when it is k, l or g in either case |
| `Config.SelectionAndThemeDisjoint` | main.py:168-174 | no bike-selection key is also a theme key |
| `Flow.Game.constructor` | main.py:116-133 | a new game is in MENU with score 0, theme K, no bike, calm weather, and the high score `load_record` gives: the stored number, or 0 without a file |
| `Flow.Game.HandleEvent` | main.py:163-177 | one event leaves exactly the session `Flow.EventStep` gives; the bike is either kept or a freshly built one |
| `Flow.Game.UpdatePlaying` | main.py:189-205 | one playing update leaves exactly the session `Flow.PlayStep` gives, and the invariant holds afterwards |
| `Flow.Game.Frame` | main.py:159-187 | one main-loop iteration gives exactly the session and quit flag of `Flow.FrameStep` |
| `Flow.Game.Run` | main.py:158-187 | the main loop over a sequence of frames gives the result of `Flow.RunFrames`, and the high score does not go down |
| `Flow.Poll` | main.py:163-177 | a frame's events never change the weather, the high score or the record file, and they keep the invariant (a bike exists while playing; the high score equals what the record reads back) |
| `Flow.FrameStep` | main.py:179-182 | a frame keeps the invariant and never lowers the high score |
| `Flow.RunFrames` | main.py:158-187 | any run of frames keeps the invariant |
| `FlowProperties.SelectionStartsSession` | app.py:280-283 | in MENU a BIKE_CONFIGS key starts PLAYING with score 0 and a fresh upright bike of that configuration; nothing else changes, the weather included |
| `FlowProperties.ThemeKeyChangesOnlyTheme` | app.py:285-286 | in MENU k/l/g in either case change the theme to the upper-case letter, and nothing else |
| `FlowProperties.MenuLeavesOnlyBySelection` | app.py:278-286 | MENU goes to PLAYING exactly on a BIKE_CONFIGS key, and never to GAMEOVER; any other event changes at most the theme |
| `FlowProperties.GameOverOnlyRetry` | app.py:288-289 | in GAMEOVER the R key returns to MENU and changes nothing else; any other event changes nothing |
| `FlowProperties.PlayingIgnoresEvents` | main.py:166-177 | while PLAYING, events (selection and theme keys included) change nothing |
| `FlowProperties.PollWhilePlaying` | main.py:163-177 | while PLAYING, a whole frame's events change nothing |
| `FlowProperties.PollNeverEntersGameOver` | main.py:163-177 | events alone never lead to GAMEOVER; only a crash does |
| `FlowProperties.PollStartsFresh` | main.py:168-171 | when a frame's events start play, the session has score 0 and an upright bike (angle 0, velocity 0, fuel 100) with a BIKE_CONFIGS configuration |
| `FlowProperties.PollGameOverFrozen` | main.py:176-177 | in GAMEOVER, events without R change nothing |
| `FlowProperties.GameOverFrozen` | main.py:179-184 | in GAMEOVER, a frame without R changes nothing at all: no physics, no wind, no score |
| `FlowProperties.PlayTickRules` | app.py:301-317 | a playing tick: the score gains 2 when boosting, else 1, before the crash check; the state becomes GAMEOVER exactly when the new angle satisfies abs(angle) > 90; only then can the high score change, to max(old, score including this tick); the record is written only on strict improvement, with that score |
| `FlowProperties.PhysicsOnlyWhilePlaying` | main.py:179-182 | the wind advances exactly in frames whose events leave the game on PLAYING, the crashing frame included; in any other frame the result is the events' result and the wind is untouched |
| `FlowProperties.HighScoreNeverDecreases` | app.py:313-317 | over any run of frames, the high score never decreases |
| `FlowProperties.RecordReadsBackBest` | main.py:201-205 | after any run, a new game reading the record file starts with that run's high score |
| `FlowProperties.InitialSane` | main.py:121-124 | a new game has the wind in range and the record in step with the high score |
| `FlowProperties.FrameSane` | main.py:189-192 | if the draw is in range, a frame keeps the wind within ±0.012 and the fuel within (−0.7, 100.15) |
| `FlowProperties.RunStaysSane` | main.py:158-192 | over any run of frames with in-range draws, the wind stays within ±0.012 and every bike's fuel within (−0.7, 100.15) |
| `HtmlVersion.Game.constructor` | html-version/game.js:34-45 | a new game has score 0, nitro 100, level intensity 0, no wind, no configuration, and no state yet |
| `HtmlVersion.Game.Start` | html-version/game.js:139-157 | `start` sets angle 0, velocity 0, score 0, nitro 100, the chosen BIKES entry and PLAYING, and then runs exactly one `loop` |
| `HtmlVersion.Game.Loop` | html-version/game.js:159-209 | one `loop` leaves exactly the state `HtmlVersion.LoopStep` gives |
| `HtmlVersion.Game.EndGame` | html-version/game.js:255-256 | `endGame` sets GAMEOVER and changes nothing else; the game stays well-formed |
| `HtmlVersion.LoopStep` | html-version/game.js:160-208 | a `loop` keeps the invariant: a BIKES configuration is present while playing |
| `HtmlVersion.Frames` | html-version/game.js:207-208 | any chain of frames keeps that invariant |
| `HtmlProperties.StartFirstTick` | html-version/game.js:139-170 | the `loop` that `start` runs sees a bike at rest: level intensity 0, score equal to the bike's speed, nitro 99.4 when SPACE is held and 100 otherwise, a re-roll only when the coin is below 0.005, and wind carried over from the previous session |
| `HtmlProperties.NothingMovesAfterEnd` | html-version/game.js:160-207 | once the state is not PLAYING, any number of further frames changes nothing |
| `HtmlProperties.CrashExactly` | html-version/game.js:207 | a playing tick ends in GAMEOVER exactly when the new abs(angle) > 1.55, and otherwise stays PLAYING |
| `HtmlProperties.ControlValues` | html-version/game.js:173-175 | the steering term is −lean, 0 or +lean: +lean whenever S or s is held, −lean when only W or w is held, 0 when neither is |
| `HtmlProperties.NitroRule` | html-version/game.js:172-194 | nitro drops 0.6 exactly when SPACE is held and nitro > 0; otherwise it rises 0.15 only if below 100 |
| `HtmlProperties.NitroBandPreserved` | html-version/game.js:180-194 | nitro strictly between −0.6 and 100.15 stays there after any `loop` |
| `HtmlProperties.NitroBandForever` | html-version/game.js:192-194 | over any chain of frames nitro stays strictly between −0.6 and 100.15 |
| `HtmlProperties.NitroComesBack` | html-version/game.js:172-194 | with SPACE held and nitro −0.2, nitro goes to −0.05, then 0.1, then boosts again (drains 0.6) on the third tick, while the bike has not fallen |
| `HtmlProperties.NitroStreakCost` | html-version/game.js:172-194 | a streak of n boosting ticks needs more than 0.6·(n−1) nitro at its start |
| `HtmlProperties.NitroStreakReached` | html-version/game.js:172-194 | with SPACE held throughout, more than 0.6·(n−1) nitro at the start makes all n ticks boost |
| `HtmlProperties.NitroStreakLimit` | html-version/game.js:172-194 | from any nitro in the band at most 167 ticks in a row can boost, and from a full tank with SPACE held all 167 do |
| `HtmlProperties.VelocityRule` | html-version/game.js:177-197 | vel' = (vel + control + angle·0.0055·grav + wind') · (boosting ? 0.85 : 1) · 0.95, with wind' the smoothed wind; angle' = angle + vel' |
| `HtmlProperties.CalmDecay` | html-version/game.js:196-197 | upright in calm air with no keys, the velocity is multiplied by 0.95, so any motion shrinks |
| `HtmlProperties.ScoreGrowth` | html-version/game.js:163-200 | the level intensity is 20·abs(vel), from the velocity before the update; the score grows by speed + intensity, so it strictly increases every playing tick |
| `HtmlProperties.ScoreNeverDecreases` | html-version/game.js:200 | over any chain of frames the score never decreases |
| `HtmlProperties.WindRule` | html-version/game.js:166-170 | a re-rolled target is at most (0.035 + intensity/50)/2 in size; otherwise the target is kept; the force moves 2% of the way to the target and never exceeds the larger of its old size and the target's |
| `HtmlProperties.MirrorSymmetry` | html-version/game.js:173-197 | without W and S held together, mirroring the bike and the wind, swapping the two sides and mirroring the gust draw gives the mirror image of the tick |
| `HtmlProperties.BothSidesSteerForward` | html-version/game.js:174-175 | with W and S held together, S wins, so the mirrored keys steer the same way: the symmetry above fails |

## Left out

- Drawing is not modelled. This covers `draw_menu`, `draw_hud` (the displayed distance
  score // 10), `draw_gameover`, `Bike.draw`, `WeatherSystem.draw` and the canvas `draw`
  of game.js. It is presentation only.
- The rain drops of `WeatherSystem.update` are not modelled. They use random integers and
  screen geometry only, and never feed back into the physics.
- The cosmetic state of game.js is not modelled: wind streaks, particles, shake,
  suspension (`Date.now`) and `bike.y`.
- Asset loading (`load_scaled` with its fallback surface), `resource_path`, the garage
  thumbnails (`menu_bikes`) and the colour and image fields of both bike tables are not
  modelled. They are pygame, PyInstaller or DOM wrappers and do not affect physics.
- Pickle I/O is not modelled. Reading is a constructor parameter (the file's content, or
  none). Writing is the ghost field `record`. The parameter assumes a readable file: if
  `record.pkl` exists but is empty or corrupt, `pickle.load` raises out of `Game.__init__`
  (main.py:130-132) and the game stops at start; the model does not capture that abort.
- Event-loop plumbing is not modelled: pygame polling, `clock.tick`, `display.flip`,
  `requestAnimationFrame`, DOM class changes, `setupMenu`, the key listeners that fill
  `keys`, and all audio (`initAudio`, `toggleMusic`, `updateAudio`, `handleAudioUpload`).
  These are I/O. QUIT is modelled as stopping event processing and reporting `quit`;
  `sys.exit` itself is not modelled.
- Flow.Game.Run: models the `while True` loop over a finite sequence of frames, because an
  endless loop has no final state to state anything about.
- Random number generation is not modelled: each draw is a parameter. The lemmas assume
  what the generators guarantee (±0.012 for `random.uniform`, [0, 1) for `Math.random`).
- IEEE-754 rounding is not modelled: all quantities are exact reals. The bounds and
  equalities proved (for example 10.012, or at most 143 boosting ticks) hold in exact
  arithmetic, not for float-exact tick counts.
- Config.Upper: models `str.upper` on ASCII letters only. No other character upper-cases to
  K, L or G, so theme selection is unaffected.
- A second `start` during play would start a second chain of `loop` calls in the browser.
  This is not modelled. The garage is hidden during play, so the page never does it.
- HtmlVersion.Game.constructor: the browser game has no `bike` before `start`. The model
  gives angle and velocity the value 0 there; `loop` does not read them before `start`.
- The commented-out prototype in app.py lines 1–128 is not live code and is not modelled.
