# Color Match Rush game engine in Dafny

This project models the game-session engine of Color Match Rush: the class
`ColorMatchGame` in `src/lib/gameEngine.ts` and the records it works on, which are
declared in `src/lib/gameTypes.ts`. In the game, coloured orbs fall from the top of
the canvas. The player taps an orb while one of two spinning colour wheels nearby
shows the orb's colour on its active segment. A match scores points that grow with the
combo. A tap that misses resets the combo. An orb that falls off the screen or expires
costs a life. The score raises the level, and each level speeds the wheels up. Four
achievements unlock on combo, level and score thresholds.

The project has six modules:

- `GameTypes` (`game_types.dfy`): the records and enums as datatypes, the configuration
  constants, the literals written inline in the engine, the achievement catalogue and the
  two initial wheels.
- `Scoring` (`scoring.dfy`): the two pure computations. These are the points of a match,
  computed exactly as `(10 * 6^k) / 5^k` and proved equal to `floor(10 * 1.2^k)` over exact
  reals, and the active wheel segment, with JavaScript's truncating `%` written out.
- `Entities` (`entities.dfy`): per-entity rules. These cover one tick of motion for an orb,
  a power-up and a particle; the `filter` tests; the new orb, power-up and effect bursts;
  and the two searches of tap resolution, with the tap distance compared on squared
  distances.
- `EngineSpec` (`engine_spec.dfy`): the whole engine state as a value `World`, with one
  function per engine method giving the state that method leaves behind.
- `EngineProperties` (`engine_properties.dfy`): what the game promises, as lemmas about
  those functions. It covers the pause toggle, the frame clamp, the cap of 8 orbs, the
  miss cascade with its repeated game overs, level progression, the achievement flags, the
  high score, and the effect of a tap.
- `Engine` (`engine.dfy`): the class `ColorMatchGame` itself. Its fields are updated in
  place, and its `forEach`, `for` and `for...of` loops are `while` loops with invariants.
  Every method is proved to leave `Model() == XSpec(old(Model()), …)`. Every public
  entry point also keeps the invariant `Valid()`; `GameOver`, which the miss cascade calls
  while orbs are still being removed, keeps it whenever it held before.

Some of the environment is replaced by plain values:

- **Events.** Emitted events are appended to the `events` trace and are not handed to
  listeners.
- **Stored high score.** The value kept in local storage is the field `storedHighScore`.
  The constructor takes the loaded value as a parameter.
- **Pending animation frame.** The source's `animationFrameId` is the flag `loopRunning`.
- **Clock.** `Date.now()` values are passed in as the parameter `now`, and animation-frame
  timestamps as `timestamp`.
- **Randomness.** Each `Math.random()` outcome is a field of a `Rolls` parameter whose values
  lie in `[0, 1)`.

Three behaviours of the code are easy to misread:

- **Lives.** The heads-up display draws `Math.max(stats.lives, 0)` hearts
  (`src/components/Game/GameHUD.tsx:57`), so lives never appear below zero. The engine decrements
  lives once per lost orb without a floor, and calls `gameOver` after every decrement that
  leaves lives at 0 or below. So lives can become negative, and GAME_OVER can be emitted
  several times in one tick (`EngineProperties.SeveralGameOversInOneTick`).
- **Starting a game.** `startGame` empties the orbs, power-ups and particles. On the first
  start, though, no animation frame is pending yet, so it runs one frame at timestamp 0.
  That frame has a delta of zero but still runs the spawn step. The model therefore allows
  that first start to leave one orb and one power-up.
- **Tap routing.** A tap in the menu or on the game-over screen starts a game. A tap while
  paused does nothing.

## Model

| member | source | states |
|---|---|---|
| GameTypes.Catalog | src/lib/gameEngine.ts:84-92 | the catalogue has five achievements, all locked |
| GameTypes.InitialWheels | src/lib/gameEngine.ts:94-116 | two wheels of four colours each, unturned, spinning at +1.5 and −1.5 rad/s |
| Scoring.Points | src/lib/gameEngine.ts:400-405 | a match is worth at least the 10 base points |
| Scoring.PointsIsFloor | src/lib/gameEngine.ts:402-405 | the integer points equal floor(10 · 1.2^(combo−1)) computed over exact reals |
| Scoring.PointsFirstFive | src/lib/gameEngine.ts:402-405 | the first five hits of a combo score 10, 12, 14, 17 and 20 |
| Scoring.PointsIncrease | src/lib/gameEngine.ts:402-405 | each further hit in a combo scores at least 2 more points than the one before |
| Scoring.JsRemBounds | src/lib/gameEngine.ts:395 | the JavaScript remainder lies strictly between −b and b, and is non-negative for a non-negative dividend |
| Scoring.NormalizedBounds | src/lib/gameEngine.ts:395 | the normalised rotation ((r % 2π) + 2π) % 2π lies in [0, 2π) for every rotation, including negative ones |
| Scoring.SegmentAt | src/lib/gameEngine.ts:394-398 | the segment index lies in [0, segments) for any positive period |
| Scoring.CurrentSegment | src/lib/gameEngine.ts:394-398 | getCurrentWheelSegment returns a valid segment index, so the colour lookup is in bounds |
| Scoring.SegmentFullTurn | src/lib/gameEngine.ts:395-397 | adding one full turn to a non-negative rotation leaves the active segment unchanged |
| Entities.FilterSound | src/lib/gameEngine.ts:320-322 | a filter keeps exactly the elements that pass, drops only failing ones, and adds nothing |
| Entities.FilterSplit | src/lib/gameEngine.ts:305-322 | two complementary filters split a sequence: lengths and multisets add up to the original |
| Entities.OrbsPartition | src/lib/gameEngine.ts:305-322 | the orbs removed and the orbs kept in one tick partition the moved orbs, and no kept orb is off-screen or expired |
| Entities.NewOrb | src/lib/gameEngine.ts:258-271 | a spawned orb has a palette colour, lies 30 px inside the canvas edges, and has the full 5000 ms lifetime |
| Entities.PickIndex | src/lib/gameEngine.ts:267 | floor(random · n) is a valid index |
| Entities.SpawnX | src/lib/gameEngine.ts:263 | the spawn x lies within the margins of a canvas wide enough for them |
| Entities.NewPowerUp | src/lib/gameEngine.ts:276-291 | a spawned power-up is inactive with full duration, and its type is one of the four kinds |
| Entities.SpeedUpScales | src/lib/gameEngine.ts:473-475 | a level-up multiplies every wheel's speed by exactly 1.1, keeps its sign, and changes nothing else |
| Entities.SpeedUpCompounds | src/lib/gameEngine.ts:466-477 | after n level-ups every wheel spins 1.1^n times as fast |
| Entities.PickOrbSpec | src/lib/gameEngine.ts:358-371 | the tap selects the highest-index orb within radius + 10, and selects nothing exactly when no orb is in range |
| Entities.MatchWheelSpec | src/lib/gameEngine.ts:373-392 | the match is the first wheel in order that is within radius + 50 and shows the orb's colour; there is none exactly when no wheel qualifies |
| Entities.RemoveByIdExact | src/lib/gameEngine.ts:412 | when orb ids are distinct, filtering out one orb's id removes exactly that orb and keeps the order of the rest |
| EngineSpec.Initial | src/lib/gameEngine.ts:37-82 | a new engine is in MENU with no orbs and no events, satisfies the invariant, and holds the five catalogue achievements in catalogue order |
| EngineSpec.FindAchievement | src/lib/gameEngine.ts:500 | `find` returns the first achievement with that id, and nothing exactly when none has it |
| EngineProperties.ExtendsCompose | src/lib/gameEngine.ts:715-717 | events are only ever appended: the events of two steps are the concatenation of each step's events |
| EngineProperties.PauseToggles | src/lib/gameEngine.ts:194-200 | pause swaps PLAYING and PAUSED, does nothing in MENU or GAME_OVER, changes no other field, and two pauses cancel out |
| EngineProperties.PauseKeepsInv | src/lib/gameEngine.ts:194-200 | pausing keeps the invariant |
| EngineProperties.GameOverRecords | src/lib/gameEngine.ts:202-209 | gameOver enters GAME_OVER, sets the high score to max(high score, score), stores the score only if it was beaten, and emits GAME_OVER with the final score |
| EngineProperties.LoopClamps | src/lib/gameEngine.ts:211-224 | a frame never integrates more than 1/30 s, records the timestamp, requests the next frame, and changes nothing else when not PLAYING |
| EngineProperties.LoopKeepsInv | src/lib/gameEngine.ts:211-224 | a frame keeps the invariant, including the cap of 8 orbs |
| EngineProperties.LoopKeepsCatalogue | src/lib/gameEngine.ts:211-224 | a frame keeps the five catalogue achievements in catalogue order |
| EngineProperties.SpawnEffect | src/lib/gameEngine.ts:229-240 | the spawn step adds one orb exactly when the orb gate is open, which requires fewer than 8 orbs, and one inactive power-up exactly when the power-up gate is open; each spawn timer moves to now exactly when its gate opened; existing entities and other fields are kept |
| EngineProperties.FirstSpawn | src/lib/gameEngine.ts:229-240 | spawning into an empty field puts at most one orb and one power-up at the spawn height with full lifetimes |
| EngineProperties.MissOneEffect | src/lib/gameEngine.ts:309-318 | one lost orb costs one life, resets the combo, adds four miss particles and ORB_MISSED, and calls gameOver exactly when lives reach 0 or below |
| EngineProperties.CascadeCounters | src/lib/gameEngine.ts:309-318 | losing n orbs costs exactly n lives, resets the combo if n > 0, and leaves score, achievements and orbs alone |
| EngineProperties.CascadeParticles | src/lib/gameEngine.ts:309-318 | losing n orbs appends 4·n miss particles after the existing ones |
| EngineProperties.OversClosedForm | src/lib/gameEngine.ts:315-317 | the number of gameOver calls in a cascade is 0 while lives stay positive, and one per lost orb from the one that brings lives to 0 onward |
| EngineProperties.CascadeEvents | src/lib/gameEngine.ts:309-318 | a cascade appends one ORB_MISSED per lost orb and one GAME_OVER per decrement that leaves lives at 0 or below |
| EngineProperties.CascadeOutcome | src/lib/gameEngine.ts:309-318 | a cascade ends in GAME_OVER exactly when lives reach 0 or below, and the high score then becomes max(high score, score) |
| EngineProperties.SeveralGameOversInOneTick | src/lib/gameEngine.ts:309-318 | with one life left, three orbs lost in one tick leave lives at −2 and emit GAME_OVER three times |
| EngineProperties.UpdateOrbsRemoves | src/lib/gameEngine.ts:293-323 | updateOrbs keeps exactly the moved orbs still on screen and alive; lives fall by the number removed, and the combo resets if any orb was removed |
| EngineProperties.UpdateOrbsTrace | src/lib/gameEngine.ts:293-323 | updateOrbs emits one ORB_MISSED per removed orb and ends the game when lives reach 0 or below, recording the higher score |
| EngineProperties.ZeroOrbStep | src/lib/gameEngine.ts:293-323 | with zero elapsed time, no freshly spawned orb is removed |
| EngineProperties.EntityUpdatesFrame | src/lib/gameEngine.ts:325-356 | wheels turn by speed · dt and keep their shape, no power-up is added, every remaining particle has lifetime left, and nothing outside wheels, power-ups and particles changes |
| EngineProperties.PowerUpsSurvive | src/lib/gameEngine.ts:331-345 | the power-ups left are moved originals, each at most as often as it occurs: exactly those still on screen if inactive or with duration left if active |
| EngineProperties.ParticlesSurvive | src/lib/gameEngine.ts:347-356 | the particles left are moved originals, each at most as often as it occurs: exactly those with lifetime left |
| EngineProperties.ZeroEntityStep | src/lib/gameEngine.ts:325-356 | with zero elapsed time, no freshly spawned power-up leaves and the wheel speeds stay |
| EngineProperties.LevelEffect | src/lib/gameEngine.ts:466-477 | the level rises by at most one, exactly when score ≥ level · 200, and then LEVEL_UP is emitted and every wheel speed is multiplied by 1.1 |
| EngineProperties.UpdateKeepsWellformed | src/lib/gameEngine.ts:226-256 | a tick keeps the state well formed, in particular at most 8 orbs, and leaves the clock fields alone |
| EngineProperties.UpdateProgress | src/lib/gameEngine.ts:226-256 | a tick keeps score and achievements, never adds lives, raises the level by at most one and then speeds the wheels up by 1.1, never lowers the high score, and only appends events |
| EngineProperties.UpdateClock | src/lib/gameEngine.ts:226-256 | a tick does not touch the frame clock or the pending-frame flag |
| EngineProperties.FirstFrame | src/lib/gameEngine.ts:226-256 | a zero-length tick right after a reset spawns at most one orb and one power-up and changes no stats, events or wheel speeds |
| EngineProperties.StartGameResets | src/lib/gameEngine.ts:177-192 | startGame enters PLAYING with score 0, lives 3, level 1 and combo 0; it keeps the high score, achievements and wheel speeds; with a frame pending it empties the orbs and power-ups, and on the first start it leaves at most one of each |
| EngineProperties.InputIgnoredWhilePaused | src/lib/gameEngine.ts:154-161 | pointer input while PAUSED changes nothing |
| EngineProperties.HandleInputKeepsInv | src/lib/gameEngine.ts:154-161 | pointer input keeps the invariant, so never more than 8 orbs are live |
| EngineProperties.InputKeepsCatalogue | src/lib/gameEngine.ts:154-161 | pointer input keeps the five catalogue achievements in catalogue order |
| EngineProperties.TapNoOrb | src/lib/gameEngine.ts:358-371 | a tap that touches no orb changes nothing |
| EngineProperties.PickOrbUnique | src/lib/gameEngine.ts:358-371 | the touched orb with no touched orb above it is the one selected |
| EngineProperties.MatchWheelFirst | src/lib/gameEngine.ts:373-392 | the matching wheel with no matching wheel before it is the one used |
| EngineProperties.TapMiss | src/lib/gameEngine.ts:418-425 | a tap on an orb no wheel matches resets the combo, keeps lives, score and achievements, removes that orb by id (exactly that orb when ids are distinct), and emits ORB_MISSED |
| EngineProperties.TapMatch | src/lib/gameEngine.ts:373-392 | a tap on an orb that wheel k matches first has exactly the successful-match effect for that orb and wheel |
| EngineProperties.TapMatchEffect | src/lib/gameEngine.ts:400-416 | a matched tap removes exactly that orb, adds one to the combo and Points(combo) to the score, keeps lives, and first emits ORB_MATCHED with those points |
| EngineProperties.ScoreMatchEffect | src/lib/gameEngine.ts:400-413 | scoring a match adds one to the combo and Points(new combo) to the score, removes the orb by id, adds eight explosion particles and exactly one ORB_MATCHED carrying the points |
| EngineProperties.SuccessEffect | src/lib/gameEngine.ts:400-416 | a successful match scores as above, then only sets achievement flags and emits ACHIEVEMENT_UNLOCKED; on the catalogue it always leaves first_match unlocked; lives, level, state, wheels and high score stay |
| EngineProperties.TapEffect | src/lib/gameEngine.ts:358-425 | tap resolution never costs a life, never lowers score or level, never re-locks an achievement, never adds orbs, and keeps the state well formed |
| EngineProperties.TapClock | src/lib/gameEngine.ts:358-425 | tap resolution leaves the clock fields alone |
| EngineProperties.FlipsCompose | src/lib/gameEngine.ts:479-505 | the flags set by two achievement steps add up, and neither re-locks anything |
| EngineProperties.UnlockStepCompose | src/lib/gameEngine.ts:479-497 | two achievement steps together are again an achievement step |
| EngineProperties.UnlockEffect | src/lib/gameEngine.ts:499-505 | unlockAchievement sets at most one flag from false to true; when the first entry with the id is locked, that entry becomes unlocked and exactly one ACHIEVEMENT_UNLOCKED with it is emitted; when none has the id or it is already unlocked, nothing changes |
| EngineProperties.CheckUnlockEffect | src/lib/gameEngine.ts:482-496 | each guarded unlock in checkAchievements is an achievement step |
| EngineProperties.AchievementsEffect | src/lib/gameEngine.ts:479-497 | checkAchievements only sets flags from false to true, emits one ACHIEVEMENT_UNLOCKED per flag set and no other event, and changes nothing outside the achievements |
| EngineProperties.NoRelockKeepsIds | src/lib/gameEngine.ts:499-505 | an achievement step moves no id, so the catalogue order survives it |
| EngineProperties.CataloguedFinds | src/lib/gameEngine.ts:500 | on the catalogue, `find` locates each of the five ids at its catalogue position |
| EngineProperties.CataloguedFlags | src/lib/gameEngine.ts:500-501 | on the catalogue, whether an id is unlocked is the flag at its catalogue position |
| EngineProperties.CheckUnlockAt | src/lib/gameEngine.ts:482-505 | a guarded unlock of the entry found at k leaves it unlocked exactly when it was or the condition held, and keeps every other entry, every id, combo, level and score |
| EngineProperties.FirstTwoUnlocks | src/lib/gameEngine.ts:482-488 | the first_match and combo_5 unlocks set flags 0 and 1 exactly on their combo thresholds and leave the other flags, and the catalogue order, alone |
| EngineProperties.LastTwoUnlocks | src/lib/gameEngine.ts:490-496 | the level_5 and score_1000 unlocks set flags 2 and 3 exactly on their level and score thresholds and leave the other flags, and the catalogue order, alone |
| EngineProperties.AchievementsUnlockAt | src/lib/gameEngine.ts:479-497 | checkAchievements on the catalogue, by position: each of the four flags ends up set exactly when it was or its threshold is met; perfect_game keeps its flag |
| EngineProperties.AchievementsUnlocks | src/lib/gameEngine.ts:479-497 | checkAchievements unlocks first_match exactly when it was or combo ≥ 1, combo_5 when combo ≥ 5, level_5 when level ≥ 5, score_1000 when score ≥ 1000, and never changes perfect_game |
| EngineProperties.MatchUnlocks | src/lib/gameEngine.ts:400-416 | a successful match always unlocks first_match, unlocks combo_5 once the new combo reaches 5, level_5 exactly as the level allows, score_1000 once the new score reaches 1000, and never perfect_game |
| Engine.ColorMatchGame.constructor | src/lib/gameEngine.ts:37-82 | a new engine holds the initial state and satisfies the invariant |
| Engine.ColorMatchGame.EmitEvent | src/lib/gameEngine.ts:715-717 | the event is appended to the trace and nothing else changes |
| Engine.ColorMatchGame.StartGame | src/lib/gameEngine.ts:177-192 | the new state is the reset, followed by one frame at timestamp 0 when none is pending; the invariant is kept |
| Engine.ColorMatchGame.PauseGame | src/lib/gameEngine.ts:194-200 | the new state is the pause toggle of the old one; the invariant is kept |
| Engine.ColorMatchGame.GameOver | src/lib/gameEngine.ts:202-209 | the new state is the game-over state, recording the high score and emitting GAME_OVER; the invariant is kept when it held before |
| Engine.ColorMatchGame.GameLoop | src/lib/gameEngine.ts:211-224 | the new state is one frame of the loop: clamped delta, an update only while PLAYING, and the next frame requested; the invariant is kept |
| Engine.ColorMatchGame.HandleInput | src/lib/gameEngine.ts:154-161 | input resolves a tap while PLAYING, starts a game from MENU or GAME_OVER, and is ignored while PAUSED; the invariant is kept |
| Engine.ColorMatchGame.Update | src/lib/gameEngine.ts:226-256 | the new state is one tick: spawning, orbs, wheels, power-ups, particles and the level check, in source order |
| Engine.ColorMatchGame.SpawnOrb | src/lib/gameEngine.ts:258-274 | exactly one new orb is appended |
| Engine.ColorMatchGame.SpawnPowerUp | src/lib/gameEngine.ts:276-291 | exactly one new power-up is appended |
| Engine.ColorMatchGame.UpdateOrbs | src/lib/gameEngine.ts:293-323 | the orbs are moved, each lost orb runs the miss cascade in order, and only orbs still on screen and alive stay |
| Engine.ColorMatchGame.MoveOrbs | src/lib/gameEngine.ts:294-302 | every orb, and nothing else, takes one step of gravity capped at 500, motion and ageing |
| Engine.ColorMatchGame.UpdateWheels | src/lib/gameEngine.ts:325-329 | every wheel turns by its speed times delta, and nothing else changes |
| Engine.ColorMatchGame.UpdatePowerUps | src/lib/gameEngine.ts:331-345 | power-ups fall or count down, and only those on screen or still active stay |
| Engine.ColorMatchGame.MovePowerUps | src/lib/gameEngine.ts:332-338 | every inactive power-up falls at 100 px/s, every active one loses dt · 1000 ms, and nothing else changes |
| Engine.ColorMatchGame.UpdateParticles | src/lib/gameEngine.ts:347-356 | particles move, age and shrink, and only live ones stay |
| Engine.ColorMatchGame.MoveParticles | src/lib/gameEngine.ts:348-353 | every particle moves, ages and shrinks by 0.98, and nothing else changes |
| Engine.ColorMatchGame.CheckLevelProgression | src/lib/gameEngine.ts:466-477 | the new state is the level check: one level up, LEVEL_UP and 1.1× wheel speed when the score has reached level · 200 |
| Engine.ColorMatchGame.CreateMatchEffect | src/lib/gameEngine.ts:427-445 | exactly the eight explosion particles, with lifetime 500 and size 8, are appended |
| Engine.ColorMatchGame.CreateMissEffect | src/lib/gameEngine.ts:447-464 | exactly the four miss particles, with lifetime 300 and size 6, are appended |
| Engine.ColorMatchGame.CheckOrbTap | src/lib/gameEngine.ts:358-371 | the reverse scan leaves the tap-resolution state: nothing when no orb is touched, otherwise the match or miss of the highest-index touched orb |
| Engine.ColorMatchGame.CheckOrbWheelMatch | src/lib/gameEngine.ts:373-392 | the forward wheel scan ends in the successful match of the first qualifying wheel, or in a missed match when there is none |
| Engine.ColorMatchGame.HandleSuccessfulMatch | src/lib/gameEngine.ts:400-416 | the new state is the successful match: scoring, burst, ORB_MATCHED, removal by id, then the achievement check |
| Engine.ColorMatchGame.HandleMissedMatch | src/lib/gameEngine.ts:418-425 | the combo resets, the miss burst and ORB_MISSED are added, and the orb is removed by id; lives are untouched |
| Engine.ColorMatchGame.CheckAchievements | src/lib/gameEngine.ts:479-497 | the four guarded unlocks run in source order |
| Engine.ColorMatchGame.UnlockAchievement | src/lib/gameEngine.ts:499-505 | the first achievement with the id is unlocked and announced if it was locked; otherwise nothing changes |

## Left out

- Rendering (`render` and the `render*` helpers, `getPowerUpIcon`, lines 507-701): drawing only, with no effect on the state.
- DOM plumbing: `setupEventListeners`, `handleTouch`, `handleMouse`, `handleKeyDown`/`handleKeyUp`, the key set and `destroy` (lines 118-175, 738-757) are browser wiring. The model keeps the calls they make: `handleInput`, `startGame` and `pauseGame`. Because `destroy` is left out, `loopRunning` never becomes false again once set.
- Mouse moves: the source also reaches `handleInput` on `mousemove`. The model does not distinguish pointer event kinds; every input is one `HandleInput` call.
- Animation frames: `requestAnimationFrame` and `cancelAnimationFrame` are reduced to the flag `loopRunning`. Later frames are further `GameLoop` calls made by the environment.
- Clock: `Date.now()` becomes the parameter `now`. Orb ids, power-up ids and particle ids are built from that value and the rolls, not from formatted strings.
- Randomness: `Math.random()` outcomes are supplied as `Rolls`. Nothing about their distribution is modelled.
- Effect-particle velocities: the `cos`/`sin` directions of the explosion burst and the random velocities of the miss burst are modelled as zero. Counts, positions, colours, sizes and lifetimes are modelled exactly.
- Floating point: all numbers are exact reals or integers. `Math.sqrt` is replaced by a squared-distance comparison, which agrees for non-negative bounds. `Math.PI * 2` is the positive constant `TwoPi`, and the segment lemmas hold for any positive period. IEEE rounding of `Math.pow(1.2, k)` and of the other double operations is not modelled.
- Persistence: `localStorage` in `loadHighScore` and `saveHighScore` (lines 720-735) becomes the loaded value passed to the constructor and the field `storedHighScore`. Storage errors are not modelled.
- Listeners: `addEventListener`, `removeEventListener` and the listener array (lines 704-717) become the appended `events` trace.
- Object identity: events carry snapshot values, not live references. In the source an emitted orb, wheel or achievement object can change after emission; the model does not capture that aliasing.
- Power-ups: pickup, activation and POWER_UP_COLLECTED do not exist in the code, so the model has none of them. The `PowerUpCollected` event case is declared but never emitted.
- `perfect_game`: the catalogue holds it, but nothing in the code unlocks it, so nothing in the model does.
- `GameConfig.scoring.timeBonus` and `comboMultiplier`: `timeBonus` is never read. `comboMultiplier` appears only inside `Points` as the exact ratio 6/5.
- Filters and `find`: the source's `Array.prototype.filter` and `find` are modelled as the pure functions `Filter` and `FindAchievement` rather than as loops, because they are library builtins in the source.
- Entities.RemoveByIdExact, EngineProperties.TapMiss, EngineProperties.TapMatchEffect: the source removes an orb by id. The claim that exactly that one orb disappears is proved only when orb ids are distinct. Ids built from the clock and a random number are distinct in practice, but the model does not assume so elsewhere. Without that assumption, the general contract is removal of every orb with that id.
