/**
 * The state of one ColorMatchGame (src/lib/gameEngine.ts) as a value, and one
 * function per engine method giving the state that method leaves behind. The
 * class in engine.dfy is proved to follow these functions; the lemmas below state
 * what the game promises about them.
 *
 * Emitted events are appended to `events` instead of being handed to listeners;
 * `storedHighScore` is the persisted high-score slot; `loopRunning` records whether
 * an animation frame is pending (the source's `animationFrameId`).
 */
module EngineSpec {
  import opened GameTypes
  import opened Scoring
  import opened Entities

  datatype World = World(
    width: real,
    height: real,
    state: GameState,
    stats: GameStats,
    orbs: seq<GameOrb>,
    wheels: seq<ColorWheel>,
    powerUps: seq<PowerUp>,
    particles: seq<ParticleEffect>,
    lastFrameTime: real,
    deltaTime: real,
    lastOrbSpawn: int,
    lastPowerUpSpawn: int,
    loopRunning: bool,
    storedHighScore: int,
    events: seq<GameEvent>)

  /** What every reachable state satisfies, apart from the clock. */
  predicate Wellformed(w: World) {
    && w.width >= 0.0 && w.height >= 0.0
    && w.stats.level >= 1
    && w.stats.combo >= 0
    && w.stats.score >= 0
    && |w.orbs| <= MaxOnScreen
    && forall i :: 0 <= i < |w.wheels| ==> WheelShaped(w.wheels[i])
  }

  /** Before the first frame the frame clock has not moved. */
  predicate Inv(w: World) {
    Wellformed(w) && (!w.loopRunning ==> w.lastFrameTime == 0.0)
  }

  /** The constructor: menu state, fresh stats with the loaded high score, two wheels. */
  function Initial(width: real, height: real, loaded: int): (w: World)
    requires width >= 0.0 && height >= 0.0
    ensures Inv(w) && w.state == Menu && w.orbs == [] && w.events == []
    ensures Catalogued(w.stats.achievements)
  {
    World(width, height, Menu, GameStats(0, InitialLives, 1, 0, loaded, Catalog()),
          [], InitialWheels(width, height), [], [], 0.0, 0.0, 0, 0, false, loaded, [])
  }

  // ----- state machine (lines 177-224) -----

  function PauseSpec(w: World): World {
    if w.state == Playing then w.(state := Paused)
    else if w.state == Paused then w.(state := Playing)
    else w
  }

  function GameOverSpec(w: World): World {
    var beaten := w.stats.score > w.stats.highScore;
    w.(state := GameState.GameOver,
       stats := if beaten then w.stats.(highScore := w.stats.score) else w.stats,
       storedHighScore := if beaten then w.stats.score else w.storedHighScore,
       events := w.events + [GameOverEvent(w.stats.score)])
  }

  /** The assignments of startGame before it looks at the animation loop. */
  function ResetSpec(w: World): World {
    w.(state := Playing,
       stats := w.stats.(score := 0, lives := InitialLives, level := 1, combo := 0),
       orbs := [], powerUps := [], particles := [],
       lastOrbSpawn := 0, lastPowerUpSpawn := 0)
  }

  /** startGame: reset, then run one frame at timestamp 0 if no frame is pending. */
  function StartSpec(w: World, now: int, rolls: Rolls): World
    requires RollsOk(rolls)
  {
    var r := ResetSpec(w);
    if w.loopRunning then r else LoopSpec(r, 0.0, now, rolls)
  }

  /** The frame step's clamped delta, in seconds. */
  function ClampedDelta(w: World, timestamp: real): real {
    Min((timestamp - w.lastFrameTime) / 1000.0, MaxDelta)
  }

  /** gameLoop without rendering: clamp the delta, update only while playing, request the next frame. */
  function LoopSpec(w: World, timestamp: real, now: int, rolls: Rolls): World
    requires w.stats.level >= 1 && RollsOk(rolls)
  {
    var w1 := w.(deltaTime := ClampedDelta(w, timestamp), lastFrameTime := timestamp);
    var w2 := if w1.state == Playing then UpdateSpec(w1, now, rolls) else w1;
    w2.(loopRunning := true)
  }

  /** handleInput: taps while playing, starts from the menu or game-over screen, ignored while paused. */
  function HandleInputSpec(w: World, input: TouchInput, now: int, rolls: Rolls): World
    requires Wellformed(w) && RollsOk(rolls)
  {
    if w.state == Playing then TapSpec(w, input, now)
    else if w.state == Menu || w.state == GameState.GameOver then StartSpec(w, now, rolls)
    else w
  }

  // ----- one tick (lines 226-356, 466-477) -----

  predicate OrbGate(w: World, now: int)
    requires w.stats.level >= 1
  {
    (now - w.lastOrbSpawn) as real > SpawnRate / w.stats.level as real && |w.orbs| < MaxOnScreen
  }

  predicate PowerUpGate(w: World, now: int, roll: real) {
    now - w.lastPowerUpSpawn > PowerUpInterval && roll < SpawnChance
  }

  function SpawnOrbSpec(w: World, rolls: Rolls): World
    requires RollsOk(rolls)
  {
    w.(orbs := w.orbs + [NewOrb(rolls.orbId, rolls.orbX, rolls.orbColor, w.width, w.stats.level)])
  }

  function SpawnPowerUpSpec(w: World, now: int, rolls: Rolls): World
    requires RollsOk(rolls)
  {
    w.(powerUps := w.powerUps + [NewPowerUp(now, rolls.powerUpType, rolls.powerUpX, w.width)])
  }

  /** The spawn part of update: an orb if the gate is open, then possibly a power-up. */
  function SpawnSpec(w: World, now: int, rolls: Rolls): World
    requires w.stats.level >= 1 && RollsOk(rolls)
  {
    var w1 := if OrbGate(w, now) then SpawnOrbSpec(w, rolls).(lastOrbSpawn := now) else w;
    if PowerUpGate(w1, now, rolls.powerUpChance)
    then SpawnPowerUpSpec(w1, now, rolls).(lastPowerUpSpawn := now)
    else w1
  }

  /** One miss inside updateOrbs: a life, the combo, a burst, an event, and game over at no lives. */
  function MissOne(w: World, o: GameOrb, now: int): World {
    var w1 := w.(stats := w.stats.(lives := w.stats.lives - 1, combo := 0),
                 particles := w.particles + MissBurst(o.position, now),
                 events := w.events + [OrbMissed(o)]);
    if w1.stats.lives <= 0 then GameOverSpec(w1) else w1
  }

  /** The `orbsToRemove.forEach` loop, one miss per removed orb in order. */
  function MissCascade(w: World, gone: seq<GameOrb>, now: int): World
    decreases |gone|
  {
    if gone == [] then w
    else MissOne(MissCascade(w, gone[..|gone| - 1], now), gone[|gone| - 1], now)
  }

  function UpdateOrbsSpec(w: World, now: int): World {
    var moved := MovedOrbs(w.orbs, w.deltaTime);
    var w1 := MissCascade(w.(orbs := moved), Filter(moved, GoneTest(w.height)), now);
    w1.(orbs := Filter(w1.orbs, StaysTest(w.height)))
  }

  function UpdateWheelsSpec(w: World): World {
    w.(wheels := SpinWheels(w.wheels, w.deltaTime))
  }

  function UpdatePowerUpsSpec(w: World): World {
    w.(powerUps := Filter(MovedPowerUps(w.powerUps, w.deltaTime), PowerUpStays(w.height)))
  }

  function UpdateParticlesSpec(w: World): World {
    w.(particles := Filter(MovedParticles(w.particles, w.deltaTime), ParticleAlive()))
  }

  function LevelSpec(w: World): World {
    if w.stats.score >= w.stats.level * LevelStep then
      w.(stats := w.stats.(level := w.stats.level + 1),
         events := w.events + [LevelUp(w.stats.level + 1)],
         wheels := SpeedUpWheels(w.wheels))
    else w
  }

  function UpdateSpec(w: World, now: int, rolls: Rolls): World
    requires w.stats.level >= 1 && RollsOk(rolls)
  {
    var w1 := SpawnSpec(w, now, rolls);
    var w2 := UpdateOrbsSpec(w1, now);
    var w3 := UpdateWheelsSpec(w2);
    var w4 := UpdatePowerUpsSpec(w3);
    var w5 := UpdateParticlesSpec(w4);
    LevelSpec(w5)
  }

  // ----- taps (lines 358-425) -----

  function TapSpec(w: World, input: TouchInput, now: int): World
    requires Wellformed(w)
  {
    var p := Vector2D(input.x, input.y);
    PickOrbSpec(w.orbs, p);
    match PickOrb(w.orbs, p)
    case None => w
    case Some(i) => MatchSpec(w, w.orbs[i], p, now)
  }

  function MatchSpec(w: World, o: GameOrb, p: Vector2D, now: int): World
    requires Wellformed(w)
  {
    MatchWheelSpec(w.wheels, o, p);
    match MatchWheel(w.wheels, o, p)
    case Some(k) => SuccessSpec(w, o, w.wheels[k], now)
    case None => MissedSpec(w, o, now)
  }

  /** handleSuccessfulMatch up to the achievement check: combo, points, burst, event, removal by id. */
  function ScoreMatch(w: World, o: GameOrb, wheel: ColorWheel, now: int): World
    requires w.stats.combo >= 0
  {
    var combo := w.stats.combo + 1;
    var points := Points(combo);
    w.(stats := w.stats.(combo := combo, score := w.stats.score + points),
       particles := w.particles + ExplosionBurst(o.position, o.color, now),
       events := w.events + [OrbMatched(o, wheel, points)],
       orbs := Filter(w.orbs, OtherId(o.id)))
  }

  function SuccessSpec(w: World, o: GameOrb, wheel: ColorWheel, now: int): World
    requires w.stats.combo >= 0
  {
    AchievementsSpec(ScoreMatch(w, o, wheel, now))
  }

  function MissedSpec(w: World, o: GameOrb, now: int): World {
    w.(stats := w.stats.(combo := 0),
       particles := w.particles + MissBurst(o.position, now),
       events := w.events + [OrbMissed(o)],
       orbs := Filter(w.orbs, OtherId(o.id)))
  }

  // ----- achievements (lines 479-505) -----

  /** `achievements.find(a => a.id === id)`: the first achievement with that id. */
  function FindAchievement(achs: seq<Achievement>, id: string): (r: Option<nat>)
    ensures r.Some? ==> r.value < |achs| && achs[r.value].id == id
    ensures r.Some? ==> forall j :: 0 <= j < r.value ==> achs[j].id != id
    ensures r.None? <==> forall j :: 0 <= j < |achs| ==> achs[j].id != id
  {
    if achs == [] then None
    else if achs[0].id == id then Some(0)
    else match FindAchievement(achs[1..], id)
      case Some(k) => Some(k + 1)
      case None => None
  }

  /** Two achievement lists with the same ids in the same places. */
  predicate SameIds(a: seq<Achievement>, b: seq<Achievement>) {
    |a| == |b| && forall k :: 0 <= k < |a| ==> a[k].id == b[k].id
  }

  /** The list holds the catalogue's five ids, in the catalogue's order. */
  predicate Catalogued(achs: seq<Achievement>) {
    && |achs| == 5
    && achs[0].id == "first_match" && achs[1].id == "combo_5" && achs[2].id == "level_5"
    && achs[3].id == "score_1000" && achs[4].id == "perfect_game"
  }

  /** `find(...)?.unlocked`, where a missing entry reads as not unlocked. */
  predicate IsUnlocked(achs: seq<Achievement>, id: string) {
    match FindAchievement(achs, id)
    case Some(i) => achs[i].unlocked
    case None => false
  }

  function UnlockSpec(w: World, id: string): World {
    var achs := w.stats.achievements;
    match FindAchievement(achs, id)
    case Some(i) =>
      if !achs[i].unlocked then
        var a := achs[i].(unlocked := true);
        w.(stats := w.stats.(achievements := achs[i := a]), events := w.events + [AchievementUnlocked(a)])
      else w
    case None => w
  }

  function CheckUnlock(w: World, cond: bool, id: string): World {
    if cond && !IsUnlocked(w.stats.achievements, id) then UnlockSpec(w, id) else w
  }

  /** checkAchievements: the four wired conditions, in source order. */
  function AchievementsSpec(w: World): World {
    var w1 := CheckUnlock(w, w.stats.combo >= 1, "first_match");
    var w2 := CheckUnlock(w1, w1.stats.combo >= 5, "combo_5");
    var w3 := CheckUnlock(w2, w2.stats.level >= 5, "level_5");
    CheckUnlock(w3, w3.stats.score >= 1000, "score_1000")
  }

}
