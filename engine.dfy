/**
 * The class ColorMatchGame (src/lib/gameEngine.ts) over the records of GameTypes.
 * Every method changes the fields in place, as the source does, and is proved to
 * leave the state that its EngineSpec function describes; the public entry points
 * also keep the invariant `Valid()`.
 *
 * The canvas is reduced to its size, listeners to the appended `events` trace, the
 * persisted high score to `storedHighScore`, the animation-frame handle to
 * `loopRunning`; clock readings and `Math.random()` outcomes are parameters.
 */
module Engine {
  import opened GameTypes
  import opened Scoring
  import opened Entities
  import opened EngineSpec
  import opened EngineProperties

  class ColorMatchGame {
    const width: real
    const height: real
    var state: GameState
    var stats: GameStats
    var orbs: seq<GameOrb>
    var wheels: seq<ColorWheel>
    var powerUps: seq<PowerUp>
    var particles: seq<ParticleEffect>
    var lastFrameTime: real
    var deltaTime: real
    var lastOrbSpawn: int
    var lastPowerUpSpawn: int
    var loopRunning: bool
    var storedHighScore: int
    var events: seq<GameEvent>

    /** The object's state as a value. */
    function Model(): World
      reads this
    {
      World(width, height, state, stats, orbs, wheels, powerUps, particles, lastFrameTime,
            deltaTime, lastOrbSpawn, lastPowerUpSpawn, loopRunning, storedHighScore, events)
    }

    predicate Valid()
      reads this
    {
      Inv(Model())
    }

    /** The constructor with the canvas size and the high score read from storage. */
    constructor(canvasWidth: real, canvasHeight: real, loadedHighScore: int)
      requires canvasWidth >= 0.0 && canvasHeight >= 0.0
      ensures Model() == Initial(canvasWidth, canvasHeight, loadedHighScore)
      ensures Valid()
    {
      width := canvasWidth;
      height := canvasHeight;
      state := Menu;
      stats := GameStats(0, InitialLives, 1, 0, loadedHighScore, Catalog());
      orbs := [];
      wheels := InitialWheels(canvasWidth, canvasHeight);
      powerUps := [];
      particles := [];
      lastFrameTime := 0.0;
      deltaTime := 0.0;
      lastOrbSpawn := 0;
      lastPowerUpSpawn := 0;
      loopRunning := false;
      storedHighScore := loadedHighScore;
      events := [];
    }

    method EmitEvent(e: GameEvent)
      modifies this
      ensures Model() == old(Model()).(events := old(events) + [e])
    {
      events := events + [e];
    }

    // ----- state machine -----

    method StartGame(now: int, rolls: Rolls)
      requires Valid() && RollsOk(rolls)
      modifies this
      ensures Model() == StartSpec(old(Model()), now, rolls)
      ensures Valid()
    {
      StartGameResets(Model(), now, rolls);
      state := Playing;
      stats := stats.(score := 0, lives := InitialLives, level := 1, combo := 0);
      orbs := [];
      powerUps := [];
      particles := [];
      lastOrbSpawn := 0;
      lastPowerUpSpawn := 0;
      if !loopRunning {
        GameLoop(0.0, now, rolls);
      }
    }

    method PauseGame()
      requires Valid()
      modifies this
      ensures Model() == PauseSpec(old(Model()))
      ensures Valid()
    {
      if state == Playing {
        state := Paused;
      } else if state == Paused {
        state := Playing;
      }
    }

    method GameOver()
      modifies this
      ensures Model() == GameOverSpec(old(Model()))
      ensures old(Valid()) ==> Valid()
    {
      state := GameState.GameOver;
      if stats.score > stats.highScore {
        stats := stats.(highScore := stats.score);
        storedHighScore := stats.score;
      }
      EmitEvent(GameOverEvent(stats.score));
    }

    /** One animation frame without rendering; `loopRunning` stands for the requested next frame. */
    method GameLoop(timestamp: real, now: int, rolls: Rolls)
      requires Valid() && RollsOk(rolls)
      modifies this
      ensures Model() == LoopSpec(old(Model()), timestamp, now, rolls)
      ensures Valid()
    {
      LoopKeepsInv(Model(), timestamp, now, rolls);
      deltaTime := (timestamp - lastFrameTime) / 1000.0;
      lastFrameTime := timestamp;
      deltaTime := Min(deltaTime, MaxDelta);
      if state == Playing {
        Update(now, rolls);
      }
      loopRunning := true;
    }

    method HandleInput(input: TouchInput, now: int, rolls: Rolls)
      requires Valid() && RollsOk(rolls)
      modifies this
      ensures Model() == HandleInputSpec(old(Model()), input, now, rolls)
      ensures Valid()
    {
      HandleInputKeepsInv(Model(), input, now, rolls);
      if state == Playing {
        CheckOrbTap(input, now);
      } else if state == Menu || state == GameState.GameOver {
        StartGame(now, rolls);
      }
    }

    // ----- one tick -----

    method Update(now: int, rolls: Rolls)
      requires stats.level >= 1 && RollsOk(rolls)
      modifies this
      ensures Model() == UpdateSpec(old(Model()), now, rolls)
    {
      if (now - lastOrbSpawn) as real > SpawnRate / stats.level as real && |orbs| < MaxOnScreen {
        SpawnOrb(rolls);
        lastOrbSpawn := now;
      }
      if now - lastPowerUpSpawn > PowerUpInterval && rolls.powerUpChance < SpawnChance {
        SpawnPowerUp(now, rolls);
        lastPowerUpSpawn := now;
      }
      UpdateOrbs(now);
      UpdateWheels();
      UpdatePowerUps();
      UpdateParticles();
      CheckLevelProgression();
    }

    method SpawnOrb(rolls: Rolls)
      requires RollsOk(rolls)
      modifies this
      ensures Model() == SpawnOrbSpec(old(Model()), rolls)
    {
      var orb := NewOrb(rolls.orbId, rolls.orbX, rolls.orbColor, width, stats.level);
      orbs := orbs + [orb];
    }

    method SpawnPowerUp(now: int, rolls: Rolls)
      requires RollsOk(rolls)
      modifies this
      ensures Model() == SpawnPowerUpSpec(old(Model()), now, rolls)
    {
      var powerUp := NewPowerUp(now, rolls.powerUpType, rolls.powerUpX, width);
      powerUps := powerUps + [powerUp];
    }

    method UpdateOrbs(now: int)
      modifies this
      ensures Model() == UpdateOrbsSpec(old(Model()), now)
    {
      MoveOrbs();
      var gone := Filter(orbs, GoneTest(height));
      ghost var start := Model();
      var k := 0;
      while k < |gone|
        invariant 0 <= k <= |gone|
        invariant Model() == MissCascade(start, gone[..k], now)
      {
        var orb := gone[k];
        stats := stats.(lives := stats.lives - 1);
        stats := stats.(combo := 0);
        CreateMissEffect(orb.position, now);
        EmitEvent(OrbMissed(orb));
        if stats.lives <= 0 {
          GameOver();
        }
        assert gone[..k + 1][..k] == gone[..k];
        k := k + 1;
      }
      assert gone[..k] == gone;
      orbs := Filter(orbs, StaysTest(height));
    }

    /** The `forEach` of updateOrbs: gravity capped at the maximum velocity, motion, ageing. */
    method MoveOrbs()
      modifies this
      ensures Model() == old(Model()).(orbs := MovedOrbs(old(orbs), deltaTime))
    {
      var i := 0;
      while i < |orbs|
        invariant 0 <= i <= |orbs| == |old(orbs)|
        invariant forall j :: 0 <= j < i ==> orbs[j] == StepOrb(old(orbs)[j], deltaTime)
        invariant forall j :: i <= j < |orbs| ==> orbs[j] == old(orbs)[j]
        invariant Model() == old(Model()).(orbs := orbs)
      {
        var orb := orbs[i];
        var vy := Min(orb.velocity.y + Gravity * deltaTime, MaxVelocity);
        var moved := orb.(velocity := orb.velocity.(y := vy),
                          position := Vector2D(orb.position.x + orb.velocity.x * deltaTime,
                                               orb.position.y + vy * deltaTime),
                          lifetime := orb.lifetime - deltaTime * 1000.0);
        assert moved == StepOrb(old(orbs)[i], deltaTime);
        orbs := orbs[i := moved];
        i := i + 1;
      }
    }

    method UpdateWheels()
      modifies this
      ensures Model() == UpdateWheelsSpec(old(Model()))
    {
      var i := 0;
      while i < |wheels|
        invariant 0 <= i <= |wheels| == |old(wheels)|
        invariant forall j :: 0 <= j < i ==> wheels[j] == SpinWheels(old(wheels), deltaTime)[j]
        invariant forall j :: i <= j < |wheels| ==> wheels[j] == old(wheels)[j]
        invariant Model() == old(Model()).(wheels := wheels)
      {
        wheels := wheels[i := wheels[i].(rotation := wheels[i].rotation + wheels[i].rotationSpeed * deltaTime)];
        i := i + 1;
      }
    }

    method UpdatePowerUps()
      modifies this
      ensures Model() == UpdatePowerUpsSpec(old(Model()))
    {
      MovePowerUps();
      powerUps := Filter(powerUps, PowerUpStays(height));
    }

    /** The `forEach` of updatePowerUps: inactive ones fall, active ones count down. */
    method MovePowerUps()
      modifies this
      ensures Model() == old(Model()).(powerUps := MovedPowerUps(old(powerUps), deltaTime))
    {
      var i := 0;
      while i < |powerUps|
        invariant 0 <= i <= |powerUps| == |old(powerUps)|
        invariant forall j :: 0 <= j < i ==> powerUps[j] == StepPowerUp(old(powerUps)[j], deltaTime)
        invariant forall j :: i <= j < |powerUps| ==> powerUps[j] == old(powerUps)[j]
        invariant Model() == old(Model()).(powerUps := powerUps)
      {
        var p := powerUps[i];
        if !p.isActive {
          p := p.(position := p.position.(y := p.position.y + PowerUpFallSpeed * deltaTime));
        } else {
          p := p.(duration := p.duration - deltaTime * 1000.0);
        }
        powerUps := powerUps[i := p];
        i := i + 1;
      }
    }

    method UpdateParticles()
      modifies this
      ensures Model() == UpdateParticlesSpec(old(Model()))
    {
      MoveParticles();
      particles := Filter(particles, ParticleAlive());
    }

    /** The `forEach` of updateParticles: motion, ageing and shrinking. */
    method MoveParticles()
      modifies this
      ensures Model() == old(Model()).(particles := MovedParticles(old(particles), deltaTime))
    {
      var i := 0;
      while i < |particles|
        invariant 0 <= i <= |particles| == |old(particles)|
        invariant forall j :: 0 <= j < i ==> particles[j] == StepParticle(old(particles)[j], deltaTime)
        invariant forall j :: i <= j < |particles| ==> particles[j] == old(particles)[j]
        invariant Model() == old(Model()).(particles := particles)
      {
        particles := particles[i := StepParticle(particles[i], deltaTime)];
        i := i + 1;
      }
    }

    method CheckLevelProgression()
      modifies this
      ensures Model() == LevelSpec(old(Model()))
    {
      var targetScore := stats.level * LevelStep;
      if stats.score >= targetScore {
        stats := stats.(level := stats.level + 1);
        EmitEvent(LevelUp(stats.level));
        var i := 0;
        while i < |wheels|
          invariant 0 <= i <= |wheels| == |old(wheels)|
          invariant forall j :: 0 <= j < i ==> wheels[j] == SpeedUpWheels(old(wheels))[j]
          invariant forall j :: i <= j < |wheels| ==> wheels[j] == old(wheels)[j]
          invariant Model() == LevelSpec(old(Model())).(wheels := wheels)
        {
          wheels := wheels[i := wheels[i].(rotationSpeed := wheels[i].rotationSpeed * SpeedUp)];
          i := i + 1;
        }
      }
    }

    // ----- effects -----

    method CreateMatchEffect(position: Vector2D, color: string, now: int)
      modifies this
      ensures Model() == old(Model()).(particles := old(particles) + ExplosionBurst(position, color, now))
    {
      var i := 0;
      while i < 8
        invariant 0 <= i <= 8
        invariant Model() == old(Model()).(particles := old(particles) + ExplosionBurst(position, color, now)[..i])
      {
        particles := particles + [ExplosionParticle(position, color, now, i)];
        assert ExplosionBurst(position, color, now)[..i + 1] ==
               ExplosionBurst(position, color, now)[..i] + [ExplosionParticle(position, color, now, i)];
        i := i + 1;
      }
      assert ExplosionBurst(position, color, now)[..8] == ExplosionBurst(position, color, now);
    }

    method CreateMissEffect(position: Vector2D, now: int)
      modifies this
      ensures Model() == old(Model()).(particles := old(particles) + MissBurst(position, now))
    {
      var i := 0;
      while i < 4
        invariant 0 <= i <= 4
        invariant Model() == old(Model()).(particles := old(particles) + MissBurst(position, now)[..i])
      {
        particles := particles + [MissParticle(position, now, i)];
        assert MissBurst(position, now)[..i + 1] == MissBurst(position, now)[..i] + [MissParticle(position, now, i)];
        i := i + 1;
      }
      assert MissBurst(position, now)[..4] == MissBurst(position, now);
    }

    // ----- taps -----

    /** Scans the orbs from the newest down and resolves the first one the tap touches. */
    method CheckOrbTap(input: TouchInput, now: int)
      requires Wellformed(Model())
      modifies this
      ensures Model() == TapSpec(old(Model()), input, now)
    {
      var p := Vector2D(input.x, input.y);
      PickOrbSpec(orbs, p);
      var i := |orbs|;
      while i > 0
        invariant 0 <= i <= |orbs|
        invariant Model() == old(Model())
        invariant forall j :: i <= j < |orbs| ==> !Touches(orbs[j], p)
      {
        i := i - 1;
        var orb := orbs[i];
        if Within(p, orb.position, orb.radius + TapTolerance) {
          PickOrbUnique(orbs, p, i);
          CheckOrbWheelMatch(orb, p, now);
          return;
        }
      }
    }

    /** Tries the wheels in order; the first in reach showing the orb's colour scores it. */
    method CheckOrbWheelMatch(orb: GameOrb, p: Vector2D, now: int)
      requires Wellformed(Model())
      modifies this
      ensures Model() == MatchSpec(old(Model()), orb, p, now)
    {
      MatchWheelSpec(wheels, orb, p);
      var k := 0;
      while k < |wheels|
        invariant 0 <= k <= |wheels|
        invariant Model() == old(Model())
        invariant forall j :: 0 <= j < k ==> !WheelMatches(wheels[j], orb, p)
      {
        var wheel := wheels[k];
        if Within(p, wheel.position, wheel.radius + WheelReach) {
          var currentSegment := CurrentSegment(wheel);
          if orb.color == wheel.colors[currentSegment] {
            MatchWheelFirst(wheels, orb, p, k);
            HandleSuccessfulMatch(orb, wheel, now);
            return;
          }
        }
        k := k + 1;
      }
      HandleMissedMatch(orb, now);
    }

    method HandleSuccessfulMatch(orb: GameOrb, wheel: ColorWheel, now: int)
      requires stats.combo >= 0
      modifies this
      ensures Model() == SuccessSpec(old(Model()), orb, wheel, now)
    {
      stats := stats.(combo := stats.combo + 1);
      var points := Points(stats.combo);
      stats := stats.(score := stats.score + points);
      CreateMatchEffect(orb.position, orb.color, now);
      EmitEvent(OrbMatched(orb, wheel, points));
      orbs := Filter(orbs, OtherId(orb.id));
      assert Model() == ScoreMatch(old(Model()), orb, wheel, now);
      CheckAchievements();
    }

    method HandleMissedMatch(orb: GameOrb, now: int)
      modifies this
      ensures Model() == MissedSpec(old(Model()), orb, now)
    {
      stats := stats.(combo := 0);
      CreateMissEffect(orb.position, now);
      EmitEvent(OrbMissed(orb));
      orbs := Filter(orbs, OtherId(orb.id));
    }

    // ----- achievements -----

    method CheckAchievements()
      modifies this
      ensures Model() == AchievementsSpec(old(Model()))
    {
      if stats.combo >= 1 && !IsUnlocked(stats.achievements, "first_match") {
        UnlockAchievement("first_match");
      }
      if stats.combo >= 5 && !IsUnlocked(stats.achievements, "combo_5") {
        UnlockAchievement("combo_5");
      }
      if stats.level >= 5 && !IsUnlocked(stats.achievements, "level_5") {
        UnlockAchievement("level_5");
      }
      if stats.score >= 1000 && !IsUnlocked(stats.achievements, "score_1000") {
        UnlockAchievement("score_1000");
      }
    }

    method UnlockAchievement(id: string)
      modifies this
      ensures Model() == UnlockSpec(old(Model()), id)
    {
      var found := FindAchievement(stats.achievements, id);
      if found.Some? && !stats.achievements[found.value].unlocked {
        var achievement := stats.achievements[found.value].(unlocked := true);
        stats := stats.(achievements := stats.achievements[found.value := achievement]);
        EmitEvent(AchievementUnlocked(achievement));
      }
    }
  }
}
