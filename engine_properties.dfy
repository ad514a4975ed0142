/**
 * What the engine promises about its transitions, stated over the functions of
 * EngineSpec: the pause toggle, the frame clamp, the orb cap, the effect of a match
 * and of a miss, the miss cascade of an update with its repeated game overs, level
 * progression, the achievement flags and the high score.
 */
module EngineProperties {
  import opened GameTypes
  import opened Scoring
  import opened Entities
  import opened EngineSpec

  function Max(a: int, b: int): int { if a >= b then a else b }

  function Missed(): GameEvent -> bool { (e: GameEvent) => e.OrbMissed? }
  function Ended(): GameEvent -> bool { (e: GameEvent) => e.GameOverEvent? }

  // ----- the event trace -----

  /** `r`'s trace starts with `w`'s: events are only ever appended. */
  predicate Extends(w: World, r: World) {
    |w.events| <= |r.events| && r.events[..|w.events|] == w.events
  }

  /** The events emitted between `w` and `r`. */
  function Appended(w: World, r: World): seq<GameEvent>
    requires |w.events| <= |r.events|
  {
    r.events[|w.events|..]
  }

  lemma AppendEvents(w: World, r: World, extra: seq<GameEvent>)
    requires r.events == w.events + extra
    ensures Extends(w, r) && Appended(w, r) == extra
  {
  }

  lemma ExtendsCompose(a: World, b: World, c: World)
    requires Extends(a, b) && Extends(b, c)
    ensures Extends(a, c) && Appended(a, c) == Appended(a, b) + Appended(b, c)
  {
    assert b.events == a.events + Appended(a, b);
    assert c.events == c.events[..|b.events|] + c.events[|b.events|..];
    assert c.events == a.events + Appended(a, b) + Appended(b, c);
  }

  lemma {:induction false} FilterConcat<T>(a: seq<T>, b: seq<T>, keep: T -> bool)
    ensures Filter(a + b, keep) == Filter(a, keep) + Filter(b, keep)
  {
    if b != [] {
      var b0 := b[..|b| - 1];
      assert (a + b)[..|a + b| - 1] == a + b0;
      FilterConcat(a, b0, keep);
    } else {
      assert a + b == a;
    }
  }

  lemma FilterOne<T>(x: T, keep: T -> bool)
    ensures Filter([x], keep) == if keep(x) then [x] else []
  {
    assert [x][..0] == [];
  }

  // ----- frames -----

  /** The canvas and the frame clock are the same. */
  predicate SameClock(w: World, r: World) {
    && r.width == w.width && r.height == w.height
    && r.deltaTime == w.deltaTime && r.lastFrameTime == w.lastFrameTime
    && r.loopRunning == w.loopRunning
  }

  /** Nothing a miss, a match or an unlock touches: clock, wheels, power-ups, spawn timers, level. */
  predicate SameScene(w: World, r: World) {
    && SameClock(w, r)
    && r.wheels == w.wheels && r.powerUps == w.powerUps
    && r.lastOrbSpawn == w.lastOrbSpawn && r.lastPowerUpSpawn == w.lastPowerUpSpawn
    && r.stats.level == w.stats.level
  }

  /** Only the achievement flags and the trace may differ. */
  predicate OnlyAchievements(w: World, r: World) {
    && SameScene(w, r)
    && r.orbs == w.orbs && r.particles == w.particles && r.state == w.state
    && r.storedHighScore == w.storedHighScore
    && r.stats.score == w.stats.score && r.stats.lives == w.stats.lives
    && r.stats.combo == w.stats.combo && r.stats.highScore == w.stats.highScore
  }

  /** The wheels are the same wheels, with the same segments and colours. */
  predicate SameShapes(ws: seq<ColorWheel>, vs: seq<ColorWheel>) {
    |ws| == |vs| && forall i :: 0 <= i < |ws| ==> vs[i].segments == ws[i].segments && vs[i].colors == ws[i].colors
  }

  // ----- state machine -----

  /** pauseGame swaps playing and paused, does nothing otherwise, and touches no other field. */
  lemma PauseToggles(w: World)
    ensures w.state == Playing ==> PauseSpec(w).state == Paused
    ensures w.state == Paused ==> PauseSpec(w).state == Playing
    ensures w.state != Playing && w.state != Paused ==> PauseSpec(w) == w
    ensures PauseSpec(w).(state := w.state) == w
    ensures PauseSpec(PauseSpec(w)) == w
  {
  }

  /** gameOver records max(high score, score) in the stats and in the store, and emits the final score. */
  lemma GameOverRecords(w: World)
    ensures GameOverSpec(w).state == GameState.GameOver
    ensures GameOverSpec(w).stats.highScore == Max(w.stats.highScore, w.stats.score)
    ensures GameOverSpec(w).storedHighScore ==
      (if w.stats.score > w.stats.highScore then w.stats.score else w.storedHighScore)
    ensures GameOverSpec(w).events == w.events + [GameOverEvent(w.stats.score)]
    ensures GameOverSpec(w).stats.(highScore := w.stats.highScore) == w.stats
  {
  }

  // ----- spawning -----

  /** The spawn step adds at most one orb, only below the cap, and at most one inactive power-up. */
  lemma SpawnEffect(w: World, now: int, rolls: Rolls)
    requires w.stats.level >= 1 && RollsOk(rolls)
    ensures var r := SpawnSpec(w, now, rolls);
      && r.(orbs := w.orbs, powerUps := w.powerUps, lastOrbSpawn := w.lastOrbSpawn,
            lastPowerUpSpawn := w.lastPowerUpSpawn) == w
      && r.orbs[..|w.orbs|] == w.orbs
      && |r.orbs| == |w.orbs| + (if OrbGate(w, now) then 1 else 0)
      && (OrbGate(w, now) ==> |w.orbs| < MaxOnScreen && r.orbs[|w.orbs|].lifetime == OrbLifetime)
      && r.powerUps[..|w.powerUps|] == w.powerUps
      && |r.powerUps| == |w.powerUps| + (if PowerUpGate(w, now, rolls.powerUpChance) then 1 else 0)
      && (forall j :: |w.powerUps| <= j < |r.powerUps| ==> !r.powerUps[j].isActive)
      && r.lastOrbSpawn == (if OrbGate(w, now) then now else w.lastOrbSpawn)
      && r.lastPowerUpSpawn == (if PowerUpGate(w, now, rolls.powerUpChance) then now else w.lastPowerUpSpawn)
  {
  }

  // ----- the miss cascade of updateOrbs -----

  /** One removed orb: a life and the combo go, a burst and ORB_MISSED are added, and gameOver runs at no lives. */
  lemma MissOneEffect(w: World, o: GameOrb, now: int)
    ensures var r := MissOne(w, o, now);
      var ends := w.stats.lives - 1 <= 0;
      && SameScene(w, r) && r.orbs == w.orbs
      && r.stats.score == w.stats.score && r.stats.achievements == w.stats.achievements
      && r.stats.lives == w.stats.lives - 1 && r.stats.combo == 0
      && r.particles == w.particles + MissBurst(o.position, now)
      && r.events == w.events + MissEvents(o, w.stats.score, ends)
      && r.state == (if ends then GameState.GameOver else w.state)
      && r.stats.highScore == (if ends then Max(w.stats.highScore, w.stats.score) else w.stats.highScore)
      && r.storedHighScore ==
           (if ends && w.stats.score > w.stats.highScore then w.stats.score else w.storedHighScore)
  {
  }

  /** Each removed orb costs exactly one life; the combo is 0 once any orb was removed. */
  lemma {:induction false} CascadeCounters(w: World, gone: seq<GameOrb>, now: int)
    ensures var r := MissCascade(w, gone, now);
      && SameScene(w, r) && r.orbs == w.orbs
      && r.stats.score == w.stats.score && r.stats.achievements == w.stats.achievements
      && r.stats.lives == w.stats.lives - |gone|
      && r.stats.combo == (if gone == [] then w.stats.combo else 0)
  {
    if gone != [] {
      var init := gone[..|gone| - 1];
      CascadeCounters(w, init, now);
      MissOneEffect(MissCascade(w, init, now), gone[|gone| - 1], now);
    }
  }

  /** Each removed orb adds its four miss particles after the existing ones. */
  lemma {:induction false} CascadeParticles(w: World, gone: seq<GameOrb>, now: int)
    ensures var r := MissCascade(w, gone, now);
      |r.particles| == |w.particles| + 4 * |gone| && r.particles[..|w.particles|] == w.particles
  {
    if gone != [] {
      var init, o := gone[..|gone| - 1], gone[|gone| - 1];
      var r0 := MissCascade(w, init, now);
      CascadeParticles(w, init, now);
      MissOneEffect(r0, o, now);
      assert (r0.particles + MissBurst(o.position, now))[..|w.particles|] == r0.particles[..|w.particles|];
    }
  }

  /** Number of the first `n` decrements from `lives` that leave lives at 0 or below. */
  function Overs(lives: int, n: nat): nat {
    if n == 0 then 0 else Overs(lives, n - 1) + (if lives - n <= 0 then 1 else 0)
  }

  /** Overs in closed form: none while lives stay positive, one per miss once they do not. */
  lemma {:induction false} OversClosedForm(lives: int, n: nat)
    ensures Overs(lives, n) == (if lives > n then 0 else if lives <= 0 then n else n - lives + 1)
  {
    if n > 0 {
      OversClosedForm(lives, n - 1);
    }
  }

  /**
   * One ORB_MISSED per removed orb, and one GAME_OVER for every miss that leaves lives at
   * 0 or below: several in one tick when several orbs go at once.
   */
  lemma {:induction false} CascadeEvents(w: World, gone: seq<GameOrb>, now: int)
    ensures var r := MissCascade(w, gone, now);
      && Extends(w, r)
      && |Filter(Appended(w, r), Missed())| == |gone|
      && |Filter(Appended(w, r), Ended())| == Overs(w.stats.lives, |gone|)
  {
    if gone != [] {
      var init, o := gone[..|gone| - 1], gone[|gone| - 1];
      var r0 := MissCascade(w, init, now);
      CascadeEvents(w, init, now);
      CascadeCounters(w, init, now);
      MissOneEffect(r0, o, now);
      var r := MissOne(r0, o, now);
      var ends := r0.stats.lives - 1 <= 0;
      var extra := MissEvents(o, r0.stats.score, ends);
      AppendEvents(r0, r, extra);
      ExtendsCompose(w, r0, r);
      MissEventCounts(Appended(w, r0), o, r0.stats.score, ends);
    }
  }

  /** The events one miss appends: ORB_MISSED, then GAME_OVER if it ended the game. */
  function MissEvents(o: GameOrb, score: int, ends: bool): seq<GameEvent> {
    if ends then [OrbMissed(o), GameOverEvent(score)] else [OrbMissed(o)]
  }

  lemma MissEventCounts(tail: seq<GameEvent>, o: GameOrb, score: int, ends: bool)
    ensures |Filter(tail + MissEvents(o, score, ends), Missed())| == |Filter(tail, Missed())| + 1
    ensures |Filter(tail + MissEvents(o, score, ends), Ended())| == |Filter(tail, Ended())| + (if ends then 1 else 0)
  {
    var extra := MissEvents(o, score, ends);
    FilterConcat(tail, extra, Missed());
    FilterConcat(tail, extra, Ended());
    if ends {
      assert extra == [OrbMissed(o)] + [GameOverEvent(score)];
      FilterConcat([OrbMissed(o)], [GameOverEvent(score)], Missed());
      FilterConcat([OrbMissed(o)], [GameOverEvent(score)], Ended());
      FilterOne(GameOverEvent(score), Missed());
      FilterOne(GameOverEvent(score), Ended());
    }
    FilterOne(OrbMissed(o), Missed());
    FilterOne(OrbMissed(o), Ended());
  }

  /**
   * The cascade ends the game exactly when lives reach 0 or below; the high score then
   * becomes max(high score, score), and the store takes the score only if it was beaten.
   */
  lemma {:induction false} CascadeOutcome(w: World, gone: seq<GameOrb>, now: int)
    ensures var r := MissCascade(w, gone, now);
      var ends := gone != [] && w.stats.lives - |gone| <= 0;
      && r.state == (if ends then GameState.GameOver else w.state)
      && r.stats.highScore == (if ends then Max(w.stats.highScore, w.stats.score) else w.stats.highScore)
      && r.storedHighScore ==
           (if ends && w.stats.score > w.stats.highScore then w.stats.score else w.storedHighScore)
  {
    if gone != [] {
      var init, o := gone[..|gone| - 1], gone[|gone| - 1];
      var r0 := MissCascade(w, init, now);
      CascadeOutcome(w, init, now);
      CascadeCounters(w, init, now);
      MissOneEffect(r0, o, now);
    }
  }

  /** Lives can fall below zero: three orbs leaving at once with one life left end the game three times. */
  lemma SeveralGameOversInOneTick(w: World, a: GameOrb, b: GameOrb, c: GameOrb, now: int)
    requires w.stats.lives == 1
    ensures var r := MissCascade(w, [a, b, c], now);
      && r.stats.lives == -2 && r.state == GameState.GameOver
      && Extends(w, r) && |Filter(Appended(w, r), Ended())| == 3
  {
    CascadeCounters(w, [a, b, c], now);
    CascadeEvents(w, [a, b, c], now);
    CascadeOutcome(w, [a, b, c], now);
    OversClosedForm(1, 3);
  }

  // ----- updateOrbs -----

  /**
   * updateOrbs removes exactly the moved orbs that fell off or expired; lives fall by their
   * number and the combo resets if there was any.
   */
  lemma UpdateOrbsRemoves(w: World, now: int)
    ensures var moved := MovedOrbs(w.orbs, w.deltaTime);
      var gone := Filter(moved, GoneTest(w.height));
      var r := UpdateOrbsSpec(w, now);
      && r.orbs == Filter(moved, StaysTest(w.height))
      && |r.orbs| + |gone| == |w.orbs|
      && multiset(r.orbs) + multiset(gone) == multiset(moved)
      && r.stats.lives == w.stats.lives - |gone|
      && r.stats.combo == (if gone == [] then w.stats.combo else 0)
      && r.stats.score == w.stats.score && r.stats.achievements == w.stats.achievements
      && SameScene(w, r)
  {
    var moved := MovedOrbs(w.orbs, w.deltaTime);
    var gone := Filter(moved, GoneTest(w.height));
    CascadeCounters(w.(orbs := moved), gone, now);
    OrbsPartition(moved, w.height);
  }

  /**
   * updateOrbs emits one ORB_MISSED per removed orb and ends the game when lives reach 0
   * or below, recording max(high score, score).
   */
  lemma UpdateOrbsTrace(w: World, now: int)
    ensures var gone := Filter(MovedOrbs(w.orbs, w.deltaTime), GoneTest(w.height));
      var r := UpdateOrbsSpec(w, now);
      var ends := gone != [] && w.stats.lives - |gone| <= 0;
      && Extends(w, r)
      && |Filter(Appended(w, r), Missed())| == |gone|
      && |Filter(Appended(w, r), Ended())| == Overs(w.stats.lives, |gone|)
      && r.state == (if ends then GameState.GameOver else w.state)
      && r.stats.highScore == (if ends then Max(w.stats.highScore, w.stats.score) else w.stats.highScore)
  {
    var moved := MovedOrbs(w.orbs, w.deltaTime);
    var gone := Filter(moved, GoneTest(w.height));
    CascadeEvents(w.(orbs := moved), gone, now);
    CascadeOutcome(w.(orbs := moved), gone, now);
  }

  // ----- wheels, power-ups, particles, level -----

  /** checkLevelProgression: one level at most, exactly when score reaches level*200, speeding every wheel by 1.1. */
  lemma LevelEffect(w: World)
    ensures var r := LevelSpec(w);
      var up := w.stats.score >= w.stats.level * LevelStep;
      && r.stats.level == w.stats.level + (if up then 1 else 0)
      && r.stats.(level := w.stats.level) == w.stats
      && r.(stats := w.stats, events := w.events, wheels := w.wheels) == w
      && SameShapes(w.wheels, r.wheels)
      && (forall i :: 0 <= i < |w.wheels| ==>
            r.wheels[i].rotationSpeed == (if up then 1.1 * w.wheels[i].rotationSpeed else w.wheels[i].rotationSpeed))
      && r.events == w.events + (if up then [LevelUp(r.stats.level)] else [])
  {
    SpeedUpScales(w.wheels);
  }

  /** The three cosmetic updates: wheels turn, power-ups and particles age; nothing else changes. */
  lemma EntityUpdatesFrame(w: World)
    ensures var r := UpdateParticlesSpec(UpdatePowerUpsSpec(UpdateWheelsSpec(w)));
      && r.(wheels := w.wheels, powerUps := w.powerUps, particles := w.particles) == w
      && SameShapes(w.wheels, r.wheels)
      && (forall i :: 0 <= i < |w.wheels| ==>
            r.wheels[i] == w.wheels[i].(rotation := w.wheels[i].rotation + w.wheels[i].rotationSpeed * w.deltaTime))
      && |r.powerUps| <= |w.powerUps|
      && (forall i :: 0 <= i < |r.particles| ==> r.particles[i].lifetime > 0.0)
  {
    FilterSound(MovedPowerUps(w.powerUps, w.deltaTime), PowerUpStays(w.height));
    FilterSound(MovedParticles(w.particles, w.deltaTime), ParticleAlive());
  }

  /**
   * updatePowerUps keeps moved power-ups only, each at most as often as it occurs: exactly
   * the inactive ones still on screen and the active ones with duration left.
   */
  lemma PowerUpsSurvive(w: World)
    ensures var moved, kept := MovedPowerUps(w.powerUps, w.deltaTime), UpdatePowerUpsSpec(w).powerUps;
      && multiset(kept) <= multiset(moved)
      && (forall i :: 0 <= i < |kept| ==> PowerUpStays(w.height)(kept[i]))
      && (forall x :: x in moved && PowerUpStays(w.height)(x) ==> x in kept)
  {
    FilterSound(MovedPowerUps(w.powerUps, w.deltaTime), PowerUpStays(w.height));
  }

  /** updateParticles keeps moved particles only: exactly those with lifetime left. */
  lemma ParticlesSurvive(w: World)
    ensures var moved, kept := MovedParticles(w.particles, w.deltaTime), UpdateParticlesSpec(w).particles;
      && multiset(kept) <= multiset(moved)
      && (forall i :: 0 <= i < |kept| ==> kept[i].lifetime > 0.0)
      && (forall x :: x in moved && x.lifetime > 0.0 ==> x in kept)
  {
    FilterSound(MovedParticles(w.particles, w.deltaTime), ParticleAlive());
  }

  /** One tick keeps the state well formed; in particular no more than 8 orbs are ever live. */
  lemma UpdateKeepsWellformed(w: World, now: int, rolls: Rolls)
    requires Wellformed(w) && RollsOk(rolls)
    ensures Wellformed(UpdateSpec(w, now, rolls))
    ensures SameClock(w, UpdateSpec(w, now, rolls))
  {
    var w1 := SpawnSpec(w, now, rolls);
    SpawnEffect(w, now, rolls);
    var w2 := UpdateOrbsSpec(w1, now);
    UpdateOrbsRemoves(w1, now);
    var w5 := UpdateParticlesSpec(UpdatePowerUpsSpec(UpdateWheelsSpec(w2)));
    EntityUpdatesFrame(w2);
    LevelEffect(w5);
  }

  /**
   * One tick leaves the score and the achievements alone, never adds lives, raises the level
   * by at most one and only when the score has reached level*200, and then speeds every wheel
   * up by exactly 1.1; it only appends events and never lowers the high score.
   */
  lemma UpdateProgress(w: World, now: int, rolls: Rolls)
    requires w.stats.level >= 1 && RollsOk(rolls)
    ensures var r := UpdateSpec(w, now, rolls);
      var up := w.stats.score >= w.stats.level * LevelStep;
      && r.stats.score == w.stats.score
      && r.stats.lives <= w.stats.lives
      && r.stats.achievements == w.stats.achievements
      && r.stats.highScore >= w.stats.highScore
      && r.stats.level == w.stats.level + (if up then 1 else 0)
      && |r.wheels| == |w.wheels|
      && (forall i :: 0 <= i < |w.wheels| ==>
            r.wheels[i].rotationSpeed == (if up then 1.1 * w.wheels[i].rotationSpeed else w.wheels[i].rotationSpeed))
      && Extends(w, r)
  {
    var w1 := SpawnSpec(w, now, rolls);
    SpawnEffect(w, now, rolls);
    var w2 := UpdateOrbsSpec(w1, now);
    UpdateOrbsRemoves(w1, now);
    UpdateOrbsTrace(w1, now);
    var w5 := UpdateParticlesSpec(UpdatePowerUpsSpec(UpdateWheelsSpec(w2)));
    EntityUpdatesFrame(w2);
    LevelEffect(w5);
    var r := LevelSpec(w5);
    AppendEvents(w5, r, if w.stats.score >= w.stats.level * LevelStep then [LevelUp(r.stats.level)] else []);
    ExtendsCompose(w1, w5, r);
  }

  // ----- the frame loop and starting -----

  /** gameLoop never integrates more than 1/30 s and runs the update only while playing. */
  lemma LoopClamps(w: World, timestamp: real, now: int, rolls: Rolls)
    requires w.stats.level >= 1 && RollsOk(rolls)
    ensures LoopSpec(w, timestamp, now, rolls).deltaTime == ClampedDelta(w, timestamp) <= MaxDelta
    ensures LoopSpec(w, timestamp, now, rolls).lastFrameTime == timestamp
    ensures LoopSpec(w, timestamp, now, rolls).loopRunning
    ensures w.state != Playing ==>
      LoopSpec(w, timestamp, now, rolls) ==
        w.(deltaTime := ClampedDelta(w, timestamp), lastFrameTime := timestamp, loopRunning := true)
  {
    var w1 := w.(deltaTime := ClampedDelta(w, timestamp), lastFrameTime := timestamp);
    if w.state == Playing {
      UpdateClock(w1, now, rolls);
    }
  }

  lemma UpdateClock(w: World, now: int, rolls: Rolls)
    requires w.stats.level >= 1 && RollsOk(rolls)
    ensures SameClock(w, UpdateSpec(w, now, rolls))
  {
    var w1 := SpawnSpec(w, now, rolls);
    SpawnEffect(w, now, rolls);
    var w2 := UpdateOrbsSpec(w1, now);
    UpdateOrbsRemoves(w1, now);
    EntityUpdatesFrame(w2);
  }

  /** Freshly spawned entities sit at the spawn height with full lifetimes. */
  predicate JustSpawned(w: World) {
    && (forall i :: 0 <= i < |w.orbs| ==> w.orbs[i].position.y == SpawnY && w.orbs[i].lifetime == OrbLifetime)
    && (forall i :: 0 <= i < |w.powerUps| ==> !w.powerUps[i].isActive && w.powerUps[i].position.y == SpawnY)
  }

  lemma FirstSpawn(w: World, now: int, rolls: Rolls)
    requires RollsOk(rolls) && w.stats.level >= 1 && w.orbs == [] && w.powerUps == []
    ensures var r := SpawnSpec(w, now, rolls);
      && JustSpawned(r) && |r.orbs| <= 1 && |r.powerUps| <= 1
      && r.(orbs := w.orbs, powerUps := w.powerUps, lastOrbSpawn := w.lastOrbSpawn,
            lastPowerUpSpawn := w.lastPowerUpSpawn) == w
  {
    SpawnEffect(w, now, rolls);
  }

  /** With no time elapsed, no freshly spawned orb falls off or expires. */
  lemma ZeroOrbStep(w: World, now: int)
    requires w.deltaTime == 0.0 && w.height >= 0.0 && JustSpawned(w)
    ensures UpdateOrbsSpec(w, now) == w.(orbs := MovedOrbs(w.orbs, 0.0))
  {
    var moved := MovedOrbs(w.orbs, 0.0);
    assert forall i :: 0 <= i < |moved| ==> moved[i].position.y == SpawnY && moved[i].lifetime == OrbLifetime;
    FilterNonePass(moved, GoneTest(w.height));
    FilterAllPass(moved, StaysTest(w.height));
  }

  /** With no time elapsed, no freshly spawned power-up leaves and wheels keep their speed. */
  lemma ZeroEntityStep(w: World)
    requires w.deltaTime == 0.0 && w.height >= 0.0 && JustSpawned(w) && w.particles == []
    ensures var r := UpdateParticlesSpec(UpdatePowerUpsSpec(UpdateWheelsSpec(w)));
      && r.(wheels := w.wheels, powerUps := w.powerUps) == w
      && |r.powerUps| == |w.powerUps|
      && |r.wheels| == |w.wheels|
      && (forall i :: 0 <= i < |w.wheels| ==> r.wheels[i].rotationSpeed == w.wheels[i].rotationSpeed)
  {
    var pu := MovedPowerUps(w.powerUps, 0.0);
    assert forall i :: 0 <= i < |pu| ==> !pu[i].isActive && pu[i].position.y == SpawnY;
    FilterAllPass(pu, PowerUpStays(w.height));
    assert Filter(MovedParticles(w.particles, 0.0), ParticleAlive()) == [];
  }

  /** A zero-length frame right after a reset spawns at most one orb and one power-up and changes nothing else. */
  lemma FirstFrame(w: World, now: int, rolls: Rolls)
    requires RollsOk(rolls) && w.deltaTime == 0.0 && w.height >= 0.0
    requires w.orbs == [] && w.powerUps == [] && w.particles == []
    requires w.stats.score == 0 && w.stats.level == 1
    ensures var r := UpdateSpec(w, now, rolls);
      && r.state == w.state && r.stats == w.stats && r.storedHighScore == w.storedHighScore
      && SameClock(w, r)
      && |r.wheels| == |w.wheels|
      && (forall i :: 0 <= i < |w.wheels| ==> r.wheels[i].rotationSpeed == w.wheels[i].rotationSpeed)
      && r.particles == [] && |r.orbs| <= 1 && |r.powerUps| <= 1 && r.events == w.events
  {
    var w1 := SpawnSpec(w, now, rolls);
    FirstSpawn(w, now, rolls);
    var w2 := UpdateOrbsSpec(w1, now);
    ZeroOrbStep(w1, now);
    var w5 := UpdateParticlesSpec(UpdatePowerUpsSpec(UpdateWheelsSpec(w2)));
    ZeroEntityStep(w2);
    assert LevelSpec(w5) == w5;
  }

  /**
   * startGame resets score, lives, level and combo and enters PLAYING; it keeps the high
   * score, the stored score, the achievements and the wheel speeds. When a frame is already
   * pending it also leaves no orbs, power-ups or particles; on the very first start it runs
   * one frame of zero length, which may spawn one orb and one power-up and nothing else.
   */
  lemma StartGameResets(w: World, now: int, rolls: Rolls)
    requires Inv(w) && RollsOk(rolls)
    ensures var r := StartSpec(w, now, rolls);
      && Inv(r) && r.loopRunning == true
      && r.state == Playing
      && r.stats.score == 0 && r.stats.lives == InitialLives && r.stats.level == 1 && r.stats.combo == 0
      && r.stats.highScore == w.stats.highScore && r.storedHighScore == w.storedHighScore
      && r.stats.achievements == w.stats.achievements
      && |r.wheels| == |w.wheels|
      && (forall i :: 0 <= i < |w.wheels| ==> r.wheels[i].rotationSpeed == w.wheels[i].rotationSpeed)
      && r.particles == [] && |r.orbs| <= 1 && |r.powerUps| <= 1
      && r.events == w.events
      && (w.loopRunning ==> r == ResetSpec(w) && r.orbs == [] && r.powerUps == [])
  {
    if !w.loopRunning {
      var r0 := ResetSpec(w);
      var w1 := r0.(deltaTime := ClampedDelta(r0, 0.0), lastFrameTime := 0.0);
      assert w1.deltaTime == 0.0;
      FirstFrame(w1, now, rolls);
      var r1 := UpdateSpec(w1, now, rolls);
      assert forall i :: 0 <= i < |r1.wheels| ==> WheelShaped(r1.wheels[i]) by {
        UpdateKeepsWellformed(w1, now, rolls);
      }
    }
  }

  // ----- taps -----

  /** A tap that touches no orb changes nothing. */
  lemma TapNoOrb(w: World, input: TouchInput, now: int)
    requires Wellformed(w)
    requires forall j :: 0 <= j < |w.orbs| ==> !Touches(w.orbs[j], Vector2D(input.x, input.y))
    ensures TapSpec(w, input, now) == w
  {
    PickOrbSpec(w.orbs, Vector2D(input.x, input.y));
  }

  lemma PickOrbUnique(orbs: seq<GameOrb>, p: Vector2D, i: nat)
    requires i < |orbs| && Touches(orbs[i], p)
    requires forall j :: i < j < |orbs| ==> !Touches(orbs[j], p)
    ensures PickOrb(orbs, p) == Some(i)
  {
    PickOrbSpec(orbs, p);
  }

  /**
   * A tap on an orb that no wheel in reach matches: the last touched orb is removed by id,
   * the combo becomes 0, ORB_MISSED is emitted, and no life is lost.
   */
  lemma TapMiss(w: World, input: TouchInput, now: int, i: nat)
    requires Wellformed(w)
    requires i < |w.orbs| && Touches(w.orbs[i], Vector2D(input.x, input.y))
    requires forall j :: i < j < |w.orbs| ==> !Touches(w.orbs[j], Vector2D(input.x, input.y))
    requires forall k :: 0 <= k < |w.wheels| ==> !WheelMatches(w.wheels[k], w.orbs[i], Vector2D(input.x, input.y))
    ensures var r := TapSpec(w, input, now);
      && r.stats.combo == 0 && r.stats.lives == w.stats.lives && r.stats.score == w.stats.score
      && r.orbs == Filter(w.orbs, OtherId(w.orbs[i].id))
      && r.events == w.events + [OrbMissed(w.orbs[i])]
      && r.particles == w.particles + MissBurst(w.orbs[i].position, now)
      && r.state == w.state && r.wheels == w.wheels
      && r.stats.achievements == w.stats.achievements
      && ((forall a, b :: 0 <= a < b < |w.orbs| ==> w.orbs[a].id != w.orbs[b].id) ==>
            r.orbs == w.orbs[..i] + w.orbs[i + 1..])
  {
    var p := Vector2D(input.x, input.y);
    PickOrbUnique(w.orbs, p, i);
    MatchWheelSpec(w.wheels, w.orbs[i], p);
    if forall a, b :: 0 <= a < b < |w.orbs| ==> w.orbs[a].id != w.orbs[b].id {
      RemoveByIdExact(w.orbs, i);
    }
  }

  /**
   * A tap on an orb that the first wheel `k` matches: exactly the success effect of that orb
   * and that wheel.
   */
  lemma TapMatch(w: World, input: TouchInput, now: int, i: nat, k: nat)
    requires Wellformed(w)
    requires i < |w.orbs| && Touches(w.orbs[i], Vector2D(input.x, input.y))
    requires forall j :: i < j < |w.orbs| ==> !Touches(w.orbs[j], Vector2D(input.x, input.y))
    requires k < |w.wheels| && WheelMatches(w.wheels[k], w.orbs[i], Vector2D(input.x, input.y))
    requires forall j :: 0 <= j < k ==> !WheelMatches(w.wheels[j], w.orbs[i], Vector2D(input.x, input.y))
    ensures TapSpec(w, input, now) == SuccessSpec(w, w.orbs[i], w.wheels[k], now)
  {
    var p := Vector2D(input.x, input.y);
    PickOrbUnique(w.orbs, p, i);
    MatchWheelFirst(w.wheels, w.orbs[i], p, k);
  }

  /**
   * The whole effect of a tap that selects orb `i` and is matched by wheel `k`: exactly that
   * orb leaves (orb ids being distinct), the combo grows by one, the score by the points
   * of the new combo, and ORB_MATCHED with that orb, wheel and points is the first new event.
   */
  lemma TapMatchEffect(w: World, input: TouchInput, now: int, i: nat, k: nat)
    requires Wellformed(w)
    requires forall a, b :: 0 <= a < b < |w.orbs| ==> w.orbs[a].id != w.orbs[b].id
    requires i < |w.orbs| && Touches(w.orbs[i], Vector2D(input.x, input.y))
    requires forall j :: i < j < |w.orbs| ==> !Touches(w.orbs[j], Vector2D(input.x, input.y))
    requires k < |w.wheels| && WheelMatches(w.wheels[k], w.orbs[i], Vector2D(input.x, input.y))
    requires forall j :: 0 <= j < k ==> !WheelMatches(w.wheels[j], w.orbs[i], Vector2D(input.x, input.y))
    ensures var r := TapSpec(w, input, now);
      var points := Points(w.stats.combo + 1);
      && r.orbs == w.orbs[..i] + w.orbs[i + 1..]
      && r.stats.combo == w.stats.combo + 1
      && r.stats.score == w.stats.score + points
      && r.stats.lives == w.stats.lives
      && Extends(w, r) && |Appended(w, r)| >= 1
      && Appended(w, r)[0] == OrbMatched(w.orbs[i], w.wheels[k], points)
  {
    TapMatch(w, input, now, i, k);
    SuccessEffect(w, w.orbs[i], w.wheels[k], now);
    RemoveByIdExact(w.orbs, i);
  }

  lemma MatchWheelFirst(ws: seq<ColorWheel>, o: GameOrb, p: Vector2D, k: nat)
    requires forall i :: 0 <= i < |ws| ==> WheelShaped(ws[i])
    requires k < |ws| && WheelMatches(ws[k], o, p)
    requires forall j :: 0 <= j < k ==> !WheelMatches(ws[j], o, p)
    ensures MatchWheel(ws, o, p) == Some(k)
  {
    MatchWheelSpec(ws, o, p);
  }

  /**
   * The scoring half of a successful match: combo + 1, score + Points(new combo), that orb
   * removed by id, the explosion burst, and one ORB_MATCHED carrying the points.
   */
  lemma ScoreMatchEffect(w: World, o: GameOrb, wheel: ColorWheel, now: int)
    requires w.stats.combo >= 0
    ensures var r := ScoreMatch(w, o, wheel, now);
      var points := Points(w.stats.combo + 1);
      && r.stats.combo == w.stats.combo + 1
      && r.stats.score == w.stats.score + points
      && r.orbs == Filter(w.orbs, OtherId(o.id))
      && r.particles == w.particles + ExplosionBurst(o.position, o.color, now)
      && SameScene(w, r) && r.state == w.state && r.storedHighScore == w.storedHighScore
      && r.stats.lives == w.stats.lives && r.stats.highScore == w.stats.highScore
      && r.stats.achievements == w.stats.achievements
      && Extends(w, r) && Appended(w, r) == [OrbMatched(o, wheel, points)]
  {
    AppendEvents(w, ScoreMatch(w, o, wheel, now), [OrbMatched(o, wheel, Points(w.stats.combo + 1))]);
  }

  /**
   * A successful match: the scoring half, then only achievement unlocks; lives, level,
   * state, wheels and the high score are untouched and no achievement is locked again.
   */
  lemma SuccessEffect(w: World, o: GameOrb, wheel: ColorWheel, now: int)
    requires w.stats.combo >= 0
    ensures var r := SuccessSpec(w, o, wheel, now);
      var points := Points(w.stats.combo + 1);
      && r.stats.combo == w.stats.combo + 1
      && r.stats.score == w.stats.score + points
      && r.orbs == Filter(w.orbs, OtherId(o.id))
      && r.particles == w.particles + ExplosionBurst(o.position, o.color, now)
      && SameScene(w, r) && r.state == w.state && r.storedHighScore == w.storedHighScore
      && r.stats.lives == w.stats.lives && r.stats.highScore == w.stats.highScore
      && NoRelock(w.stats.achievements, r.stats.achievements)
      && Extends(w, r) && |Appended(w, r)| >= 1
      && Appended(w, r)[0] == OrbMatched(o, wheel, points)
      && (forall e :: e in Appended(w, r)[1..] ==> e.AchievementUnlocked?)
      && (Catalogued(w.stats.achievements) ==> IsUnlocked(r.stats.achievements, "first_match"))
  {
    if Catalogued(w.stats.achievements) {
      MatchUnlocks(w, o, wheel, now);
    }
    var w2 := ScoreMatch(w, o, wheel, now);
    ScoreMatchEffect(w, o, wheel, now);
    AchievementsEffect(w2);
    var r := AchievementsSpec(w2);
    assert UnlockStep(w2, r);
    ExtendsCompose(w, w2, r);
    assert Appended(w, r)[1..] == Appended(w2, r);
  }

  /** Tap resolution never costs a life, never lowers the score or the level, and keeps the state well formed. */
  lemma TapEffect(w: World, input: TouchInput, now: int)
    requires Wellformed(w)
    ensures var r := TapSpec(w, input, now);
      && Wellformed(r)
      && r.stats.lives == w.stats.lives && r.stats.level == w.stats.level
      && r.stats.score >= w.stats.score && r.state == w.state && r.wheels == w.wheels
      && r.stats.highScore == w.stats.highScore && r.powerUps == w.powerUps
      && NoRelock(w.stats.achievements, r.stats.achievements)
      && Extends(w, r)
      && |r.orbs| <= |w.orbs|
  {
    var p := Vector2D(input.x, input.y);
    PickOrbSpec(w.orbs, p);
    match PickOrb(w.orbs, p)
    case None =>
    case Some(i) =>
      var o := w.orbs[i];
      MatchWheelSpec(w.wheels, o, p);
      FilterSound(w.orbs, OtherId(o.id));
      match MatchWheel(w.wheels, o, p)
      case Some(k) =>
        SuccessEffect(w, o, w.wheels[k], now);
      case None =>
        AppendEvents(w, MissedSpec(w, o, now), [OrbMissed(o)]);
  }

  // ----- achievements -----

  /** Only the unlocked flags may differ, and only from false to true. */
  predicate NoRelock(a: seq<Achievement>, b: seq<Achievement>) {
    && |a| == |b|
    && forall i :: 0 <= i < |a| ==>
         (a[i].unlocked ==> b[i].unlocked) && b[i].(unlocked := a[i].unlocked) == a[i]
  }

  /** Number of achievements whose flag went from false to true. */
  function Flips(a: seq<Achievement>, b: seq<Achievement>): nat
    requires |a| == |b|
  {
    if a == [] then 0
    else Flips(a[..|a| - 1], b[..|b| - 1]) + (if !a[|a| - 1].unlocked && b[|b| - 1].unlocked then 1 else 0)
  }

  lemma {:induction false} FlipsNone(a: seq<Achievement>)
    ensures Flips(a, a) == 0
  {
    if a != [] { FlipsNone(a[..|a| - 1]); }
  }

  /** Setting one locked flag is exactly one flip. */
  lemma {:induction false} FlipsOne(a: seq<Achievement>, i: nat)
    requires i < |a| && !a[i].unlocked
    ensures Flips(a, a[i := a[i].(unlocked := true)]) == 1
  {
    var b := a[i := a[i].(unlocked := true)];
    var n := |a| - 1;
    if i == n {
      assert b[..n] == a[..n];
      FlipsNone(a[..n]);
    } else {
      assert b[..n] == a[..n][i := a[i].(unlocked := true)];
      FlipsOne(a[..n], i);
    }
  }

  /** Flips add up along two steps that lock nothing again. */
  lemma {:induction false} FlipsCompose(a: seq<Achievement>, b: seq<Achievement>, c: seq<Achievement>)
    requires NoRelock(a, b) && NoRelock(b, c)
    ensures NoRelock(a, c)
    ensures Flips(a, c) == Flips(a, b) + Flips(b, c)
  {
    if a != [] {
      var n := |a| - 1;
      FlipsCompose(a[..n], b[..n], c[..n]);
    }
  }

  /**
   * What an achievement step may do: set flags from false to true and nothing else,
   * appending one ACHIEVEMENT_UNLOCKED per flag it sets and no other event.
   */
  predicate UnlockStep(w: World, r: World) {
    && NoRelock(w.stats.achievements, r.stats.achievements)
    && OnlyAchievements(w, r)
    && Extends(w, r)
    && |Appended(w, r)| == Flips(w.stats.achievements, r.stats.achievements)
    && (forall e :: e in Appended(w, r) ==> e.AchievementUnlocked?)
  }

  lemma UnlockStepCompose(a: World, b: World, c: World)
    requires UnlockStep(a, b) && UnlockStep(b, c)
    ensures UnlockStep(a, c)
  {
    FlipsCompose(a.stats.achievements, b.stats.achievements, c.stats.achievements);
    ExtendsCompose(a, b, c);
  }

  /**
   * unlockAchievement: the event is emitted exactly when a flag flips from false to true,
   * it carries the now unlocked achievement with that id, and nothing else changes.
   */
  lemma UnlockEffect(w: World, id: string)
    ensures var r := UnlockSpec(w, id);
      && UnlockStep(w, r)
      && Flips(w.stats.achievements, r.stats.achievements) <= 1
      && (forall e :: e in Appended(w, r) ==> e.achievement.unlocked && e.achievement.id == id)
      && match FindAchievement(w.stats.achievements, id)
         case Some(i) =>
           if !w.stats.achievements[i].unlocked then
             && r.stats.achievements[i].unlocked
             && Appended(w, r) == [AchievementUnlocked(w.stats.achievements[i].(unlocked := true))]
           else r == w
         case None => r == w
  {
    var achs := w.stats.achievements;
    match FindAchievement(achs, id)
    case Some(i) =>
      if !achs[i].unlocked {
        FlipsOne(achs, i);
        var a := achs[i].(unlocked := true);
        AppendEvents(w, UnlockSpec(w, id), [AchievementUnlocked(a)]);
      } else {
        FlipsNone(achs);
      }
    case None =>
      FlipsNone(achs);
  }

  lemma CheckUnlockEffect(w: World, cond: bool, id: string)
    ensures UnlockStep(w, CheckUnlock(w, cond, id))
  {
    if cond && !IsUnlocked(w.stats.achievements, id) {
      UnlockEffect(w, id);
    } else {
      FlipsNone(w.stats.achievements);
    }
  }

  /**
   * checkAchievements: flags only go from false to true, one ACHIEVEMENT_UNLOCKED per flip
   * and no other event, and nothing outside the achievements and the trace changes.
   */
  lemma AchievementsEffect(w: World)
    ensures UnlockStep(w, AchievementsSpec(w))
  {
    var w1 := CheckUnlock(w, w.stats.combo >= 1, "first_match");
    var w2 := CheckUnlock(w1, w1.stats.combo >= 5, "combo_5");
    var w3 := CheckUnlock(w2, w2.stats.level >= 5, "level_5");
    var r := CheckUnlock(w3, w3.stats.score >= 1000, "score_1000");
    CheckUnlockEffect(w, w.stats.combo >= 1, "first_match");
    CheckUnlockEffect(w1, w1.stats.combo >= 5, "combo_5");
    CheckUnlockEffect(w2, w2.stats.level >= 5, "level_5");
    CheckUnlockEffect(w3, w3.stats.score >= 1000, "score_1000");
    UnlockStepCompose(w, w1, w2);
    UnlockStepCompose(w, w2, w3);
    UnlockStepCompose(w, w3, r);
  }

  /** Achievement steps never move an id, so a catalogued list stays catalogued. */
  lemma NoRelockKeepsIds(a: seq<Achievement>, b: seq<Achievement>)
    requires NoRelock(a, b)
    ensures SameIds(a, b)
    ensures Catalogued(a) ==> Catalogued(b)
  {
    assert forall i :: 0 <= i < |a| ==> b[i].(unlocked := a[i].unlocked).id == b[i].id;
  }

  /** On a catalogued list, `find` locates each catalogue id at its catalogue index. */
  lemma CataloguedFinds(achs: seq<Achievement>)
    requires Catalogued(achs)
    ensures FindAchievement(achs, "first_match") == Some(0)
    ensures FindAchievement(achs, "combo_5") == Some(1)
    ensures FindAchievement(achs, "level_5") == Some(2)
    ensures FindAchievement(achs, "score_1000") == Some(3)
    ensures FindAchievement(achs, "perfect_game") == Some(4)
  {
    assert achs[1..][1..][1..][1..][0] == achs[4];
  }

  /**
   * A guarded unlock of the entry `find` locates at `k`: that flag ends up set exactly when
   * it was set already or the condition held; every other entry, every id and the counters stay.
   */
  lemma CheckUnlockAt(w: World, cond: bool, id: string, k: nat)
    requires FindAchievement(w.stats.achievements, id) == Some(k)
    ensures var a, r := w.stats.achievements, CheckUnlock(w, cond, id);
      var b := r.stats.achievements;
      && r.stats.combo == w.stats.combo && r.stats.level == w.stats.level && r.stats.score == w.stats.score
      && |b| == |a| && k < |a|
      && (b[k].unlocked <==> a[k].unlocked || cond) && b[k].id == a[k].id
      && forall j :: 0 <= j < |a| && j != k ==> b[j] == a[j]
  {
  }

  /** The first two unlocks of checkAchievements, stated on catalogue indices. */
  lemma FirstTwoUnlocks(w: World)
    requires Catalogued(w.stats.achievements)
    ensures var w1 := CheckUnlock(w, w.stats.combo >= 1, "first_match");
      var r := CheckUnlock(w1, w1.stats.combo >= 5, "combo_5");
      var a, b := w.stats.achievements, r.stats.achievements;
      && Catalogued(b)
      && r.stats.combo == w.stats.combo && r.stats.level == w.stats.level && r.stats.score == w.stats.score
      && (b[0].unlocked <==> a[0].unlocked || w.stats.combo >= 1)
      && (b[1].unlocked <==> a[1].unlocked || w.stats.combo >= 5)
      && b[2].unlocked == a[2].unlocked && b[3].unlocked == a[3].unlocked && b[4].unlocked == a[4].unlocked
  {
    var w1 := CheckUnlock(w, w.stats.combo >= 1, "first_match");
    CataloguedFinds(w.stats.achievements);
    CheckUnlockAt(w, w.stats.combo >= 1, "first_match", 0);
    CataloguedFinds(w1.stats.achievements);
    CheckUnlockAt(w1, w1.stats.combo >= 5, "combo_5", 1);
  }

  /** The last two unlocks of checkAchievements, stated on catalogue indices. */
  lemma LastTwoUnlocks(w: World)
    requires Catalogued(w.stats.achievements)
    ensures var w1 := CheckUnlock(w, w.stats.level >= 5, "level_5");
      var r := CheckUnlock(w1, w1.stats.score >= 1000, "score_1000");
      var a, b := w.stats.achievements, r.stats.achievements;
      && Catalogued(b)
      && b[0].unlocked == a[0].unlocked && b[1].unlocked == a[1].unlocked
      && (b[2].unlocked <==> a[2].unlocked || w.stats.level >= 5)
      && (b[3].unlocked <==> a[3].unlocked || w.stats.score >= 1000)
      && b[4].unlocked == a[4].unlocked
  {
    var w1 := CheckUnlock(w, w.stats.level >= 5, "level_5");
    CataloguedFinds(w.stats.achievements);
    CheckUnlockAt(w, w.stats.level >= 5, "level_5", 2);
    CataloguedFinds(w1.stats.achievements);
    CheckUnlockAt(w1, w1.stats.score >= 1000, "score_1000", 3);
  }

  /** checkAchievements on catalogue indices 0 to 4. */
  lemma AchievementsUnlockAt(w: World)
    requires Catalogued(w.stats.achievements)
    ensures var a, b := w.stats.achievements, AchievementsSpec(w).stats.achievements;
      && Catalogued(b)
      && (b[0].unlocked <==> a[0].unlocked || w.stats.combo >= 1)
      && (b[1].unlocked <==> a[1].unlocked || w.stats.combo >= 5)
      && (b[2].unlocked <==> a[2].unlocked || w.stats.level >= 5)
      && (b[3].unlocked <==> a[3].unlocked || w.stats.score >= 1000)
      && b[4].unlocked == a[4].unlocked
  {
    var w1 := CheckUnlock(w, w.stats.combo >= 1, "first_match");
    var w2 := CheckUnlock(w1, w1.stats.combo >= 5, "combo_5");
    FirstTwoUnlocks(w);
    LastTwoUnlocks(w2);
    var w3 := CheckUnlock(w2, w2.stats.level >= 5, "level_5");
    var r := CheckUnlock(w3, w3.stats.score >= 1000, "score_1000");
    assert AchievementsSpec(w) == r;
  }

  /**
   * checkAchievements on the catalogue: first_match ends up unlocked exactly when it was or
   * the combo is at least 1, combo_5 when the combo is at least 5, level_5 when the level is
   * at least 5, score_1000 when the score is at least 1000; perfect_game never changes.
   */
  lemma AchievementsUnlocks(w: World)
    requires Catalogued(w.stats.achievements)
    ensures var a, b := w.stats.achievements, AchievementsSpec(w).stats.achievements;
      && Catalogued(b)
      && (IsUnlocked(b, "first_match") <==> IsUnlocked(a, "first_match") || w.stats.combo >= 1)
      && (IsUnlocked(b, "combo_5") <==> IsUnlocked(a, "combo_5") || w.stats.combo >= 5)
      && (IsUnlocked(b, "level_5") <==> IsUnlocked(a, "level_5") || w.stats.level >= 5)
      && (IsUnlocked(b, "score_1000") <==> IsUnlocked(a, "score_1000") || w.stats.score >= 1000)
      && (IsUnlocked(b, "perfect_game") <==> IsUnlocked(a, "perfect_game"))
  {
    AchievementsUnlockAt(w);
    CataloguedFlags(w.stats.achievements);
    CataloguedFlags(AchievementsSpec(w).stats.achievements);
  }

  /** On a catalogued list, "is unlocked" reads the flag at the catalogue index. */
  lemma CataloguedFlags(achs: seq<Achievement>)
    requires Catalogued(achs)
    ensures IsUnlocked(achs, "first_match") == achs[0].unlocked
    ensures IsUnlocked(achs, "combo_5") == achs[1].unlocked
    ensures IsUnlocked(achs, "level_5") == achs[2].unlocked
    ensures IsUnlocked(achs, "score_1000") == achs[3].unlocked
    ensures IsUnlocked(achs, "perfect_game") == achs[4].unlocked
  {
    CataloguedFinds(achs);
  }

  /**
   * What a successful match unlocks, on the catalogue: first_match always; combo_5 once the
   * new combo reaches 5; level_5 only if the level is already 5; score_1000 once the new
   * score reaches 1000; never perfect_game. Otherwise each flag stays as it was.
   */
  lemma MatchUnlocks(w: World, o: GameOrb, wheel: ColorWheel, now: int)
    requires w.stats.combo >= 0 && Catalogued(w.stats.achievements)
    ensures var a, b := w.stats.achievements, SuccessSpec(w, o, wheel, now).stats.achievements;
      var combo := w.stats.combo + 1;
      && Catalogued(b)
      && IsUnlocked(b, "first_match")
      && (IsUnlocked(b, "combo_5") <==> IsUnlocked(a, "combo_5") || combo >= 5)
      && (IsUnlocked(b, "level_5") <==> IsUnlocked(a, "level_5") || w.stats.level >= 5)
      && (IsUnlocked(b, "score_1000") <==> IsUnlocked(a, "score_1000") || w.stats.score + Points(combo) >= 1000)
      && (IsUnlocked(b, "perfect_game") <==> IsUnlocked(a, "perfect_game"))
  {
    ScoreMatchEffect(w, o, wheel, now);
    AchievementsUnlocks(ScoreMatch(w, o, wheel, now));
  }

  // ----- input routing and the invariant -----

  /** handleInput ignores every pointer event while paused. */
  lemma InputIgnoredWhilePaused(w: World, input: TouchInput, now: int, rolls: Rolls)
    requires Wellformed(w) && RollsOk(rolls) && w.state == Paused
    ensures HandleInputSpec(w, input, now, rolls) == w
  {
  }

  /** The frame loop keeps the invariant. */
  lemma LoopKeepsInv(w: World, timestamp: real, now: int, rolls: Rolls)
    requires Inv(w) && RollsOk(rolls)
    ensures Inv(LoopSpec(w, timestamp, now, rolls))
  {
    var w1 := w.(deltaTime := ClampedDelta(w, timestamp), lastFrameTime := timestamp);
    if w.state == Playing {
      UpdateKeepsWellformed(w1, now, rolls);
    }
  }

  /** Pointer input keeps the invariant, so at most 8 orbs are ever live. */
  lemma HandleInputKeepsInv(w: World, input: TouchInput, now: int, rolls: Rolls)
    requires Inv(w) && RollsOk(rolls)
    ensures Inv(HandleInputSpec(w, input, now, rolls))
    ensures |HandleInputSpec(w, input, now, rolls).orbs| <= MaxOnScreen
  {
    if w.state == Playing {
      TapEffect(w, input, now);
      var r := TapSpec(w, input, now);
      assert SameClock(w, r) by {
        TapClock(w, input, now);
      }
    } else if w.state == Menu || w.state == GameState.GameOver {
      StartGameResets(w, now, rolls);
    }
  }

  lemma TapClock(w: World, input: TouchInput, now: int)
    requires Wellformed(w)
    ensures SameClock(w, TapSpec(w, input, now))
  {
    var p := Vector2D(input.x, input.y);
    PickOrbSpec(w.orbs, p);
    match PickOrb(w.orbs, p)
    case None =>
    case Some(i) =>
      var o := w.orbs[i];
      MatchWheelSpec(w.wheels, o, p);
      match MatchWheel(w.wheels, o, p)
      case Some(k) =>
        SuccessEffect(w, o, w.wheels[k], now);
      case None =>
  }

  /** The catalogue's ids stay in place through every frame and every input. */
  lemma LoopKeepsCatalogue(w: World, timestamp: real, now: int, rolls: Rolls)
    requires Inv(w) && RollsOk(rolls) && Catalogued(w.stats.achievements)
    ensures Catalogued(LoopSpec(w, timestamp, now, rolls).stats.achievements)
  {
    var w1 := w.(deltaTime := ClampedDelta(w, timestamp), lastFrameTime := timestamp);
    if w.state == Playing {
      UpdateProgress(w1, now, rolls);
    }
  }

  lemma InputKeepsCatalogue(w: World, input: TouchInput, now: int, rolls: Rolls)
    requires Inv(w) && RollsOk(rolls) && Catalogued(w.stats.achievements)
    ensures Catalogued(HandleInputSpec(w, input, now, rolls).stats.achievements)
  {
    if w.state == Playing {
      TapEffect(w, input, now);
      NoRelockKeepsIds(w.stats.achievements, TapSpec(w, input, now).stats.achievements);
    } else if w.state == Menu || w.state == GameState.GameOver {
      StartGameResets(w, now, rolls);
    }
  }

  /** pauseGame keeps the invariant. */
  lemma PauseKeepsInv(w: World)
    requires Inv(w)
    ensures Inv(PauseSpec(w))
  {
  }
}
