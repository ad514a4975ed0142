/**
 * Per-entity rules of the engine: how one tick moves an orb, a power-up or a
 * particle (updateOrbs, updatePowerUps, updateParticles), which entities an
 * update removes (the `filter` reassignments), how new entities and effect
 * bursts are built (spawnOrb, spawnPowerUp, createMatchEffect, createMissEffect),
 * and the two searches of tap resolution (checkOrbTap, checkOrbWheelMatch).
 * All line numbers refer to src/lib/gameEngine.ts.
 */
module Entities {
  import opened GameTypes
  import opened Scoring

  // ----- filtering (Array.prototype.filter) -----

  /** The elements of `s` that satisfy `keep`, in their original order. */
  function Filter<T>(s: seq<T>, keep: T -> bool): seq<T> {
    if s == [] then []
    else Filter(s[..|s| - 1], keep) + (if keep(s[|s| - 1]) then [s[|s| - 1]] else [])
  }

  /** A filter keeps only elements that pass, drops only elements that fail, and adds nothing. */
  lemma {:induction false} FilterSound<T>(s: seq<T>, keep: T -> bool)
    ensures |Filter(s, keep)| <= |s|
    ensures forall i :: 0 <= i < |Filter(s, keep)| ==> keep(Filter(s, keep)[i])
    ensures multiset(Filter(s, keep)) <= multiset(s)
    ensures forall x :: x in s && keep(x) ==> x in Filter(s, keep)
  {
    if s != [] {
      var init, last := s[..|s| - 1], s[|s| - 1];
      assert s == init + [last];
      FilterSound(init, keep);
    }
  }

  /** Two complementary filters split a sequence: every element lands in exactly one of them. */
  lemma {:induction false} FilterSplit<T>(s: seq<T>, keep: T -> bool, drop: T -> bool)
    requires forall x :: drop(x) == !keep(x)
    ensures |Filter(s, keep)| + |Filter(s, drop)| == |s|
    ensures multiset(Filter(s, keep)) + multiset(Filter(s, drop)) == multiset(s)
  {
    if s != [] {
      var init, last := s[..|s| - 1], s[|s| - 1];
      assert s == init + [last];
      FilterSplit(init, keep, drop);
    }
  }

  /** Filtering with a test every element passes changes nothing. */
  lemma {:induction false} FilterAllPass<T>(s: seq<T>, keep: T -> bool)
    requires forall i :: 0 <= i < |s| ==> keep(s[i])
    ensures Filter(s, keep) == s
  {
    if s != [] {
      var init := s[..|s| - 1];
      assert s == init + [s[|s| - 1]];
      FilterAllPass(init, keep);
    }
  }

  /** Filtering with a test no element passes leaves nothing. */
  lemma {:induction false} FilterNonePass<T>(s: seq<T>, keep: T -> bool)
    requires forall i :: 0 <= i < |s| ==> !keep(s[i])
    ensures Filter(s, keep) == []
  {
    if s != [] {
      FilterNonePass(s[..|s| - 1], keep);
    }
  }

  // ----- orbs (lines 258-274, 293-323) -----

  /** One tick of gravity, speed cap, movement and lifetime countdown for one orb. */
  function StepOrb(o: GameOrb, dt: real): GameOrb {
    var vy := Min(o.velocity.y + Gravity * dt, MaxVelocity);
    o.(velocity := Vector2D(o.velocity.x, vy),
       position := Vector2D(o.position.x + o.velocity.x * dt, o.position.y + vy * dt),
       lifetime := o.lifetime - dt * 1000.0)
  }

  function MovedOrbs(s: seq<GameOrb>, dt: real): seq<GameOrb> {
    seq(|s|, i requires 0 <= i < |s| => StepOrb(s[i], dt))
  }

  /** The test that selects `orbsToRemove`: below the play area or expired. */
  function GoneTest(height: real): GameOrb -> bool {
    (o: GameOrb) => o.position.y > height + OffscreenMargin || o.lifetime <= 0.0
  }

  /** The test of the filter that rebuilds `this.orbs`. */
  function StaysTest(height: real): GameOrb -> bool {
    (o: GameOrb) => o.position.y <= height + OffscreenMargin && o.lifetime > 0.0
  }

  /** The orbs a tick removes and the orbs it keeps partition the moved orbs. */
  lemma OrbsPartition(s: seq<GameOrb>, height: real)
    ensures |Filter(s, StaysTest(height))| + |Filter(s, GoneTest(height))| == |s|
    ensures multiset(Filter(s, StaysTest(height))) + multiset(Filter(s, GoneTest(height))) == multiset(s)
    ensures forall i :: 0 <= i < |Filter(s, StaysTest(height))| ==>
      !GoneTest(height)(Filter(s, StaysTest(height))[i])
  {
    FilterSplit(s, StaysTest(height), GoneTest(height));
    FilterSound(s, StaysTest(height));
  }

  /** The orb spawnOrb pushes. */
  function NewOrb(id: string, xRoll: real, colorRoll: real, width: real, level: int): (o: GameOrb)
    requires 0.0 <= xRoll < 1.0 && 0.0 <= colorRoll < 1.0
    ensures o.color in Palette
    ensures width >= 60.0 ==> 30.0 <= o.position.x <= width - 30.0
    ensures o.lifetime == o.maxLifetime == OrbLifetime
  {
    var ci := PickIndex(colorRoll, |Palette|);
    GameOrb(id, Vector2D(SpawnX(xRoll, width, 30.0), SpawnY), Vector2D(0.0, BaseSpeed * level as real),
            Palette[ci], OrbRadius, OrbLifetime, OrbLifetime)
  }

  /** `Math.floor(Math.random() * n)`: a uniform pick is always a valid index. */
  function PickIndex(roll: real, n: nat): (i: nat)
    requires 0.0 <= roll < 1.0 && n > 0
    ensures i < n
  {
    ScaleUnit(roll, n as real);
    assert roll * n as real < n as real by {
      assert n as real - roll * n as real == (1.0 - roll) * n as real;
    }
    (roll * n as real).Floor
  }

  /** `Math.random() * (width - 2 * margin) + margin`: inside the margins of a wide enough canvas. */
  function SpawnX(roll: real, width: real, margin: real): (x: real)
    requires 0.0 <= roll < 1.0
    ensures width >= 2.0 * margin ==> margin <= x <= width - margin
  {
    var span := width - 2.0 * margin;
    var offset := roll * span;
    ScaleUnit(roll, span);
    assert span >= 0.0 ==> 0.0 <= offset <= span;
    offset + margin
  }

  lemma ScaleUnit(r: real, a: real)
    requires 0.0 <= r < 1.0
    ensures a >= 0.0 ==> 0.0 <= r * a <= a
  {
    assert a - r * a == (1.0 - r) * a;
  }

  // ----- power-ups (lines 276-291, 331-345) -----

  function StepPowerUp(p: PowerUp, dt: real): PowerUp {
    if !p.isActive then p.(position := p.position.(y := p.position.y + PowerUpFallSpeed * dt))
    else p.(duration := p.duration - dt * 1000.0)
  }

  function MovedPowerUps(s: seq<PowerUp>, dt: real): seq<PowerUp> {
    seq(|s|, i requires 0 <= i < |s| => StepPowerUp(s[i], dt))
  }

  /** Inactive power-ups stay while on screen, active ones while their duration lasts. */
  function PowerUpStays(height: real): PowerUp -> bool {
    (p: PowerUp) => (!p.isActive && p.position.y <= height + OffscreenMargin) || (p.isActive && p.duration > 0.0)
  }

  function PowerUpKinds(): seq<PowerUpType> {
    [TimeSlow, ColorReveal, ExtraLife, ScoreMultiplier]
  }

  /** The power-up spawnPowerUp pushes: always inactive, full duration. */
  function NewPowerUp(now: int, typeRoll: real, xRoll: real, width: real): (p: PowerUp)
    requires 0.0 <= typeRoll < 1.0 && 0.0 <= xRoll < 1.0
    ensures !p.isActive && p.duration == p.maxDuration == PowerUpDuration
    ensures p.kind in PowerUpKinds()
  {
    var ti := PickIndex(typeRoll, |PowerUpKinds()|);
    PowerUp(now, PowerUpKinds()[ti], Vector2D(SpawnX(xRoll, width, 20.0), SpawnY),
            PowerUpDuration, PowerUpDuration, false)
  }

  // ----- particles (lines 347-356, 427-464) -----

  function StepParticle(p: ParticleEffect, dt: real): ParticleEffect {
    p.(position := Vector2D(p.position.x + p.velocity.x * dt, p.position.y + p.velocity.y * dt),
       lifetime := p.lifetime - dt * 1000.0,
       size := p.size * ParticleShrink)
  }

  function MovedParticles(s: seq<ParticleEffect>, dt: real): seq<ParticleEffect> {
    seq(|s|, i requires 0 <= i < |s| => StepParticle(s[i], dt))
  }

  function ParticleAlive(): ParticleEffect -> bool {
    (p: ParticleEffect) => p.lifetime > 0.0
  }

  /** Particle `i` of the burst createMatchEffect spawns (velocity not modelled). */
  function ExplosionParticle(pos: Vector2D, color: string, now: int, i: nat): ParticleEffect {
    ParticleEffect(ParticleId(now, i), pos, Vector2D(0.0, 0.0), color, 8.0, 500.0, 500.0, Explosion)
  }

  function ExplosionBurst(pos: Vector2D, color: string, now: int): seq<ParticleEffect> {
    seq(8, i requires 0 <= i < 8 => ExplosionParticle(pos, color, now, i))
  }

  /** Particle `i` of the burst createMissEffect spawns (random velocity not modelled). */
  function MissParticle(pos: Vector2D, now: int, i: nat): ParticleEffect {
    ParticleEffect(ParticleId(now, i), pos, Vector2D(0.0, 0.0), MissColor, 6.0, 300.0, 300.0, Miss)
  }

  function MissBurst(pos: Vector2D, now: int): seq<ParticleEffect> {
    seq(4, i requires 0 <= i < 4 => MissParticle(pos, now, i))
  }

  // ----- wheels (lines 325-329, 473-475) -----

  /** The shape every wheel has: a positive segment count and one colour per segment. */
  predicate WheelShaped(w: ColorWheel) {
    0 < w.segments == |w.colors|
  }

  function SpinWheels(ws: seq<ColorWheel>, dt: real): seq<ColorWheel> {
    seq(|ws|, i requires 0 <= i < |ws| => ws[i].(rotation := ws[i].rotation + ws[i].rotationSpeed * dt))
  }

  function SpeedUpWheels(ws: seq<ColorWheel>): seq<ColorWheel> {
    seq(|ws|, i requires 0 <= i < |ws| => ws[i].(rotationSpeed := ws[i].rotationSpeed * SpeedUp))
  }

  /** A level-up scales every wheel's speed by exactly 1.1, keeps its sign and touches nothing else. */
  lemma SpeedUpScales(ws: seq<ColorWheel>)
    ensures |SpeedUpWheels(ws)| == |ws|
    ensures forall i :: 0 <= i < |ws| ==>
      && SpeedUpWheels(ws)[i].rotationSpeed == 1.1 * ws[i].rotationSpeed
      && (SpeedUpWheels(ws)[i].rotationSpeed > 0.0 <==> ws[i].rotationSpeed > 0.0)
      && (SpeedUpWheels(ws)[i].rotationSpeed < 0.0 <==> ws[i].rotationSpeed < 0.0)
      && SpeedUpWheels(ws)[i].(rotationSpeed := 0.0) == ws[i].(rotationSpeed := 0.0)
  {
  }

  /** Compounding: after `n` level-ups a wheel turns 1.1^n times as fast as before. */
  function SpeedUpTimes(ws: seq<ColorWheel>, n: nat): seq<ColorWheel> {
    if n == 0 then ws else SpeedUpWheels(SpeedUpTimes(ws, n - 1))
  }

  lemma {:induction false} SpeedUpCompounds(ws: seq<ColorWheel>, n: nat)
    ensures |SpeedUpTimes(ws, n)| == |ws|
    ensures forall i :: 0 <= i < |ws| ==>
      SpeedUpTimes(ws, n)[i].rotationSpeed == RealPow(1.1, n) * ws[i].rotationSpeed
  {
    if n > 0 {
      SpeedUpCompounds(ws, n - 1);
    }
  }

  // ----- tap resolution (lines 358-392) -----

  function SqDist(a: Vector2D, b: Vector2D): real {
    (a.x - b.x) * (a.x - b.x) + (a.y - b.y) * (a.y - b.y)
  }

  /**
   * `Math.sqrt(dx*dx + dy*dy) <= r`, stated without the square root: a negative
   * bound admits no point, otherwise the squared distance is compared with r*r.
   */
  predicate Within(a: Vector2D, b: Vector2D, r: real) {
    r >= 0.0 && SqDist(a, b) <= r * r
  }

  /** The tap at `p` is close enough to orb `o` to select it. */
  predicate Touches(o: GameOrb, p: Vector2D) {
    Within(p, o.position, o.radius + TapTolerance)
  }

  /** checkOrbTap's selection: the highest index of an orb the tap touches. */
  function PickOrb(orbs: seq<GameOrb>, p: Vector2D): Option<nat> {
    if orbs == [] then None
    else if Touches(orbs[|orbs| - 1], p) then Some(|orbs| - 1)
    else PickOrb(orbs[..|orbs| - 1], p)
  }

  /** PickOrb finds the last touched orb, and finds nothing exactly when no orb is touched. */
  lemma {:induction false} PickOrbSpec(orbs: seq<GameOrb>, p: Vector2D)
    ensures PickOrb(orbs, p).Some? ==>
      var i := PickOrb(orbs, p).value;
      i < |orbs| && Touches(orbs[i], p) && forall j :: i < j < |orbs| ==> !Touches(orbs[j], p)
    ensures PickOrb(orbs, p).None? <==> forall j :: 0 <= j < |orbs| ==> !Touches(orbs[j], p)
  {
    if orbs != [] && !Touches(orbs[|orbs| - 1], p) {
      var init := orbs[..|orbs| - 1];
      PickOrbSpec(init, p);
      assert forall j :: 0 <= j < |init| ==> init[j] == orbs[j];
    }
  }

  /** Wheel `w` is within reach of the tap and shows the orb's colour on its active segment. */
  predicate WheelMatches(w: ColorWheel, o: GameOrb, p: Vector2D)
    requires WheelShaped(w)
  {
    Within(p, w.position, w.radius + WheelReach) && o.color == w.colors[CurrentSegment(w)]
  }

  /** checkOrbWheelMatch's scan: the first wheel, in definition order, that matches. */
  function MatchWheel(ws: seq<ColorWheel>, o: GameOrb, p: Vector2D): Option<nat>
    requires forall i :: 0 <= i < |ws| ==> WheelShaped(ws[i])
  {
    if ws == [] then None
    else if WheelMatches(ws[0], o, p) then Some(0)
    else match MatchWheel(ws[1..], o, p)
      case Some(k) => Some(k + 1)
      case None => None
  }

  /** MatchWheel finds the first matching wheel, and nothing exactly when no wheel matches. */
  lemma {:induction false} MatchWheelSpec(ws: seq<ColorWheel>, o: GameOrb, p: Vector2D)
    requires forall i :: 0 <= i < |ws| ==> WheelShaped(ws[i])
    ensures MatchWheel(ws, o, p).Some? ==>
      var k := MatchWheel(ws, o, p).value;
      k < |ws| && WheelMatches(ws[k], o, p) && forall j :: 0 <= j < k ==> !WheelMatches(ws[j], o, p)
    ensures MatchWheel(ws, o, p).None? <==> forall j :: 0 <= j < |ws| ==> !WheelMatches(ws[j], o, p)
  {
    if ws != [] && !WheelMatches(ws[0], o, p) {
      MatchWheelSpec(ws[1..], o, p);
      assert forall j :: 1 <= j < |ws| ==> ws[1..][j - 1] == ws[j];
    }
  }

  /** `this.orbs.filter(o => o.id !== orb.id)`. */
  function OtherId(id: string): GameOrb -> bool {
    (o: GameOrb) => o.id != id
  }

  /** When orb ids are distinct, removing by the id of orb `i` removes exactly that orb. */
  lemma {:induction false} RemoveByIdExact(s: seq<GameOrb>, i: nat)
    requires i < |s|
    requires forall a, b :: 0 <= a < b < |s| ==> s[a].id != s[b].id
    ensures Filter(s, OtherId(s[i].id)) == s[..i] + s[i + 1..]
  {
    var init := s[..|s| - 1];
    if i == |s| - 1 {
      FilterAllPass(init, OtherId(s[i].id));
      assert s[..i] == init;
    } else {
      RemoveByIdExact(init, i);
      assert init[..i] + init[i + 1..] + [s[|s| - 1]] == s[..i] + s[i + 1..];
    }
  }
}
