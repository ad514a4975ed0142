/**
 * Records and enumerations of Color Match Rush (src/lib/gameTypes.ts) and the
 * fixed configuration the engine builds in its constructor
 * (src/lib/gameEngine.ts, lines 41-69).
 *
 * Numbers that the source keeps as JavaScript doubles are `real` here (positions,
 * velocities, lifetimes, angles); counters that only ever hold whole numbers
 * (score, lives, level, combo, millisecond clock readings) are `int`.
 */
module GameTypes {

  datatype Option<T> = None | Some(value: T)

  datatype Vector2D = Vector2D(x: real, y: real)

  datatype GameOrb = GameOrb(
    id: string,
    position: Vector2D,
    velocity: Vector2D,
    color: string,
    radius: real,
    lifetime: real,
    maxLifetime: real)

  datatype ColorWheel = ColorWheel(
    id: string,
    position: Vector2D,
    radius: real,
    rotation: real,
    rotationSpeed: real,
    colors: seq<string>,
    segments: int)

  datatype PowerUpType = TimeSlow | ColorReveal | ExtraLife | ScoreMultiplier

  /** `id` is the clock reading the source writes into "powerup_<now>". */
  datatype PowerUp = PowerUp(
    id: int,
    kind: PowerUpType,
    position: Vector2D,
    duration: real,
    maxDuration: real,
    isActive: bool)

  datatype ParticleKind = Explosion | Miss | PowerUpGlow

  /** The source's particle id is "<prefix>_<now>_<index>"; the prefix follows from `kind`. */
  datatype ParticleId = ParticleId(stamp: int, index: nat)

  datatype ParticleEffect = ParticleEffect(
    id: ParticleId,
    position: Vector2D,
    velocity: Vector2D,
    color: string,
    size: real,
    lifetime: real,
    maxLifetime: real,
    kind: ParticleKind)

  datatype GameState = Menu | Playing | Paused | GameOver

  datatype Achievement = Achievement(
    id: string,
    name: string,
    description: string,
    unlocked: bool,
    icon: string)

  datatype GameStats = GameStats(
    score: int,
    lives: int,
    level: int,
    combo: int,
    highScore: int,
    achievements: seq<Achievement>)

  /** The six-case event union; listeners are replaced by an appended trace of these. */
  datatype GameEvent =
    | OrbMatched(orb: GameOrb, wheel: ColorWheel, points: int)
    | OrbMissed(missed: GameOrb)
    | PowerUpCollected(powerUp: PowerUp)
    | LevelUp(newLevel: int)
    | GameOverEvent(finalScore: int)
    | AchievementUnlocked(achievement: Achievement)

  datatype TouchInput = TouchInput(x: real, y: real, timestamp: int)

  /**
   * The outcomes of the `Math.random()` calls one tick may make: the orb's x
   * fraction and colour pick, the power-up spawn roll, type pick and x fraction.
   * The orb id stands for the string "orb_<now>_<random>".
   */
  datatype Rolls = Rolls(
    orbId: string,
    orbX: real,
    orbColor: real,
    powerUpChance: real,
    powerUpType: real,
    powerUpX: real)

  /** Every roll is a value `Math.random()` can return. */
  predicate RollsOk(r: Rolls) {
    && 0.0 <= r.orbX < 1.0
    && 0.0 <= r.orbColor < 1.0
    && 0.0 <= r.powerUpChance < 1.0
    && 0.0 <= r.powerUpType < 1.0
    && 0.0 <= r.powerUpX < 1.0
  }

  // ----- configuration (constructor of ColorMatchGame) -----

  const BaseSpeed: real := 200.0
  const SpawnRate: real := 1000.0
  const MaxOnScreen: nat := 8
  const Palette: seq<string> :=
    ["#FF6B6B", "#4ECDC4", "#45B7D1", "#96CEB4", "#FFEAA7", "#DDA0DD", "#98D8C8", "#F7DC6F"]
  const BaseRotationSpeed: real := 1.5
  const SpawnChance: real := 0.15
  const PowerUpDuration: real := 5000.0
  const Gravity: real := 300.0
  const MaxVelocity: real := 500.0
  const BasePoints: nat := 10

  // ----- literals written inline in the engine's methods -----

  /** `Math.min(deltaTime, 1/30)` in gameLoop. */
  const MaxDelta: real := 1.0 / 30.0
  /** `Math.PI * 2` as the double the source computes. */
  const TwoPi: real := 6.283185307179586
  const OrbRadius: real := 20.0
  const OrbLifetime: real := 5000.0
  const SpawnY: real := -30.0
  const TapTolerance: real := 10.0
  const WheelReach: real := 50.0
  const OffscreenMargin: real := 50.0
  const PowerUpInterval: int := 10000
  const PowerUpFallSpeed: real := 100.0
  const ParticleShrink: real := 0.98
  const LevelStep: int := 200
  const SpeedUp: real := 1.1
  const InitialLives: int := 3
  const MissColor: string := "#FF4444"

  /** The achievement catalogue built by initializeAchievements. */
  function Catalog(): (c: seq<Achievement>)
    ensures |c| == 5
    ensures forall i :: 0 <= i < |c| ==> !c[i].unlocked
  {
    [ Achievement("first_match", "First Match", "Match your first orb", false, "\U{1F3AF}"),
      Achievement("combo_5", "Combo Master", "Get a 5x combo", false, "\U{26A1}"),
      Achievement("level_5", "Speed Demon", "Reach level 5", false, "\U{1F680}"),
      Achievement("score_1000", "High Scorer", "Score 1000 points", false, "\U{1F451}"),
      Achievement("perfect_game", "Perfectionist", "Complete a level without missing", false, "\U{1F48E}") ]
  }

  /** The two wheels built by initializeWheels for a canvas of the given size. */
  function InitialWheels(width: real, height: real): (ws: seq<ColorWheel>)
    ensures |ws| == 2
    ensures forall i :: 0 <= i < 2 ==> ws[i].segments == |ws[i].colors| == 4 && ws[i].rotation == 0.0
    ensures ws[0].rotationSpeed == BaseRotationSpeed && ws[1].rotationSpeed == -BaseRotationSpeed
  {
    [ ColorWheel("wheel1", Vector2D(width * 0.25, height * 0.8), 60.0, 0.0, BaseRotationSpeed,
                 Palette[0..4], 4),
      ColorWheel("wheel2", Vector2D(width * 0.75, height * 0.8), 60.0, 0.0, -BaseRotationSpeed,
                 Palette[4..8], 4) ]
  }

  function Min(a: real, b: real): real { if a <= b then a else b }
}
