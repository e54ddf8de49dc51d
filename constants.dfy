/** The tuning tables of the game (frontend/src/utils/constants.js) as
    Dafny constants, with the facts about them that the engine relies on. */
module Constants {
  import opened Common

  /** A draw of `Math.random()`: a number in [0, 1). */
  type Unit = r: real | 0.0 <= r < 1.0

  // GAME_CONFIG
  const CANVAS_WIDTH: real := 800.0
  const CANVAS_HEIGHT: real := 400.0
  const PLAYER_SPEED: real := 5.0
  const OBSTACLE_SPEED: real := 3.0
  const POWERUP_SPEED: real := 2.0
  const GRAVITY: real := 0.8
  const JUMP_FORCE: real := -15.0
  const FPS: nat := 60

  /** `Math.PI` as the double it is. */
  const PI: real := 3.141592653589793

  datatype PlayerState = Running | Jumping | Falling | Dead

  datatype ObstacleConfig = ObstacleConfig(width: real, height: real, damage: int, sprite: string)

  /** OBSTACLE_TYPES in key order. */
  const OBSTACLE_TYPES: seq<(string, ObstacleConfig)> :=
    [("BASIC_OBSTACLE", ObstacleConfig(48.0, 48.0, 1, "OBSTACLE"))]

  /** The keys of POWERUP_TYPES. */
  datatype PowerupType = Speed | Shield | DoubleJump | Multiplier

  datatype Effect = SpeedEffect | ShieldEffect | DoubleJumpEffect | MultiplierEffect

  datatype PowerupConfig = PowerupConfig(
    width: real, height: real, duration: real, effect: Effect, sprite: string, color: string)

  /** POWERUP_TYPES[t]. */
  function Config(t: PowerupType): PowerupConfig
  {
    match t
    case Speed => PowerupConfig(25.0, 25.0, 5000.0, SpeedEffect, "speed_boost", "#00ff88")
    case Shield => PowerupConfig(25.0, 25.0, 10000.0, ShieldEffect, "shield", "#0088ff")
    case DoubleJump => PowerupConfig(25.0, 25.0, 15000.0, DoubleJumpEffect, "double_jump", "#ff8800")
    case Multiplier => PowerupConfig(25.0, 25.0, 8000.0, MultiplierEffect, "multiplier", "#ff0088")
  }

  /** `Object.keys(POWERUP_TYPES)`, in declaration order. */
  const POWERUP_KEYS: seq<PowerupType> := [Speed, Shield, DoubleJump, Multiplier]

  /** The key string of a powerup type. */
  function KeyName(t: PowerupType): string
  {
    match t
    case Speed => "SPEED"
    case Shield => "SHIELD"
    case DoubleJump => "DOUBLE_JUMP"
    case Multiplier => "MULTIPLIER"
  }

  /** Looking a string up among the keys of POWERUP_TYPES. */
  function TypeOfKey(s: string): (r: Option<PowerupType>)
    ensures r.Some? ==> KeyName(r.value) == s
  {
    if s == "SPEED" then Some(Speed)
    else if s == "SHIELD" then Some(Shield)
    else if s == "DOUBLE_JUMP" then Some(DoubleJump)
    else if s == "MULTIPLIER" then Some(Multiplier)
    else None
  }

  /** The effect string stored in a config. */
  function EffectName(e: Effect): string
  {
    match e
    case SpeedEffect => "speed"
    case ShieldEffect => "shield"
    case DoubleJumpEffect => "double_jump"
    case MultiplierEffect => "multiplier"
  }

  // SCORING
  const BASE_SCORE_PER_SECOND: real := 10.0
  const OBSTACLE_DODGE: real := 25.0
  const POWERUP_COLLECT: real := 50.0
  const DISTANCE_MULTIPLIER: real := 1.5
  const SURVIVAL_BONUS: real := 100.0

  const LEADERBOARD_SIZE: nat := 50

  // CONTRACT_ADDRESSES
  const NEON_RUNNER_GAME: string := "0x4FfD2c9EEB93D633d217B945C7Baf66a35aB6343"
  const POWERUP_NFT: string := "0xce9cabB33C17495c7F93C69A4c7AaAF20fa1A5C0"
  const LEADERBOARD: string := "0x1f5AAa6141eacF3600dA4D39089Bf3ceDE144c25"
  const ZERO_ADDRESS: string := "0x0000000000000000000000000000000000000000"

  datatype Phase = Phase(minScore: real, obstacleFreq: real, powerupFreq: real)

  /** `Object.values(GAME_PHASES)`, PHASE_1 to PHASE_5. */
  const GAME_PHASES: seq<Phase> := [
    Phase(0.0, 0.02, 0.008),
    Phase(500.0, 0.025, 0.01),
    Phase(1500.0, 0.03, 0.012),
    Phase(3000.0, 0.035, 0.015),
    Phase(5000.0, 0.04, 0.018)
  ]

  // SPRITES.RUNNER animation parameters
  const RUNNER_FRAMES: nat := 6
  const RUNNER_ANIM_SPEED: nat := 8

  /** Every key of POWERUP_TYPES names itself back. */
  lemma KeyNameRoundTrip(t: PowerupType)
    ensures TypeOfKey(KeyName(t)) == Some(t)
    ensures KeyName(t) in ["SPEED", "SHIELD", "DOUBLE_JUMP", "MULTIPLIER"]
  {
  }

  /** The key list holds each powerup type exactly once. */
  lemma PowerupKeysAreAllTypes(t: PowerupType)
    ensures |POWERUP_KEYS| == 4
    ensures t in POWERUP_KEYS
    ensures forall i, j :: 0 <= i < j < |POWERUP_KEYS| ==> POWERUP_KEYS[i] != POWERUP_KEYS[j]
  {
  }

  /** The phase thresholds start at 0 and strictly increase, so every
      non-negative score has a phase. */
  lemma PhasesAscendFromZero()
    ensures |GAME_PHASES| == 5 && GAME_PHASES[0].minScore == 0.0
    ensures forall i, j :: 0 <= i < j < |GAME_PHASES| ==> GAME_PHASES[i].minScore < GAME_PHASES[j].minScore
  {
  }

  /** Both spawn frequencies are probabilities strictly inside (0, 1) and
      never decrease from one phase to the next. */
  lemma FrequenciesRiseWithinUnitInterval()
    ensures forall i :: 0 <= i < |GAME_PHASES| ==>
      0.0 < GAME_PHASES[i].obstacleFreq < 1.0 && 0.0 < GAME_PHASES[i].powerupFreq < 1.0
    ensures forall i, j :: 0 <= i <= j < |GAME_PHASES| ==>
      GAME_PHASES[i].obstacleFreq <= GAME_PHASES[j].obstacleFreq
      && GAME_PHASES[i].powerupFreq <= GAME_PHASES[j].powerupFreq
  {
  }

  /** Every duration is already in milliseconds (over 1000), so the
      engine's seconds-to-milliseconds normalisation keeps it. */
  lemma DurationsExceedOneSecond(t: PowerupType)
    ensures Config(t).duration > 1000.0
    ensures Config(t).width > 0.0 && Config(t).height > 0.0
  {
  }

  /** OBSTACLE_TYPES has the single entry BASIC_OBSTACLE: 48 by 48, damage 1. */
  lemma SingleObstacleType()
    ensures |OBSTACLE_TYPES| == 1 && OBSTACLE_TYPES[0].0 == "BASIC_OBSTACLE"
    ensures OBSTACLE_TYPES[0].1.damage == 1
    ensures OBSTACLE_TYPES[0].1.width == 48.0 && OBSTACLE_TYPES[0].1.height == 48.0
  {
  }

  /** Gravity pulls down (positive y) and a jump pushes up (negative y). */
  lemma PhysicsSigns()
    ensures GRAVITY > 0.0 && JUMP_FORCE < 0.0
  {
  }

  /** Dodging and collecting both reward the player. */
  lemma BonusesPositive()
    ensures OBSTACLE_DODGE > 0.0 && POWERUP_COLLECT > 0.0 && BASE_SCORE_PER_SECOND > 0.0
  {
  }
}
