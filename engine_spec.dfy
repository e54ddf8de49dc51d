/** The per-frame simulation of `GameEngine` (frontend/src/utils/gameEngine.js)
    as pure functions on a snapshot `World` of the engine's fields. Each
    mutating method of the engine class (module Engine) is proved to move
    its fields exactly as the function of the same step here says; the
    properties of the game are proved here, about those functions. */
module EngineSpec {
  import opened Common
  import opened Constants
  import opened Sprites

  /** `gameState`: the four states the engine itself uses, plus 'stopped',
      which the hook writes on unmount. */
  datatype GameState = Menu | Playing | Paused | GameOver | Stopped

  datatype Player = Player(
    x: real, y: real, width: real, height: real, velocityY: real, onGround: bool,
    state: PlayerState, jumpCount: int, maxJumps: int, health: int, maxHealth: int)

  datatype Obstacle = Obstacle(
    x: real, y: real, width: real, height: real, kind: string, damage: int, sprite: string)

  /** A powerup in the world; its `config` is `Config(ptype)`. */
  datatype Powerup = Powerup(
    x: real, y: real, width: real, height: real, ptype: PowerupType, floatOffset: real)

  /** An entry of `activePowerups`; its `config` is `Config(ptype)`. */
  datatype ActivePowerup = ActivePowerup(ptype: PowerupType, timeLeft: real)

  /** The `onScoreUpdate` payload (`speed` is the number that `toFixed(1)`
      formats). */
  datatype Stats = Stats(score: int, distance: int, health: int, speed: real)

  /** The `onGameOver` snapshot. */
  datatype FinalStats = FinalStats(score: int, distance: int, powerupsCollected: nat)

  /** One call of a host callback. */
  datatype Event =
    | ScoreUpdate(stats: Stats)
    | GameOverEvent(final: FinalStats)
    | PowerupCollected(ptype: PowerupType)

  /** One `particleSystem.addParticle(x, y, kind)` request. */
  datatype Cue = Cue(x: real, y: real, kind: string)

  /** The snapshot `getGameStats()` returns. */
  datatype GameStats = GameStats(score: int, distance: int, gameSpeed: real, health: int, activePowerups: nat)

  datatype Rect = Rect(x: real, y: real, width: real, height: real)

  /** The effect bookkeeping: `activePowerups` and the flags and
      multipliers the effects switch. */
  datatype Effects = Effects(
    active: seq<ActivePowerup>, speedMultiplier: real, scoreMultiplier: real,
    hasShield: bool, hasDoubleJump: bool)

  const NO_EFFECTS: Effects := Effects([], 1.0, 1.0, false, false)

  /** The simulation fields of the engine. `draws` counts the `Math.random()`
      values consumed so far: the random source is the oracle `rand`, and the
      i-th draw is `rand(i)`. */
  datatype World = World(
    gameState: GameState, isRunning: bool, isPaused: bool,
    score: real, distance: real, gameSpeed: real, frameCount: nat,
    player: Player,
    obstacles: seq<Obstacle>, powerups: seq<Powerup>, fx: Effects,
    lastObstacleSpawnAt: real, draws: nat)

  /** The result of a step: the new world, the callbacks it made and the
      particles it asked for, each in order. */
  datatype Out = Out(w: World, events: seq<Event>, cues: seq<Cue>)

  const GROUND: real := CANVAS_HEIGHT - 100.0
  const FRAME_MS: real := 1000.0 / 60.0
  const MIN_GAP_FROM_SPAWN: real := 220.0
  const MIN_SPAWN_INTERVAL_MS: real := 400.0
  const CLUSTER_SIZE: nat := 1

  // -----------------------------------------------------------------------
  // Construction and reset

  const INITIAL_PLAYER: Player :=
    Player(100.0, CANVAS_HEIGHT - 100.0, 32.0, 48.0, 0.0, true, Running, 0, 1, 3, 3)

  const INITIAL_WORLD: World :=
    World(Menu, false, false, 0.0, 0.0, 1.0, 0, INITIAL_PLAYER, [], [], NO_EFFECTS, 0.0, 0)

  /** `reset()` (lines 119-152). */
  function ResetW(w: World): World
  {
    w.(score := 0.0, distance := 0.0, gameSpeed := 1.0, frameCount := 0,
       player := w.player.(x := 100.0, y := GROUND - w.player.height, velocityY := 0.0,
                           onGround := true, state := Running, jumpCount := 0, health := 3),
       obstacles := [], powerups := [], fx := NO_EFFECTS, lastObstacleSpawnAt := 0.0)
  }

  /** `reset()` zeroes the counters, restores full health, empties the three
      lists, clears every effect and stands the player on the ground; it
      leaves `gameState`, the run flags and `maxJumps` alone, and a second
      reset changes nothing. */
  lemma ResetClearsSession(w: World)
    ensures var r := ResetW(w);
      && r.score == 0.0 && r.distance == 0.0 && r.frameCount == 0 && r.player.health == 3
      && r.obstacles == [] && r.powerups == [] && r.fx == NO_EFFECTS
      && r.player.onGround && r.player.y + r.player.height == GROUND && r.player.jumpCount == 0
      && r.gameState == w.gameState && r.isRunning == w.isRunning && r.isPaused == w.isPaused
      && r.player.maxJumps == w.player.maxJumps
    ensures ResetW(ResetW(w)) == ResetW(w)
  {
  }

  // -----------------------------------------------------------------------
  // Collision geometry

  function PlayerRect(p: Player): Rect { Rect(p.x, p.y, p.width, p.height) }
  function ObstacleRect(o: Obstacle): Rect { Rect(o.x, o.y, o.width, o.height) }
  function PowerupRect(p: Powerup): Rect { Rect(p.x, p.y, p.width, p.height) }

  /** The open interval (lo1, hi1) meets (lo2, hi2). */
  predicate OpenOverlap(lo1: real, hi1: real, lo2: real, hi2: real)
  {
    lo1 < hi2 && lo2 < hi1
  }

  /** `isColliding(rect1, rect2)` (lines 410-415). */
  predicate IsColliding(a: Rect, b: Rect)
  {
    a.x < b.x + b.width && a.x + a.width > b.x && a.y < b.y + b.height && a.y + a.height > b.y
  }

  /** Two rectangles collide exactly when their interiors overlap on both
      axes; so the test is symmetric and rectangles that only share an edge
      do not collide. */
  lemma CollisionIsStrictOverlap(a: Rect, b: Rect)
    ensures IsColliding(a, b) <==>
      OpenOverlap(a.x, a.x + a.width, b.x, b.x + b.width) && OpenOverlap(a.y, a.y + a.height, b.y, b.y + b.height)
    ensures IsColliding(a, b) <==> IsColliding(b, a)
    ensures a.x + a.width == b.x || b.x + b.width == a.x || a.y + a.height == b.y || b.y + b.height == a.y
      ==> !IsColliding(a, b)
  {
  }

  // -----------------------------------------------------------------------
  // Clock and physics

  /** `gameSpeed = 1 + (score / 1000) * 0.5` (line 179). */
  function GameSpeedFor(score: real): real
  {
    1.0 + (score / 1000.0) * 0.5
  }

  lemma GameSpeedMonotone(s1: real, s2: real)
    requires s1 <= s2
    ensures GameSpeedFor(s1) <= GameSpeedFor(s2)
    ensures s1 >= 0.0 ==> GameSpeedFor(s1) >= 1.0
  {
  }

  /** Lines 176-185: frame counter, speed, distance and the continuous score. */
  function AdvanceClock(w: World): World
  {
    var gs := GameSpeedFor(w.score);
    w.(frameCount := w.frameCount + 1, gameSpeed := gs, distance := w.distance + gs,
       score := w.score + FrameScore(w.fx.scoreMultiplier, gs))
  }

  /** The score one frame earns at speed `gs` under multiplier `mult`. */
  function FrameScore(mult: real, gs: real): real
  {
    BASE_SCORE_PER_SECOND * mult * (gs / 60.0)
  }

  /** `updatePlayer()` without the sprite animation (lines 226-248). */
  function UpdatePlayerW(w: World): World
  {
    var p := w.player;
    var vy := if !p.onGround then p.velocityY + GRAVITY else p.velocityY;
    var y := p.y + vy;
    var p' :=
      if y + p.height >= GROUND then
        p.(y := GROUND - p.height, velocityY := 0.0, onGround := true, jumpCount := 0, state := Running)
      else
        p.(y := y, velocityY := vy, onGround := false, state := if vy < 0.0 then Jumping else Falling);
    w.(player := p'.(maxJumps := if w.fx.hasDoubleJump then 2 else 1))
  }

  /** After `updatePlayer()` the player is never below the ground line;
      landing clamps, stops and resets the jump count; in the air the state
      says JUMPING exactly while rising; `maxJumps` is 2 exactly when double
      jump is on. Nothing else in the world changes. */
  lemma UpdatePlayerLands(w: World)
    ensures var p := UpdatePlayerW(w).player;
      && p.y + p.height <= GROUND
      && (p.onGround ==> p.y + p.height == GROUND && p.velocityY == 0.0 && p.jumpCount == 0 && p.state == Running)
      && (!p.onGround ==>
            p.jumpCount == w.player.jumpCount && (p.state == Jumping <==> p.velocityY < 0.0) && p.state in {Jumping, Falling})
      && (p.maxJumps == 2 <==> w.fx.hasDoubleJump) && (p.maxJumps == 1 <==> !w.fx.hasDoubleJump)
      && p.health == w.player.health && p.x == w.player.x && p.height == w.player.height
    ensures UpdatePlayerW(w).(player := w.player) == w
  {
  }

  /** `jump()` (lines 251-260). The jump cue is the particle at the
      player's feet. */
  function JumpW(w: World): Out
  {
    var p := w.player;
    if w.gameState != Playing || w.isPaused then Out(w, [], [])
    else if p.jumpCount < p.maxJumps then
      Out(w.(player := p.(velocityY := JUMP_FORCE, jumpCount := p.jumpCount + 1, onGround := false),
             draws := w.draws + 3),
          [], [Cue(p.x, p.y + p.height, "jump")])
    else Out(w, [], [])
  }

  /** A jump happens only while playing, unpaused and with jumps left; it
      sets the jump impulse, counts the jump and leaves the ground, so it
      never takes `jumpCount` past the `maxJumps` it was called with.
      Otherwise nothing changes. */
  lemma JumpIsGuarded(w: World)
    ensures var o := JumpW(w);
      var can := w.gameState == Playing && !w.isPaused && w.player.jumpCount < w.player.maxJumps;
      && (!can ==> o.w == w && o.cues == [])
      && (can ==> o.w.player == w.player.(velocityY := JUMP_FORCE, jumpCount := w.player.jumpCount + 1, onGround := false)
                  && o.w.player.jumpCount <= w.player.maxJumps && |o.cues| == 1)
      && o.events == []
      && o.w.(player := w.player, draws := w.draws) == w
  {
  }

  // -----------------------------------------------------------------------
  // Moving and pruning entities

  function MoveObstacle(o: Obstacle, delta: real): Obstacle { o.(x := o.x - delta) }

  /** The obstacles `updateObstacles()` keeps (lines 263-273). */
  function KeptObstacles(obs: seq<Obstacle>, delta: real): (r: seq<Obstacle>)
    ensures |r| <= |obs|
  {
    if obs == [] then []
    else
      var o := MoveObstacle(obs[|obs| - 1], delta);
      KeptObstacles(obs[..|obs| - 1], delta) + (if o.x + o.width < 0.0 then [] else [o])
  }

  /** How many obstacles it prunes, each worth one dodge bonus. */
  function DodgedCount(obs: seq<Obstacle>, delta: real): nat
  {
    if obs == [] then 0
    else
      var o := MoveObstacle(obs[|obs| - 1], delta);
      DodgedCount(obs[..|obs| - 1], delta) + (if o.x + o.width < 0.0 then 1 else 0)
  }

  /** The points the pruning awards, `bonus` per pruned obstacle, added
      one at a time as the filter meets them. */
  function DodgeBonus(obs: seq<Obstacle>, delta: real, bonus: real): real
  {
    if obs == [] then 0.0
    else
      var o := MoveObstacle(obs[|obs| - 1], delta);
      DodgeBonus(obs[..|obs| - 1], delta, bonus) + (if o.x + o.width < 0.0 then bonus else 0.0)
  }

  /** The awarded points are the dodge count times the bonus. */
  lemma {:induction false} DodgeBonusCounts(obs: seq<Obstacle>, delta: real, bonus: real)
    ensures DodgeBonus(obs, delta, bonus) == (DodgedCount(obs, delta) as real) * bonus
  {
    if obs != [] {
      DodgeBonusCounts(obs[..|obs| - 1], delta, bonus);
      var n := DodgedCount(obs[..|obs| - 1], delta) as real;
      assert (n + 1.0) * bonus == n * bonus + bonus;
    }
  }

  /** `updateObstacles()`. */
  function UpdateObstaclesW(w: World): World
  {
    w.(obstacles := KeptObstacles(w.obstacles, ObstacleShift(w)),
       score := w.score + DodgeBonus(w.obstacles, ObstacleShift(w), DodgeValue(w)))
  }

  /** How far every obstacle moves in one frame. */
  function ObstacleShift(w: World): real
  {
    OBSTACLE_SPEED * w.gameSpeed * w.fx.speedMultiplier
  }

  /** The points one dodged obstacle is worth. */
  function DodgeValue(w: World): real
  {
    OBSTACLE_DODGE * w.fx.scoreMultiplier
  }

  /** Pruning keeps order and treats each obstacle on its own, every
      obstacle is either kept or counted as dodged (never both), and every
      survivor is still (partly) on screen. */
  lemma {:induction false} KeptObstaclesFilter(a: seq<Obstacle>, b: seq<Obstacle>, delta: real)
    ensures KeptObstacles(a + b, delta) == KeptObstacles(a, delta) + KeptObstacles(b, delta)
    ensures DodgedCount(a + b, delta) == DodgedCount(a, delta) + DodgedCount(b, delta)
    decreases |b|
  {
    if b == [] {
      assert a + b == a;
    } else {
      var b' := b[..|b| - 1];
      assert (a + b)[..|a + b| - 1] == a + b';
      assert (a + b)[|a + b| - 1] == b[|b| - 1];
      KeptObstaclesFilter(a, b', delta);
    }
  }

  lemma {:induction false} KeptObstaclesOnScreen(obs: seq<Obstacle>, delta: real)
    ensures forall i :: 0 <= i < |KeptObstacles(obs, delta)| ==>
      KeptObstacles(obs, delta)[i].x + KeptObstacles(obs, delta)[i].width >= 0.0
    ensures |KeptObstacles(obs, delta)| + DodgedCount(obs, delta) == |obs|
    ensures forall i :: 0 <= i < |KeptObstacles(obs, delta)| ==>
      exists j :: 0 <= j < |obs| && KeptObstacles(obs, delta)[i] == MoveObstacle(obs[j], delta)
  {
    if obs != [] {
      KeptObstaclesOnScreen(obs[..|obs| - 1], delta);
    }
  }

  /** One obstacle on its own: kept (moved) if still on screen, otherwise
      dropped and counted once. */
  lemma KeptObstacleSingle(o: Obstacle, delta: real)
    ensures var m := MoveObstacle(o, delta);
      && KeptObstacles([o], delta) == (if m.x + m.width < 0.0 then [] else [m])
      && DodgedCount([o], delta) == (if m.x + m.width < 0.0 then 1 else 0)
  {
    assert [o][..0] == [];
  }

  /** `updateObstacles()` adds one dodge bonus per pruned obstacle, 25
      points each, 50 under the score multiplier, and touches nothing but
      the list and the score. */
  lemma UpdateObstaclesScores(w: World)
    ensures var delta := ObstacleShift(w);
      var r := UpdateObstaclesW(w);
      var n := DodgedCount(w.obstacles, delta) as real;
      && (w.fx.scoreMultiplier == 1.0 ==> r.score == w.score + 25.0 * n)
      && (w.fx.scoreMultiplier == 2.0 ==> r.score == w.score + 50.0 * n)
      && r.(obstacles := w.obstacles, score := w.score) == w
  {
    var delta := ObstacleShift(w);
    var n := DodgedCount(w.obstacles, delta) as real;
    DodgeBonusCounts(w.obstacles, delta, DodgeValue(w));
    assert UpdateObstaclesW(w).score == w.score + n * DodgeValue(w);
    if w.fx.scoreMultiplier == 1.0 {
      assert OBSTACLE_DODGE * w.fx.scoreMultiplier == 25.0;
    } else if w.fx.scoreMultiplier == 2.0 {
      assert OBSTACLE_DODGE * w.fx.scoreMultiplier == 50.0;
    }
  }

  /** One powerup after a frame: moved left, bobbed by `sin` (the oracle
      for `Math.sin`). */
  function MovePowerup(p: Powerup, delta: real, sin: real -> real): Powerup
  {
    var f := p.floatOffset + 0.1;
    p.(x := p.x - delta, floatOffset := f, y := p.y + sin(f) * 0.5)
  }

  /** The powerups `updatePowerups()` keeps (lines 277-285). */
  function KeptPowerups(ps: seq<Powerup>, delta: real, sin: real -> real): (r: seq<Powerup>)
    ensures |r| <= |ps|
    ensures forall i :: 0 <= i < |r| ==> r[i].x + r[i].width > 0.0
  {
    if ps == [] then []
    else
      var p := MovePowerup(ps[|ps| - 1], delta, sin);
      KeptPowerups(ps[..|ps| - 1], delta, sin) + (if p.x + p.width > 0.0 then [p] else [])
  }

  /** `updatePowerups()`: pruning awards nothing. */
  function UpdatePowerupsW(w: World, sin: real -> real): World
  {
    w.(powerups := KeptPowerups(w.powerups, PowerupShift(w), sin))
  }

  /** How far every powerup moves in one frame (the speed powerup does not
      apply to powerups). */
  function PowerupShift(w: World): real
  {
    POWERUP_SPEED * w.gameSpeed
  }

  // -----------------------------------------------------------------------
  // Effects

  /** `(config.duration && config.duration > 1000) ? duration : duration * 1000`. */
  function DurationMs(d: real): real
  {
    if d != 0.0 && d > 1000.0 then d else d * 1000.0
  }

  function TypesOf(active: seq<ActivePowerup>): set<PowerupType>
  {
    set i | 0 <= i < |active| :: active[i].ptype
  }

  /** At most one active entry per type. */
  predicate EffectsDistinct(active: seq<ActivePowerup>)
  {
    forall i, j :: 0 <= i < j < |active| ==> active[i].ptype != active[j].ptype
  }

  /** `activePowerups.filter(p => p.type !== t)`. */
  function Without(active: seq<ActivePowerup>, t: PowerupType): (r: seq<ActivePowerup>)
    ensures |r| <= |active|
  {
    if active == [] then []
    else Without(active[..|active| - 1], t) + (if active[|active| - 1].ptype != t then [active[|active| - 1]] else [])
  }

  lemma TypesOfAppend(a: seq<ActivePowerup>, b: seq<ActivePowerup>)
    ensures TypesOf(a + b) == TypesOf(a) + TypesOf(b)
  {
    forall x | x in TypesOf(a + b) ensures x in TypesOf(a) + TypesOf(b) {
      var i :| 0 <= i < |a + b| && (a + b)[i].ptype == x;
      if i < |a| { assert a[i] == (a + b)[i]; } else { assert b[i - |a|] == (a + b)[i]; }
    }
    forall x | x in TypesOf(a) ensures x in TypesOf(a + b) {
      var i :| 0 <= i < |a| && a[i].ptype == x;
      assert (a + b)[i] == a[i];
    }
    forall x | x in TypesOf(b) ensures x in TypesOf(a + b) {
      var i :| 0 <= i < |b| && b[i].ptype == x;
      assert (a + b)[|a| + i] == b[i];
    }
  }

  lemma TypesOfSingle(e: ActivePowerup)
    ensures TypesOf([e]) == {e.ptype}
  {
    assert [e][0] == e;
  }

  /** Filtering out `t` keeps only listed entries. */
  lemma {:induction false} WithoutSubset(active: seq<ActivePowerup>, t: PowerupType)
    ensures forall i :: 0 <= i < |Without(active, t)| ==> Without(active, t)[i] in active
  {
    if active != [] {
      var init := active[..|active| - 1];
      var last := active[|active| - 1];
      WithoutSubset(init, t);
      assert active == init + [last];
      var r := Without(active, t);
      var ri := Without(init, t);
      forall i | 0 <= i < |r| ensures r[i] in active {
        if i < |ri| {
          assert r[i] == ri[i];
        } else {
          assert r[i] == last;
        }
      }
    }
  }

  /** Filtering out `t` removes exactly the type `t`. */
  lemma {:induction false} WithoutTypes(active: seq<ActivePowerup>, t: PowerupType)
    ensures TypesOf(Without(active, t)) == TypesOf(active) - {t}
  {
    if active != [] {
      var init := active[..|active| - 1];
      var last := active[|active| - 1];
      WithoutTypes(init, t);
      assert active == init + [last];
      TypesOfAppend(init, [last]);
      TypesOfSingle(last);
      var ri := Without(init, t);
      if last.ptype != t {
        assert Without(active, t) == ri + [last];
        TypesOfAppend(ri, [last]);
      } else {
        assert Without(active, t) == ri;
      }
    } else {
      assert TypesOf(Without(active, t)) == {};
    }
  }

  /** A prefix of a list with one entry per type has one entry per type. */
  lemma DistinctPrefix(active: seq<ActivePowerup>, n: nat)
    requires EffectsDistinct(active) && n <= |active|
    ensures EffectsDistinct(active[..n])
  {
    var init := active[..n];
    forall i, j | 0 <= i < j < |init| ensures init[i].ptype != init[j].ptype {
      assert init[i] == active[i] && init[j] == active[j];
    }
  }

  /** Filtering keeps at most one entry per type. */
  lemma {:induction false} WithoutDistinct(active: seq<ActivePowerup>, t: PowerupType)
    requires EffectsDistinct(active)
    ensures EffectsDistinct(Without(active, t))
  {
    if active != [] {
      var n := |active| - 1;
      var init := active[..n];
      var last := active[n];
      DistinctPrefix(active, n);
      WithoutDistinct(init, t);
      var ri := Without(init, t);
      if last.ptype != t {
        var r := Without(active, t);
        assert r == ri + [last];
        WithoutTypes(init, t);
        forall i | 0 <= i < |ri| ensures ri[i].ptype != last.ptype {
          assert ri[i].ptype in TypesOf(ri);
          var k :| 0 <= k < |init| && init[k].ptype == ri[i].ptype;
          assert active[k] == init[k];
        }
        forall i, j | 0 <= i < j < |r| ensures r[i].ptype != r[j].ptype {
          if j < |ri| {
            assert r[i] == ri[i] && r[j] == ri[j];
          } else {
            assert r[i] == ri[i] && r[j] == last;
          }
        }
      } else {
        assert Without(active, t) == ri;
      }
    }
  }

  /** The flag or multiplier an effect switches on (lines 473-486). */
  function SwitchOn(fx: Effects, t: PowerupType): Effects
  {
    match Config(t).effect
    case SpeedEffect => fx.(speedMultiplier := 1.5)
    case ShieldEffect => fx.(hasShield := true)
    case DoubleJumpEffect => fx.(hasDoubleJump := true)
    case MultiplierEffect => fx.(scoreMultiplier := 2.0)
  }

  /** `removePowerupEffect(t)` (lines 516-529); `t` is always a key of
      POWERUP_TYPES when the engine calls it. */
  function RemoveEffect(fx: Effects, t: PowerupType): Effects
  {
    match Config(t).effect
    case SpeedEffect => fx.(speedMultiplier := 1.0)
    case ShieldEffect => fx.(hasShield := false)
    case DoubleJumpEffect => fx.(hasDoubleJump := false)
    case MultiplierEffect => fx.(scoreMultiplier := 1.0)
  }

  /** `applyPowerupEffect(t, config)` (lines 459-487). */
  function ApplyEffect(fx: Effects, t: PowerupType): Effects
  {
    SwitchOn(fx.(active := Without(fx.active, t) + [ActivePowerup(t, DurationMs(Config(t).duration))]), t)
  }

  /** Acquiring an effect leaves exactly one entry of its type, at the end,
      with the full duration (re-acquiring resets the timer instead of
      stacking), keeps the other entries, and keeps the types distinct. */
  lemma ApplyEffectResets(fx: Effects, t: PowerupType)
    requires EffectsDistinct(fx.active)
    ensures var a := ApplyEffect(fx, t).active;
      && EffectsDistinct(a)
      && a[|a| - 1] == ActivePowerup(t, Config(t).duration)
      && (forall i :: 0 <= i < |a| - 1 ==> a[i].ptype != t && a[i] in fx.active)
      && TypesOf(a) == TypesOf(fx.active) + {t}
  {
    var a := ApplyEffect(fx, t).active;
    var wo := Without(fx.active, t);
    var e := ActivePowerup(t, Config(t).duration);
    WithoutSubset(fx.active, t);
    WithoutTypes(fx.active, t);
    WithoutDistinct(fx.active, t);
    DurationsExceedOneSecond(t);
    forall i | 0 <= i < |wo| ensures wo[i].ptype != t {
      assert wo[i].ptype in TypesOf(wo);
    }
    assert a == wo + [e];
    TypesOfAppend(wo, [e]);
    TypesOfSingle(e);
    forall i, j | 0 <= i < j < |a| ensures a[i].ptype != a[j].ptype {
      if j < |wo| {
        assert a[i] == wo[i] && a[j] == wo[j];
      } else {
        assert a[i] == wo[i] && a[j] == e;
      }
    }
  }

  /** The entries that survive one `updateActivePowerups()` (lines 289-298),
      each with `1000/60` ms less. */
  function TickedActive(active: seq<ActivePowerup>): (r: seq<ActivePowerup>)
    ensures |r| <= |active|
  {
    if active == [] then []
    else
      var a := active[|active| - 1];
      var t := a.timeLeft - FRAME_MS;
      TickedActive(active[..|active| - 1]) + (if t <= 0.0 then [] else [a.(timeLeft := t)])
  }

  /** The types whose timers run out this frame, in list order. */
  function ExpiredTypes(active: seq<ActivePowerup>): seq<PowerupType>
  {
    if active == [] then []
    else
      var a := active[|active| - 1];
      ExpiredTypes(active[..|active| - 1]) + (if a.timeLeft - FRAME_MS <= 0.0 then [a.ptype] else [])
  }

  /** `removePowerupEffect` for each type in turn. */
  function RevertAll(fx: Effects, ts: seq<PowerupType>): Effects
  {
    if ts == [] then fx else RemoveEffect(RevertAll(fx, ts[..|ts| - 1]), ts[|ts| - 1])
  }

  /** `updateActivePowerups()`. */
  function UpdateActive(fx: Effects): Effects
  {
    RevertAll(fx, ExpiredTypes(fx.active)).(active := TickedActive(fx.active))
  }

  /** One entry after a frame: nothing once its time is up. */
  function TickPart(a: ActivePowerup): seq<ActivePowerup>
  {
    if a.timeLeft - FRAME_MS <= 0.0 then [] else [a.(timeLeft := a.timeLeft - FRAME_MS)]
  }

  /** The effect change one entry makes: reverted once its time is up. */
  function ExpireStep(fx: Effects, a: ActivePowerup): Effects
  {
    if a.timeLeft - FRAME_MS <= 0.0 then RemoveEffect(fx, a.ptype) else fx
  }

  /** Countdown and reverts grow one entry at a time. */
  lemma ActiveStep(fx: Effects, active: seq<ActivePowerup>, i: nat)
    requires i < |active|
    ensures TickedActive(active[..i + 1]) == TickedActive(active[..i]) + TickPart(active[i])
    ensures RevertAll(fx, ExpiredTypes(active[..i + 1]))
         == ExpireStep(RevertAll(fx, ExpiredTypes(active[..i])), active[i])
  {
    var a := active[i];
    assert active[..i + 1][..i] == active[..i];
    var ts := ExpiredTypes(active[..i]);
    if a.timeLeft - FRAME_MS <= 0.0 {
      assert ExpiredTypes(active[..i + 1]) == ts + [a.ptype];
      assert (ts + [a.ptype])[..|ts|] == ts;
    } else {
      assert ExpiredTypes(active[..i + 1]) == ts;
    }
  }

  function UpdateActiveW(w: World): World
  {
    w.(fx := UpdateActive(w.fx))
  }

  /** One frame of countdown for one entry. */
  function Tick1(a: ActivePowerup): ActivePowerup
  {
    a.(timeLeft := a.timeLeft - FRAME_MS)
  }

  /** Each surviving entry is a listed entry that lost exactly one frame
      (1000/60 ms) and is still positive. */
  lemma {:induction false} TickedActiveSound(active: seq<ActivePowerup>)
    ensures forall i :: 0 <= i < |TickedActive(active)| ==> TickedActive(active)[i].timeLeft > 0.0
    ensures forall i :: 0 <= i < |TickedActive(active)| ==>
      exists j :: 0 <= j < |active| && TickedActive(active)[i] == Tick1(active[j])
  {
    if active != [] {
      var n := |active| - 1;
      var init := active[..n];
      var a := active[n];
      TickedActiveSound(init);
      var ti := TickedActive(init);
      var r := TickedActive(active);
      assert r == ti + (if Tick1(a).timeLeft <= 0.0 then [] else [Tick1(a)]);
      forall i | 0 <= i < |r| ensures r[i].timeLeft > 0.0 {
        if i < |ti| { assert r[i] == ti[i]; }
      }
      forall i | 0 <= i < |r| ensures exists j :: 0 <= j < |active| && r[i] == Tick1(active[j]) {
        if i < |ti| {
          var j :| 0 <= j < |init| && ti[i] == Tick1(init[j]);
          assert r[i] == ti[i] && active[j] == init[j];
        } else {
          assert r[i] == Tick1(active[n]);
        }
      }
    } else {
      assert TickedActive(active) == [];
    }
  }

  /** Every listed entry whose time is still positive after the tick
      survives, ticked. */
  lemma {:induction false} TickedActiveComplete(active: seq<ActivePowerup>)
    ensures forall j :: 0 <= j < |active| && Tick1(active[j]).timeLeft > 0.0 ==> Tick1(active[j]) in TickedActive(active)
  {
    if active != [] {
      var n := |active| - 1;
      var init := active[..n];
      var a := active[n];
      TickedActiveComplete(init);
      var r := TickedActive(active);
      assert r == TickedActive(init) + (if Tick1(a).timeLeft <= 0.0 then [] else [Tick1(a)]);
      forall j | 0 <= j < |active| && Tick1(active[j]).timeLeft > 0.0 ensures Tick1(active[j]) in r {
        if j < n { assert active[j] == init[j]; }
      }
    }
  }

  /** A type is reported as expired exactly when one of its entries runs
      out (time 0 or less after the tick). */
  lemma {:induction false} ExpiredTypesExact(active: seq<ActivePowerup>)
    ensures forall j :: 0 <= j < |active| && Tick1(active[j]).timeLeft <= 0.0 ==> active[j].ptype in ExpiredTypes(active)
    ensures forall t :: t in ExpiredTypes(active) ==>
      exists j :: 0 <= j < |active| && active[j].ptype == t && Tick1(active[j]).timeLeft <= 0.0
  {
    if active != [] {
      var n := |active| - 1;
      var init := active[..n];
      var a := active[n];
      ExpiredTypesExact(init);
      var ei := ExpiredTypes(init);
      var e := ExpiredTypes(active);
      assert e == ei + (if Tick1(a).timeLeft <= 0.0 then [a.ptype] else []);
      forall j | 0 <= j < |active| && Tick1(active[j]).timeLeft <= 0.0 ensures active[j].ptype in e {
        if j < n { assert active[j] == init[j]; }
      }
      forall t | t in e ensures exists j :: 0 <= j < |active| && active[j].ptype == t && Tick1(active[j]).timeLeft <= 0.0 {
        if t in ei {
          var j :| 0 <= j < |init| && init[j].ptype == t && Tick1(init[j]).timeLeft <= 0.0;
          assert active[j] == init[j];
        } else {
          assert active[n].ptype == t;
        }
      }
    }
  }

  /** Reverting one effect changes only its own field. */
  lemma RemoveEffectFrame(fx: Effects, t: PowerupType)
    ensures var r := RemoveEffect(fx, t);
      && r.active == fx.active
      && (if t == Speed then r.speedMultiplier == 1.0 else r.speedMultiplier == fx.speedMultiplier)
      && (if t == Multiplier then r.scoreMultiplier == 1.0 else r.scoreMultiplier == fx.scoreMultiplier)
      && (if t == Shield then !r.hasShield else r.hasShield == fx.hasShield)
      && (if t == DoubleJump then !r.hasDoubleJump else r.hasDoubleJump == fx.hasDoubleJump)
  {
  }

  /** Reverting effects changes only the four effect fields. */
  lemma {:induction false} RevertAllFrame(fx: Effects, ts: seq<PowerupType>)
    ensures RevertAll(fx, ts).active == fx.active
  {
    if ts != [] {
      RevertAllFrame(fx, ts[..|ts| - 1]);
      RemoveEffectFrame(RevertAll(fx, ts[..|ts| - 1]), ts[|ts| - 1]);
    }
  }

  /** Reverting the types `ts` switches off exactly the effects of those
      types and leaves the others as they were. */
  lemma {:induction false} RevertAllEffects(fx: Effects, ts: seq<PowerupType>)
    ensures var r := RevertAll(fx, ts);
      && (if Speed in ts then r.speedMultiplier == 1.0 else r.speedMultiplier == fx.speedMultiplier)
      && (if Multiplier in ts then r.scoreMultiplier == 1.0 else r.scoreMultiplier == fx.scoreMultiplier)
      && (if Shield in ts then !r.hasShield else r.hasShield == fx.hasShield)
      && (if DoubleJump in ts then !r.hasDoubleJump else r.hasDoubleJump == fx.hasDoubleJump)
  {
    if ts != [] {
      var init := ts[..|ts| - 1];
      RevertAllEffects(fx, init);
      RemoveEffectFrame(RevertAll(fx, init), ts[|ts| - 1]);
      assert ts == init + [ts[|ts| - 1]];
      assert forall t :: t in ts <==> t in init || t == ts[|ts| - 1];
    }
  }

  // -----------------------------------------------------------------------
  // Spawning

  /** The index the loop of `getCurrentPhase()` (lines 373-381) stops at,
      scanning down from `i`. */
  function PhaseFrom(score: real, i: int): (r: nat)
    requires -1 <= i < |GAME_PHASES|
    ensures r < |GAME_PHASES|
    decreases i + 1
  {
    if i < 0 then 0
    else if score >= GAME_PHASES[i].minScore then i
    else PhaseFrom(score, i - 1)
  }

  /** `getCurrentPhase()` as an index into GAME_PHASES: for a non-negative
      score, the last phase whose `minScore` is at most the score. */
  function CurrentPhaseIndex(score: real): (r: nat)
    ensures r < |GAME_PHASES|
    ensures score >= 0.0 ==> GAME_PHASES[r].minScore <= score
    ensures forall j :: r < j < |GAME_PHASES| ==> GAME_PHASES[j].minScore > score
  {
    PhaseScan(score, |GAME_PHASES| - 1);
    PhaseFrom(score, |GAME_PHASES| - 1)
  }

  lemma {:induction false} PhaseScan(score: real, i: int)
    requires -1 <= i < |GAME_PHASES|
    ensures var r := PhaseFrom(score, i);
      && (score >= 0.0 ==> GAME_PHASES[r].minScore <= score)
      && (forall j :: r < j <= i ==> GAME_PHASES[j].minScore > score)
    decreases i + 1
  {
    if i >= 0 && score < GAME_PHASES[i].minScore {
      PhaseScan(score, i - 1);
    }
  }

  /** A score of 5000 or more is in the last phase (PHASE_5). */
  lemma TopPhaseFrom5000(score: real)
    requires score >= 5000.0
    ensures CurrentPhaseIndex(score) == 4 && GAME_PHASES[CurrentPhaseIndex(score)] == Phase(5000.0, 0.04, 0.018)
  {
  }

  /** A higher score never selects an earlier phase. */
  lemma PhaseMonotone(s1: real, s2: real)
    requires 0.0 <= s1 <= s2
    ensures CurrentPhaseIndex(s1) <= CurrentPhaseIndex(s2)
  {
    PhasesAscendFromZero();
  }

  function CurrentPhase(score: real): Phase
  {
    GAME_PHASES[CurrentPhaseIndex(score)]
  }

  /** Some obstacle is still within `minGapFromSpawn` of the right edge. */
  predicate NearSpawn(obs: seq<Obstacle>)
  {
    exists i :: 0 <= i < |obs| && obs[i].x > CANVAS_WIDTH - MIN_GAP_FROM_SPAWN
  }

  /** The one obstacle a successful spawn places, with its vertical jitter. */
  function SpawnedObstacle(i: nat, jitter: Unit): Obstacle
  {
    var entry := OBSTACLE_TYPES[0];
    var c := entry.1;
    Obstacle(CANVAS_WIDTH + (i as real) * (c.width + 60.0),
             CANVAS_HEIGHT - 100.0 - c.height + (jitter - 0.5) * 10.0,
             c.width, c.height, entry.0, c.damage, c.sprite)
  }

  /** `spawnObstacles()` (lines 301-349); `now` is `performance.now()`. */
  function SpawnObstaclesW(w: World, now: real, rand: nat -> Unit): World
  {
    var phase := CurrentPhase(w.score);
    if NearSpawn(w.obstacles) then w
    else if now - w.lastObstacleSpawnAt < MIN_SPAWN_INTERVAL_MS then w
    else if rand(w.draws) < phase.obstacleFreq then
      // OBSTACLE_TYPES is never empty, so the early return for an empty
      // type list cannot fire
      w.(obstacles := w.obstacles + [SpawnedObstacle(0, rand(w.draws + 1))],
         lastObstacleSpawnAt := now, draws := w.draws + 2)
    else w.(draws := w.draws + 1)
  }

  /** No obstacle spawns while one is near the right edge or within 400 ms
      of the last spawn; otherwise at most one BASIC_OBSTACLE is appended,
      at the right edge, and only then does the spawn time move. */
  lemma SpawnObstaclesThrottled(w: World, now: real, rand: nat -> Unit)
    ensures var r := SpawnObstaclesW(w, now, rand);
      && (NearSpawn(w.obstacles) || now - w.lastObstacleSpawnAt < MIN_SPAWN_INTERVAL_MS ==> r == w)
      && (r.obstacles == w.obstacles || r.obstacles == w.obstacles + [r.obstacles[|r.obstacles| - 1]])
      && (r.obstacles != w.obstacles ==>
            var o := r.obstacles[|r.obstacles| - 1];
            o.x == CANVAS_WIDTH && o.kind == "BASIC_OBSTACLE" && o.damage == 1 && o.width == 48.0
            && r.lastObstacleSpawnAt == now
            && rand(w.draws) < CurrentPhase(w.score).obstacleFreq)
      && (r.obstacles == w.obstacles ==> r.lastObstacleSpawnAt == w.lastObstacleSpawnAt)
      && r.(obstacles := w.obstacles, lastObstacleSpawnAt := w.lastObstacleSpawnAt, draws := w.draws) == w
  {
  }

  /** `Math.floor(r * 4)` for a draw r: always a valid key index. */
  function KeyIndex(r: Unit): (k: nat)
    ensures k < |POWERUP_KEYS|
  {
    (r * 4.0).Floor
  }

  /** The powerup `spawnPowerups()` places, from three draws. */
  function SpawnedPowerup(rKind: Unit, rHeight: Unit, rPhase: Unit): Powerup
  {
    var t := POWERUP_KEYS[KeyIndex(rKind)];
    Powerup(CANVAS_WIDTH, CANVAS_HEIGHT - 150.0 - rHeight * 100.0,
            Config(t).width, Config(t).height, t, rPhase * PI * 2.0)
  }

  /** `spawnPowerups()` (lines 351-371). */
  function SpawnPowerupsW(w: World, rand: nat -> Unit): World
  {
    var phase := CurrentPhase(w.score);
    if rand(w.draws) < phase.powerupFreq then
      w.(powerups := w.powerups + [SpawnedPowerup(rand(w.draws + 1), rand(w.draws + 2), rand(w.draws + 3))],
         draws := w.draws + 4)
    else w.(draws := w.draws + 1)
  }

  // -----------------------------------------------------------------------
  // Collisions

  function RemoveAt<T>(s: seq<T>, i: nat): (r: seq<T>)
    requires i < |s|
    ensures |r| == |s| - 1
    ensures forall k :: 0 <= k < i ==> r[k] == s[k]
    ensures forall k :: i <= k < |r| ==> r[k] == s[k + 1]
  {
    s[..i] + s[i + 1..]
  }

  /** The index of the first obstacle the player collides with, if any. */
  function FirstHit(pr: Rect, obs: seq<Obstacle>, from: nat): (r: Option<nat>)
    requires from <= |obs|
    ensures r.Some? ==> from <= r.value < |obs| && IsColliding(pr, ObstacleRect(obs[r.value]))
    ensures r.Some? ==> forall k :: from <= k < r.value ==> !IsColliding(pr, ObstacleRect(obs[k]))
    ensures r.None? ==> forall k :: from <= k < |obs| ==> !IsColliding(pr, ObstacleRect(obs[k]))
    decreases |obs| - from
  {
    if from == |obs| then None
    else if IsColliding(pr, ObstacleRect(obs[from])) then Some(from)
    else FirstHit(pr, obs, from + 1)
  }

  function FinalStatsOf(w: World): FinalStats
  {
    FinalStats(w.score.Floor, w.distance.Floor, |w.fx.active|)
  }

  /** `gameOver()` (lines 730-748), without the frame cancellation, which
      the engine class does. */
  function GameOverW(w: World): Out
  {
    Out(w.(gameState := GameOver, isRunning := false), [GameOverEvent(FinalStatsOf(w))], [])
  }

  /** `handleObstacleCollision(obstacle, i)` (lines 417-441). */
  function HandleObstacleW(w: World, i: nat): Out
    requires i < |w.obstacles|
  {
    var o := w.obstacles[i];
    var cue := Cue(o.x + o.width / 2.0, o.y + o.height / 2.0, "explosion");
    if w.fx.hasShield then
      Out(w.(fx := RemoveEffect(w.fx.(hasShield := false), Shield), obstacles := RemoveAt(w.obstacles, i), draws := w.draws + 3),
          [], [cue])
    else
      var w' := w.(player := w.player.(health := w.player.health - o.damage),
                   obstacles := RemoveAt(w.obstacles, i), draws := w.draws + 3);
      if w'.player.health <= 0 then
        var g := GameOverW(w');
        Out(g.w, g.events, [cue])
      else Out(w', [], [cue])
  }

  /** The score a collected powerup earns under the effects `fx`. */
  function PickupValue(fx: Effects): real
  {
    POWERUP_COLLECT * fx.scoreMultiplier
  }

  /** `handlePowerupCollision(powerup, i)` (lines 443-457). */
  function HandlePowerupW(w: World, i: nat): Out
    requires i < |w.powerups|
  {
    var p := w.powerups[i];
    var w1 := w.(powerups := RemoveAt(w.powerups, i), draws := w.draws + 3);
    var w2 := w1.(fx := ApplyEffect(w1.fx, p.ptype));
    Out(w2.(score := w2.score + PickupValue(w2.fx)),
        [PowerupCollected(p.ptype)],
        [Cue(p.x + p.width / 2.0, p.y + p.height / 2.0, "collect")])
  }

  /** The powerup loop of `checkCollisions()` (lines 402-407) over indices
      k-1 down to 0: every powerup the player touches is collected. */
  function PickupsBelow(w: World, pr: Rect, k: nat): Out
    requires k <= |w.powerups|
    decreases k
  {
    if k == 0 then Out(w, [], [])
    else
      var h := PickupAt(w, pr, k - 1);
      var rest := PickupsBelow(h.w, pr, k - 1);
      Out(rest.w, h.events + rest.events, h.cues + rest.cues)
  }

  /** How far the pickup loop has got: what is still to run from index
      `k - 1` down ends where the whole loop ends, and the reports and
      particle cues made so far followed by those still to come are the
      whole loop's. */
  ghost predicate PickupProgress(w: World, pr: Rect, k: nat, whole: Out, evs: seq<Event>, cues: seq<Cue>)
  {
    k <= |w.powerups| &&
    var rest := PickupsBelow(w, pr, k);
    rest.w == whole.w && evs + rest.events == whole.events && cues + rest.cues == whole.cues
  }

  lemma PickupProgressStart(w: World, pr: Rect)
    ensures PickupProgress(w, pr, |w.powerups|, PickupsBelow(w, pr, |w.powerups|), [], [])
  {
    var p := PickupsBelow(w, pr, |w.powerups|);
    assert [] + p.events == p.events && [] + p.cues == p.cues;
  }

  /** One more pass keeps the loop on course. */
  lemma PickupProgressStep(w: World, pr: Rect, k: nat, whole: Out, evs: seq<Event>, cues: seq<Cue>)
    requires 0 < k && PickupProgress(w, pr, k, whole, evs, cues)
    ensures var h := PickupAt(w, pr, k - 1);
      PickupProgress(h.w, pr, k - 1, whole, evs + h.events, cues + h.cues)
  {
    var h := PickupAt(w, pr, k - 1);
    var rest := PickupsBelow(h.w, pr, k - 1);
    AppendAssoc(evs, h.events, rest.events);
    AppendAssoc(cues, h.cues, rest.cues);
  }

  /** Once index 0 is done, the loop has produced exactly the whole run. */
  lemma PickupProgressDone(w: World, pr: Rect, whole: Out, evs: seq<Event>, cues: seq<Cue>)
    requires PickupProgress(w, pr, 0, whole, evs, cues)
    ensures w == whole.w && evs == whole.events && cues == whole.cues
  {
    assert evs + [] == evs && cues + [] == cues;
  }

  /** One pass of the pickup loop, at index `i`. */
  function PickupAt(w: World, pr: Rect, i: nat): (h: Out)
    requires i < |w.powerups|
    ensures i <= |h.w.powerups| && h.w.powerups[..i] == w.powerups[..i]
  {
    if IsColliding(pr, PowerupRect(w.powerups[i])) then HandlePowerupW(w, i) else Out(w, [], [])
  }

  /** `checkCollisions()` (lines 383-408). */
  function CheckCollisionsW(w: World): Out
  {
    var pr := PlayerRect(w.player);
    var h := ObstaclePhase(w, pr);
    var p := PickupsBelow(h.w, pr, |h.w.powerups|);
    Out(p.w, h.events + p.events, h.cues + p.cues)
  }

  /** `checkCollisions()` as its two loops, one after the other. */
  lemma CheckCollisionsPhases(w: World)
    ensures var pr := PlayerRect(w.player);
      var h := ObstaclePhase(w, pr);
      var p := PickupsBelow(h.w, pr, |h.w.powerups|);
      CheckCollisionsW(w) == Out(p.w, h.events + p.events, h.cues + p.cues)
  {
  }

  /** On a running game, running the obstacle loop and then the pickup
      loop gives the world, the reports and the particles of
      `checkCollisions()`; the run stops exactly when the obstacle loop
      reports something. */
  lemma CheckCollisionsCompose(w: World, ps: seq<Particle>, ev: seq<Event>, rand: nat -> Unit)
    requires w.isRunning
    ensures var pr := PlayerRect(w.player);
      var h := ObstaclePhase(w, pr);
      var p := PickupsBelow(h.w, pr, |h.w.powerups|);
      var c := CheckCollisionsW(w);
      && c.w == p.w && (ev + h.events) + p.events == ev + c.events
      && (h.w.isRunning <==> h.events == []) && p.w.isRunning == h.w.isRunning
      && (ps + CueParticles(h.cues, rand, w.draws)) + CueParticles(p.cues, rand, h.w.draws)
         == ps + CueParticles(c.cues, rand, w.draws)
  {
    var pr := PlayerRect(w.player);
    var h := ObstaclePhase(w, pr);
    var p := PickupsBelow(h.w, pr, |h.w.powerups|);
    ObstaclePhaseEnds(w, pr);
    CheckCollisionsPhases(w);
    PickupsFrame(h.w, pr, |h.w.powerups|);
    AppendAssoc(ev, h.events, p.events);
    ExtendParticles(ps, h.cues, p.cues, rand, w.draws);
  }

  /** On a running game the obstacle loop ends the run exactly when it
      reports something (the game-over report), and it asks for at most one
      particle, three draws. */
  lemma ObstaclePhaseEnds(w: World, pr: Rect)
    requires w.isRunning
    ensures var h := ObstaclePhase(w, pr);
      && (h.w.isRunning <==> h.events == [])
      && |h.cues| <= 1 && h.w.draws == w.draws + 3 * |h.cues|
  {
  }

  /** The obstacle loop of `checkCollisions()` (lines 391-399): only the
      first obstacle the player touches is handled. */
  function ObstaclePhase(w: World, pr: Rect): Out
  {
    var first := FirstHit(pr, w.obstacles, 0);
    if first.Some? then HandleObstacleW(w, first.value) else Out(w, [], [])
  }

  function StatsOf(w: World): Stats
  {
    Stats(w.score.Floor, w.distance.Floor, w.player.health, w.gameSpeed)
  }

  function GameStatsOf(w: World): GameStats
  {
    GameStats(w.score.Floor, w.distance.Floor, w.gameSpeed, w.player.health, |w.fx.active|)
  }

  /** The world just before `checkCollisions()` in `update()`. */
  function BeforeCollisions(w: World, now: real, rand: nat -> Unit, sin: real -> real): World
  {
    SpawnW(MoveW(AdvanceClock(w), sin), now, rand)
  }

  /** The movement part of `update()` (lines 188-194): player, obstacles,
      powerups, then the effect timers. */
  function MoveW(w: World, sin: real -> real): World
  {
    UpdateActiveW(UpdatePowerupsW(UpdateObstaclesW(UpdatePlayerW(w)), sin))
  }

  /** The spawning part of `update()` (lines 197-198). */
  function SpawnW(w: World, now: real, rand: nat -> Unit): World
  {
    SpawnPowerupsW(SpawnObstaclesW(w, now, rand), rand)
  }

  /** `update()` (lines 175-215). */
  function UpdateW(w: World, now: real, rand: nat -> Unit, sin: real -> real): Out
  {
    var c := CheckCollisionsW(BeforeCollisions(w, now, rand, sin));
    Out(c.w, c.events + [ScoreUpdate(StatsOf(c.w))], c.cues)
  }

  /** `update()` as the collision check on the simulated world, then the
      score report. */
  lemma UpdateParts(w: World, now: real, rand: nat -> Unit, sin: real -> real)
    ensures var c := CheckCollisionsW(BeforeCollisions(w, now, rand, sin));
      UpdateW(w, now, rand, sin) == Out(c.w, c.events + [ScoreUpdate(StatsOf(c.w))], c.cues)
  {
  }

  /** `togglePause()` (lines 719-728): no guard on the state. */
  function TogglePauseW(w: World): World
  {
    w.(isPaused := !w.isPaused, gameState := if !w.isPaused then Paused else Playing)
  }

  /** Two toggles restore the pause flag, whatever the state was; the state
      is then 'playing' or 'paused' according to that flag. */
  lemma TogglePauseTwice(w: World)
    ensures TogglePauseW(TogglePauseW(w)).isPaused == w.isPaused
    ensures TogglePauseW(TogglePauseW(w)).gameState == if w.isPaused then Paused else Playing
    ensures TogglePauseW(w).gameState == (if TogglePauseW(w).isPaused then Paused else Playing)
  {
  }

  /** `start()` without the loop: the state, the run flags and a reset. */
  function StartW(w: World): World
  {
    ResetW(w.(gameState := Playing, isRunning := true, isPaused := false))
  }

  // -----------------------------------------------------------------------
  // Powerup pickups in detail

  /** The powerups of `ps` the player rectangle does not touch, in order. */
  function Untouched(pr: Rect, ps: seq<Powerup>): seq<Powerup>
  {
    if ps == [] then []
    else Untouched(pr, ps[..|ps| - 1]) + (if IsColliding(pr, PowerupRect(ps[|ps| - 1])) then [] else [ps[|ps| - 1]])
  }

  /** The collection events for the powerups of `ps` the player touches,
      last first (the loop runs from the end of the list). */
  function TouchedEvents(pr: Rect, ps: seq<Powerup>): seq<Event>
  {
    if ps == [] then []
    else (if IsColliding(pr, PowerupRect(ps[|ps| - 1])) then [PowerupCollected(ps[|ps| - 1].ptype)] else [])
         + TouchedEvents(pr, ps[..|ps| - 1])
  }

  /** What one pass of the pickup loop changes: a touched powerup is
      removed from the list, reported, and leaves a particle; an untouched
      one changes nothing. Player, obstacles, distance and the run flags
      never change. */
  lemma HandlePowerupFacts(w: World, i: nat)
    requires i < |w.powerups|
    ensures var h := HandlePowerupW(w, i);
      && h.w.powerups == RemoveAt(w.powerups, i)
      && h.events == [PowerupCollected(w.powerups[i].ptype)] && |h.cues| == 1
      && h.w.draws == w.draws + 3
      && h.w.player == w.player && h.w.obstacles == w.obstacles
      && h.w.isRunning == w.isRunning && h.w.gameState == w.gameState && h.w.distance == w.distance
      && h.w.frameCount == w.frameCount && h.w.gameSpeed == w.gameSpeed
  {
  }

  /** The pickup loop collects exactly the powerups the player touches,
      reports each once (scanning from the end) and keeps the others in
      order. */
  lemma {:induction false} PickupsCollectTouched(w: World, pr: Rect, k: nat)
    requires k <= |w.powerups|
    ensures var o := PickupsBelow(w, pr, k);
      && o.w.powerups == Untouched(pr, w.powerups[..k]) + w.powerups[k..]
      && o.events == TouchedEvents(pr, w.powerups[..k])
    decreases k
  {
    var ps := w.powerups;
    if k == 0 {
      assert ps[..0] == [];
      assert ps[0..] == ps;
    } else {
      var h := PickupAt(w, pr, k - 1);
      PickupsCollectTouched(h.w, pr, k - 1);
      if IsColliding(pr, PowerupRect(ps[k - 1])) {
        HandlePowerupFacts(w, k - 1);
      }
      TouchedStep(pr, ps, k, h.w.powerups, h.events);
    }
  }

  /** One pass at index `k - 1` in terms of the lists alone: `rest` and
      `evs` are what the pass leaves and reports. */
  lemma TouchedStep(pr: Rect, ps: seq<Powerup>, k: nat, rest: seq<Powerup>, evs: seq<Event>)
    requires 0 < k <= |ps|
    requires if IsColliding(pr, PowerupRect(ps[k - 1]))
      then rest == RemoveAt(ps, k - 1) && evs == [PowerupCollected(ps[k - 1].ptype)]
      else rest == ps && evs == []
    ensures Untouched(pr, rest[..k - 1]) + rest[k - 1..] == Untouched(pr, ps[..k]) + ps[k..]
    ensures evs + TouchedEvents(pr, rest[..k - 1]) == TouchedEvents(pr, ps[..k])
  {
    assert ps[..k][..k - 1] == ps[..k - 1];
    if IsColliding(pr, PowerupRect(ps[k - 1])) {
      assert rest[..k - 1] == ps[..k - 1] && rest[k - 1..] == ps[k..];
    } else {
      assert ps[k - 1..] == [ps[k - 1]] + ps[k..];
      assert Untouched(pr, ps[..k]) == Untouched(pr, ps[..k - 1]) + [ps[k - 1]];
    }
  }

  /** The pickup loop asks for one particle per pickup, consuming three
      draws each, and leaves player, obstacles and the run flags alone. */
  lemma {:induction false} PickupsFrame(w: World, pr: Rect, k: nat)
    requires k <= |w.powerups|
    ensures var o := PickupsBelow(w, pr, k);
      && |o.cues| == |o.events|
      && o.w.draws == w.draws + 3 * |o.cues|
      && o.w.player == w.player && o.w.obstacles == w.obstacles
      && o.w.isRunning == w.isRunning && o.w.gameState == w.gameState && o.w.distance == w.distance
      && o.w.frameCount == w.frameCount && o.w.gameSpeed == w.gameSpeed
    decreases k
  {
    if k > 0 {
      var ps := w.powerups;
      var hit := IsColliding(pr, PowerupRect(ps[k - 1]));
      var h := if hit then HandlePowerupW(w, k - 1) else Out(w, [], []);
      if hit { HandlePowerupFacts(w, k - 1); }
      PickupsFrame(h.w, pr, k - 1);
    }
  }

  /** Each pickup keeps the effect bookkeeping consistent and never lowers
      the score (it adds 50 points, 100 under the multiplier). */
  lemma {:induction false} PickupsKeepEffects(w: World, pr: Rect, k: nat)
    requires k <= |w.powerups|
    requires EffectsOk(w.fx)
    ensures var o := PickupsBelow(w, pr, k);
      EffectsOk(o.w.fx) && o.w.score >= w.score
    decreases k
  {
    if k > 0 {
      var ps := w.powerups;
      var h := if IsColliding(pr, PowerupRect(ps[k - 1])) then HandlePowerupW(w, k - 1) else Out(w, [], []);
      if IsColliding(pr, PowerupRect(ps[k - 1])) {
        HandlePowerupKeepsEffects(w, k - 1);
      }
      PickupsKeepEffects(h.w, pr, k - 1);
    }
  }

  /** One pickup keeps the effect bookkeeping and adds 50 points, or 100
      when the multiplier is (now) on. */
  lemma HandlePowerupKeepsEffects(w: World, i: nat)
    requires i < |w.powerups|
    requires EffectsOk(w.fx)
    ensures var h := HandlePowerupW(w, i);
      && EffectsOk(h.w.fx)
      && h.w.score == w.score + (if h.w.fx.scoreMultiplier == 2.0 then 100.0 else 50.0)
  {
    var w1 := w.(powerups := RemoveAt(w.powerups, i), draws := w.draws + 3);
    ApplyKeepsEffects(w.fx, w.powerups[i].ptype);
    var w2 := w1.(fx := ApplyEffect(w1.fx, w.powerups[i].ptype));
    assert w2.score == w.score;
    if w2.fx.scoreMultiplier == 2.0 {
      assert PickupValue(w2.fx) == 100.0;
    } else {
      assert PickupValue(w2.fx) == 50.0;
    }
  }

  // -----------------------------------------------------------------------
  // The engine invariant

  /** Health stays within 0..3 and a run at 0 health is over. */
  predicate HealthOk(w: World)
  {
    0 <= w.player.health <= 3 && (w.player.health == 0 ==> !w.isRunning)
  }

  /** The jump bookkeeping: at most two jumps counted, one or two allowed. */
  predicate JumpsOk(w: World)
  {
    0 <= w.player.jumpCount <= 2 && (w.player.maxJumps == 1 || w.player.maxJumps == 2)
  }

  /** Every obstacle in play does one point of damage. */
  predicate ObstaclesOk(w: World)
  {
    forall i :: 0 <= i < |w.obstacles| ==> w.obstacles[i].damage == 1
  }

  /** One active entry per type, each with time left, and the flags agree
      with the list: speed and score multipliers and double jump are on
      exactly while their entry is active; a shield only while its entry
      is (a used-up shield leaves its entry behind). */
  predicate EffectsOk(fx: Effects)
  {
    && EffectsDistinct(fx.active)
    && (forall i :: 0 <= i < |fx.active| ==> fx.active[i].timeLeft > 0.0)
    && fx.speedMultiplier == (if Speed in TypesOf(fx.active) then 1.5 else 1.0)
    && fx.scoreMultiplier == (if Multiplier in TypesOf(fx.active) then 2.0 else 1.0)
    && (fx.hasDoubleJump <==> DoubleJump in TypesOf(fx.active))
    && (fx.hasShield ==> Shield in TypesOf(fx.active))
  }

  predicate Inv(w: World)
  {
    HealthOk(w) && JumpsOk(w) && ObstaclesOk(w) && EffectsOk(w.fx) && w.score >= 0.0 && w.distance >= 0.0
  }

  lemma InitialInv()
    ensures Inv(INITIAL_WORLD) && Inv(ResetW(INITIAL_WORLD))
  {
    assert TypesOf([]) == {};
  }

  lemma ApplyKeepsEffects(fx: Effects, t: PowerupType)
    requires EffectsOk(fx)
    ensures EffectsOk(ApplyEffect(fx, t))
  {
    ApplyEffectResets(fx, t);
    var a := ApplyEffect(fx, t).active;
    forall i | 0 <= i < |a| ensures a[i].timeLeft > 0.0 {
      if i < |a| - 1 {
        var k :| 0 <= k < |fx.active| && fx.active[k] == a[i];
      }
    }
  }

  /** Ticking the timers keeps the entries distinct and leaves exactly the
      types that did not expire. */
  lemma {:induction false} TickedTypes(active: seq<ActivePowerup>)
    requires EffectsDistinct(active)
    ensures EffectsDistinct(TickedActive(active))
    ensures forall t :: t in TypesOf(TickedActive(active)) <==> t in TypesOf(active) && t !in ExpiredTypes(active)
  {
    if active != [] {
      var n := |active| - 1;
      var init := active[..n];
      var a := active[n];
      assert active == init + [a];
      assert EffectsDistinct(init) by {
        forall i, j | 0 <= i < j < |init| ensures init[i].ptype != init[j].ptype {
          assert init[i] == active[i] && init[j] == active[j];
        }
      }
      TickedTypes(init);
      TickedActiveSound(init);
      ExpiredTypesExact(init);
      var ki := TickedActive(init);
      var ei := ExpiredTypes(init);
      var k := TickedActive(active);
      var e := ExpiredTypes(active);
      TypesOfAppend(init, [a]);
      TypesOfSingle(a);
      forall j | 0 <= j < |init| ensures init[j].ptype != a.ptype {
        assert init[j] == active[j];
      }
      assert a.ptype !in TypesOf(init);
      assert a.ptype !in ei;
      if Tick1(a).timeLeft <= 0.0 {
        assert k == ki;
        assert e == ei + [a.ptype];
      } else {
        assert k == ki + [Tick1(a)];
        assert e == ei;
        TypesOfAppend(ki, [Tick1(a)]);
        TypesOfSingle(Tick1(a));
        forall i, j | 0 <= i < j < |k| ensures k[i].ptype != k[j].ptype {
          if j < |ki| {
            assert k[i] == ki[i] && k[j] == ki[j];
          } else {
            assert k[i] == ki[i] && k[i].ptype in TypesOf(ki);
          }
        }
      }
    }
  }

  lemma UpdateActiveKeepsEffects(fx: Effects)
    requires EffectsOk(fx)
    ensures EffectsOk(UpdateActive(fx))
  {
    TickedTypes(fx.active);
    TickedActiveSound(fx.active);
    RevertAllEffects(fx, ExpiredTypes(fx.active));
    RevertAllFrame(fx, ExpiredTypes(fx.active));
  }

  /** The collision phase keeps the invariant. A hit uses up a shield or
      costs exactly one point of health, and the run ends exactly when that
      takes health to 0. */
  lemma CheckCollisionsKeepsInv(w: World)
    requires Inv(w) && w.isRunning
    ensures Inv(CheckCollisionsW(w).w) && CheckCollisionsW(w).w.score >= w.score
    ensures CheckCollisionsW(w).w.distance == w.distance && CheckCollisionsW(w).w.frameCount == w.frameCount
    ensures CheckCollisionsW(w).w.gameSpeed == w.gameSpeed
  {
    var pr := PlayerRect(w.player);
    var first := FirstHit(pr, w.obstacles, 0);
    var h := if first.Some? then HandleObstacleW(w, first.value) else Out(w, [], []);
    assert Inv(h.w) by {
      if first.Some? {
        var i := first.value;
        var rest := RemoveAt(w.obstacles, i);
        assert forall k :: 0 <= k < |rest| ==> rest[k].damage == 1 by {
          forall k | 0 <= k < |rest| ensures rest[k].damage == 1 {
            if k < i { assert rest[k] == w.obstacles[k]; } else { assert rest[k] == w.obstacles[k + 1]; }
          }
        }
      }
    }
    PickupsKeepEffects(h.w, pr, |h.w.powerups|);
    PickupsFrame(h.w, pr, |h.w.powerups|);
  }

  /** The first half of `update()`: clock, player and obstacles. The score
      strictly rises (by at least 10/60 of a point). */
  lemma EarlySteps(w: World)
    requires Inv(w)
    ensures var r := UpdateObstaclesW(UpdatePlayerW(AdvanceClock(w)));
      && Inv(r) && r.isRunning == w.isRunning && r.gameState == w.gameState
      && r.frameCount == w.frameCount + 1
      && r.gameSpeed == GameSpeedFor(w.score)
      && r.distance == w.distance + GameSpeedFor(w.score)
      && r.score > w.score
  {
    var w1 := AdvanceClock(w);
    var gs := GameSpeedFor(w.score);
    assert gs >= 1.0;
    assert w1.score > w.score by {
      if w.fx.scoreMultiplier == 1.0 {
        assert w1.score == w.score + 10.0 * (gs / 60.0);
      } else {
        assert w1.score == w.score + 20.0 * (gs / 60.0);
      }
    }
    var w2 := UpdatePlayerW(w1);
    UpdatePlayerLands(w1);
    var w3 := UpdateObstaclesW(w2);
    UpdateObstaclesScores(w2);
    var delta := ObstacleShift(w2);
    KeptObstaclesOnScreen(w2.obstacles, delta);
    assert ObstaclesOk(w3) by {
      forall i | 0 <= i < |w3.obstacles| ensures w3.obstacles[i].damage == 1 {
        var j :| 0 <= j < |w2.obstacles| && w3.obstacles[i] == MoveObstacle(w2.obstacles[j], delta);
      }
    }
  }

  /** The second half of `update()` before collisions: powerups, effect
      timers and spawning. Score, distance and the run flags stay. */
  lemma LateSteps(w: World, now: real, rand: nat -> Unit, sin: real -> real)
    requires Inv(w)
    ensures var r := SpawnPowerupsW(SpawnObstaclesW(UpdateActiveW(UpdatePowerupsW(w, sin)), now, rand), rand);
      && Inv(r) && r.isRunning == w.isRunning && r.gameState == w.gameState
      && r.frameCount == w.frameCount && r.distance == w.distance && r.score == w.score
      && r.gameSpeed == w.gameSpeed
  {
    var w4 := UpdatePowerupsW(w, sin);
    var w5 := UpdateActiveW(w4);
    UpdateActiveKeepsEffects(w4.fx);
    var w6 := SpawnObstaclesW(w5, now, rand);
    SpawnObstaclesThrottled(w5, now, rand);
    assert ObstaclesOk(w6) by {
      if w6.obstacles != w5.obstacles {
        forall i | 0 <= i < |w6.obstacles| ensures w6.obstacles[i].damage == 1 {
          if i < |w5.obstacles| { assert w6.obstacles[i] == w5.obstacles[i]; }
        }
      }
    }
  }

  /** Each `update()` of a running game keeps the invariant, counts one
      frame, adds the current speed to the distance and strictly raises the
      score. */
  lemma UpdateAdvances(w: World, now: real, rand: nat -> Unit, sin: real -> real)
    requires Inv(w) && w.isRunning
    ensures var r := UpdateW(w, now, rand, sin).w;
      && Inv(r)
      && r.frameCount == w.frameCount + 1
      && BeforeCollisions(w, now, rand, sin).gameSpeed == r.gameSpeed == GameSpeedFor(w.score)
      && r.distance == w.distance + GameSpeedFor(w.score)
      && r.score > w.score
  {
    EarlySteps(w);
    var w3 := UpdateObstaclesW(UpdatePlayerW(AdvanceClock(w)));
    LateSteps(w3, now, rand, sin);
    CheckCollisionsKeepsInv(BeforeCollisions(w, now, rand, sin));
  }

  // -----------------------------------------------------------------------
  // Outcomes of a frame

  /** `handleObstacleCollision` on a running game: the obstacle is removed
      and one explosion particle asked for. A shield absorbs the hit: health
      stays, the flag drops, but the SHIELD entry stays in the active list
      until its timer runs out. Without a shield the player loses one point
      of health, and the run ends (state 'gameOver', not running, one
      game-over report) exactly when health reaches 0. */
  lemma HandleObstacleOutcome(w: World, i: nat)
    requires i < |w.obstacles| && Inv(w) && w.isRunning && w.gameState == Playing
    ensures var h := HandleObstacleW(w, i);
      && h.w.obstacles == RemoveAt(w.obstacles, i) && |h.cues| == 1
      && h.w.powerups == w.powerups && h.w.score == w.score
      && (w.fx.hasShield ==>
            && h.w.player == w.player && !h.w.fx.hasShield && h.w.fx.active == w.fx.active
            && Shield in TypesOf(h.w.fx.active)
            && h.w.isRunning && h.w.gameState == Playing && h.events == [])
      && (!w.fx.hasShield ==>
            && h.w.player == w.player.(health := w.player.health - 1) && h.w.fx == w.fx
            && (h.w.player.health == 0 <==> !h.w.isRunning)
            && h.w.gameState == (if h.w.player.health == 0 then GameOver else Playing)
            && h.events == (if h.w.player.health == 0 then [GameOverEvent(FinalStatsOf(h.w))] else []))
  {
  }

  /** `checkCollisions()` on a running game handles at most one obstacle,
      the first one touched in list order; whatever that did, the pickup
      loop still runs over every powerup (also in the frame that ends the
      game), and the run is over after the call exactly when a game-over
      report was made. */
  lemma CheckCollisionsOutcome(w: World)
    requires Inv(w) && w.isRunning && w.gameState == Playing
    ensures var pr := PlayerRect(w.player);
      var hit := FirstHit(pr, w.obstacles, 0);
      var c := CheckCollisionsW(w);
      var h := if hit.Some? then HandleObstacleW(w, hit.value) else Out(w, [], []);
      && c.w.obstacles == (if hit.Some? then RemoveAt(w.obstacles, hit.value) else w.obstacles)
      && c.w.player == h.w.player && c.w.isRunning == h.w.isRunning && c.w.gameState == h.w.gameState
      && c.w.powerups == Untouched(pr, w.powerups)
      && c.events == h.events + TouchedEvents(pr, w.powerups)
      && ((exists e :: e in c.events && e.GameOverEvent?) <==> !c.w.isRunning)
  {
    var pr := PlayerRect(w.player);
    var hit := FirstHit(pr, w.obstacles, 0);
    var h := if hit.Some? then HandleObstacleW(w, hit.value) else Out(w, [], []);
    if hit.Some? { HandleObstacleOutcome(w, hit.value); }
    PickupsCollectTouched(h.w, pr, |h.w.powerups|);
    PickupsFrame(h.w, pr, |h.w.powerups|);
    assert h.w.powerups[..|h.w.powerups|] == h.w.powerups;
    assert h.w.powerups[|h.w.powerups|..] == [];
    TouchedEventsArePickups(pr, w.powerups);
    var c := CheckCollisionsW(w);
    assert c.w.obstacles == (if hit.Some? then RemoveAt(w.obstacles, hit.value) else w.obstacles);
    assert c.w.player == h.w.player && c.w.isRunning == h.w.isRunning && c.w.gameState == h.w.gameState;
    assert c.w.powerups == Untouched(pr, w.powerups);
    assert c.events == h.events + TouchedEvents(pr, w.powerups);
    assert forall e :: e in c.events && e.GameOverEvent? ==> e in h.events;
    assert !h.w.isRunning ==> h.events[0] in c.events && h.events[0].GameOverEvent?;
  }

  lemma {:induction false} TouchedEventsArePickups(pr: Rect, ps: seq<Powerup>)
    ensures forall e :: e in TouchedEvents(pr, ps) ==> e.PowerupCollected?
  {
    if ps != [] {
      TouchedEventsArePickups(pr, ps[..|ps| - 1]);
    }
  }

  /** A frame of a running game always ends with the score report, also
      when it ended the game, and it reports a game over exactly when the
      run is over after it. */
  lemma UpdateReports(w: World, now: real, rand: nat -> Unit, sin: real -> real)
    requires Inv(w) && w.isRunning && w.gameState == Playing
    ensures var o := UpdateW(w, now, rand, sin);
      && |o.events| >= 1 && o.events[|o.events| - 1] == ScoreUpdate(StatsOf(o.w))
      && ((exists e :: e in o.events && e.GameOverEvent?) <==> !o.w.isRunning)
  {
    EarlySteps(w);
    var w3 := UpdateObstaclesW(UpdatePlayerW(AdvanceClock(w)));
    LateSteps(w3, now, rand, sin);
    var b := BeforeCollisions(w, now, rand, sin);
    CheckCollisionsOutcome(b);
    var c := CheckCollisionsW(b);
    var o := UpdateW(w, now, rand, sin);
    assert o.events == c.events + [ScoreUpdate(StatsOf(c.w))];
    assert forall e :: e in o.events && e.GameOverEvent? ==> e in c.events;
  }

  /** Distinct types: the active list is never longer than its type set. */
  lemma {:induction false} DistinctCount(active: seq<ActivePowerup>)
    requires EffectsDistinct(active)
    ensures |TypesOf(active)| == |active|
  {
    if active != [] {
      var n := |active| - 1;
      var init := active[..n];
      assert active == init + [active[n]];
      assert EffectsDistinct(init) by {
        forall i, j | 0 <= i < j < |init| ensures init[i].ptype != init[j].ptype {
          assert init[i] == active[i] && init[j] == active[j];
        }
      }
      DistinctCount(init);
      TypesOfAppend(init, [active[n]]);
      TypesOfSingle(active[n]);
      forall j | 0 <= j < |init| ensures init[j].ptype != active[n].ptype {
        assert init[j] == active[j];
      }
      assert active[n].ptype !in TypesOf(init);
    }
  }

  /** The game-over snapshot's `powerupsCollected` is the number of effects
      active at that moment, not a count of pickups: it is never more than
      the four powerup types, however many were collected. */
  lemma PowerupsCollectedAtMostFour(w: World)
    requires Inv(w)
    ensures GameOverW(w).events == [GameOverEvent(FinalStats(w.score.Floor, w.distance.Floor, |w.fx.active|))]
    ensures FinalStatsOf(w).powerupsCollected <= 4
  {
    DistinctCount(w.fx.active);
    assert TypesOf(w.fx.active) <= {Speed, Shield, DoubleJump, Multiplier} by {
      forall t | t in TypesOf(w.fx.active) ensures t in {Speed, Shield, DoubleJump, Multiplier} {
        match t
        case Speed =>
        case Shield =>
        case DoubleJump =>
        case Multiplier =>
      }
    }
    SubsetCard(TypesOf(w.fx.active), {Speed, Shield, DoubleJump, Multiplier});
  }

  lemma SubsetCard(a: set<PowerupType>, b: set<PowerupType>)
    requires a <= b
    ensures |a| <= |b|
  {
    if a != {} {
      var x :| x in a;
      SubsetCard(a - {x}, b - {x});
    }
  }

  /** A player airborne after a double jump, whose DOUBLE_JUMP effect has
      less than one frame left. */
  const DOUBLE_JUMP_RUNNING_OUT: World :=
    INITIAL_WORLD.(gameState := Playing, isRunning := true,
      player := INITIAL_PLAYER.(y := 100.0, velocityY := -5.0, onGround := false, state := Jumping,
                                jumpCount := 2, maxJumps := 2),
      fx := NO_EFFECTS.(active := [ActivePowerup(DoubleJump, 10.0)], hasDoubleJump := true))

  /** `jumpCount <= maxJumps` is not an invariant of the engine: from a
      state that satisfies it (and the engine invariant), one frame's effect
      expiry followed by the next frame's `updatePlayer` leaves two jumps
      counted against one allowed until the player lands. */
  lemma JumpCountCanExceedMaxJumps()
    ensures var w := DOUBLE_JUMP_RUNNING_OUT;
      && Inv(w) && w.player.jumpCount <= w.player.maxJumps
      && var r := UpdatePlayerW(UpdateActiveW(w)).player;
      r.jumpCount == 2 && r.maxJumps == 1 && !r.onGround
  {
    var w := DOUBLE_JUMP_RUNNING_OUT;
    TypesOfSingle(ActivePowerup(DoubleJump, 10.0));
    var e := UpdateActiveW(w);
    assert ExpiredTypes(w.fx.active) == [DoubleJump] by {
      assert w.fx.active[..0] == [];
    }
    assert !e.fx.hasDoubleJump;
  }

  /** The transitions outside `update()` keep the invariant: a jump, a
      pause toggle, `start()`, `gameOver()`, and the hook's direct writes of
      `gameState`. */
  lemma OtherStepsKeepInv(w: World, s: GameState)
    requires Inv(w)
    ensures Inv(JumpW(w).w) && Inv(TogglePauseW(w)) && Inv(StartW(w)) && Inv(ResetW(w))
    ensures Inv(GameOverW(w).w) && Inv(w.(gameState := s))
  {
    assert TypesOf([]) == {};
  }

  /** Powerup pruning keeps order, treats each powerup on its own, and
      awards nothing: only the powerup list changes. */
  lemma {:induction false} KeptPowerupsFilter(a: seq<Powerup>, b: seq<Powerup>, delta: real, sin: real -> real)
    ensures KeptPowerups(a + b, delta, sin) == KeptPowerups(a, delta, sin) + KeptPowerups(b, delta, sin)
    decreases |b|
  {
    if b == [] {
      assert a + b == a;
    } else {
      var b' := b[..|b| - 1];
      assert (a + b)[..|a + b| - 1] == a + b';
      assert (a + b)[|a + b| - 1] == b[|b| - 1];
      KeptPowerupsFilter(a, b', delta, sin);
    }
  }

  lemma UpdatePowerupsScoresNothing(w: World, sin: real -> real)
    ensures UpdatePowerupsW(w, sin).(powerups := w.powerups) == w
    ensures |UpdatePowerupsW(w, sin).powerups| <= |w.powerups|
  {
  }

  // -----------------------------------------------------------------------
  // Particles asked for by a step

  /** The particle `addParticle` makes for a cue from draws d, d+1, d+2. */
  function CueParticle(c: Cue, rand: nat -> Unit, d: nat): Particle
  {
    NewParticle(c.x, c.y, c.kind, rand(d), rand(d + 1), rand(d + 2))
  }

  /** The particles for a run of cues, three draws each from `d` on. */
  function CueParticles(cues: seq<Cue>, rand: nat -> Unit, d: nat): (r: seq<Particle>)
    ensures |r| == |cues|
  {
    seq(|cues|, i requires 0 <= i < |cues| => CueParticle(cues[i], rand, d + 3 * i))
  }

  /** A particle list that grew by one run of cues and then by the next is
      the list grown by both runs at once. */
  lemma ExtendParticles(ps: seq<Particle>, a: seq<Cue>, b: seq<Cue>, rand: nat -> Unit, d: nat)
    ensures (ps + CueParticles(a, rand, d)) + CueParticles(b, rand, d + 3 * |a|) == ps + CueParticles(a + b, rand, d)
  {
    CueParticlesAppend(a, b, rand, d);
    AppendAssoc(ps, CueParticles(a, rand, d), CueParticles(b, rand, d + 3 * |a|));
  }

  /** Two runs of cues in a row use consecutive draws. */
  lemma CueParticlesAppend(a: seq<Cue>, b: seq<Cue>, rand: nat -> Unit, d: nat)
    ensures CueParticles(a + b, rand, d) == CueParticles(a, rand, d) + CueParticles(b, rand, d + 3 * |a|)
  {
    var l := CueParticles(a + b, rand, d);
    var r := CueParticles(a, rand, d) + CueParticles(b, rand, d + 3 * |a|);
    forall i | 0 <= i < |l| ensures l[i] == r[i] {
      if i >= |a| {
        assert (a + b)[i] == b[i - |a|];
        assert d + 3 * i == (d + 3 * |a|) + 3 * (i - |a|);
      }
    }
  }

  /** Every particle asked for by the engine lives 30 frames and has the
      colour of its kind. */
  lemma CueParticlesFresh(cues: seq<Cue>, rand: nat -> Unit, d: nat)
    ensures forall i :: 0 <= i < |cues| ==>
      var p := CueParticles(cues, rand, d)[i];
      p.life == PARTICLE_LIFE && p.maxLife == PARTICLE_LIFE && p.kind == cues[i].kind
      && p.x == cues[i].x && p.y == cues[i].y && p.color == ParticleColor(cues[i].kind)
  {
  }

  // -----------------------------------------------------------------------
  // The frame loop

  /** `requestAnimationFrame` bookkeeping: `current` is `animationFrameId`
      (0 for null), `pending` the callbacks the browser will still fire,
      `nextId` the id the next request gets (ids start at 1). */
  datatype Sched = Sched(current: nat, pending: set<nat>, nextId: nat)

  const NO_FRAMES: Sched := Sched(0, {}, 1)

  function RequestFrame(s: Sched): (r: Sched)
    ensures r.pending == s.pending + {s.nextId} && r.current == s.nextId && r.nextId == s.nextId + 1
  {
    Sched(s.nextId, s.pending + {s.nextId}, s.nextId + 1)
  }

  function CancelFrame(s: Sched): (r: Sched)
    ensures r.pending == s.pending - {s.current} && r.current == s.current && r.nextId == s.nextId
  {
    s.(pending := s.pending - {s.current})
  }

  /** `gameOver()`'s frame handling: cancel the held id and forget it. */
  function DropFrame(s: Sched): (r: Sched)
    ensures r.pending == s.pending - {s.current} && r.current == 0 && r.nextId == s.nextId
  {
    Sched(0, s.pending - {s.current}, s.nextId)
  }

  /** Ids handed out so far are below `nextId`. */
  predicate SchedOk(s: Sched)
  {
    s.nextId >= 1 && s.current < s.nextId && forall id :: id in s.pending ==> 1 <= id < s.nextId
  }

  /** The engine's simulation fields together with its frame bookkeeping. */
  datatype Machine = Machine(w: World, s: Sched)

  datatype MOut = MOut(m: Machine, events: seq<Event>, cues: seq<Cue>)

  /** `gameLoop()` (lines 154-173): stops for good once not running or over;
      otherwise updates when playing and unpaused (a `gameOver()` inside
      cancels the id then held), and always asks for the next frame. */
  function GameLoopM(m: Machine, now: real, rand: nat -> Unit, sin: real -> real): MOut
  {
    LoopWith(m, UpdateW(m.w, now, rand, sin))
  }

  /** One `gameLoop()` given `u`, the outcome `update()` would have. */
  function LoopWith(m: Machine, u: Out): MOut
  {
    if !m.w.isRunning || m.w.gameState == GameOver then MOut(m, [], [])
    else if m.w.gameState == Playing && !m.w.isPaused then
      var s := if u.w.isRunning then m.s else DropFrame(m.s);
      MOut(Machine(u.w, RequestFrame(s)), u.events, u.cues)
    else MOut(Machine(m.w, RequestFrame(m.s)), [], [])
  }

  /** The browser fires the pending frame `id`. */
  function StepM(m: Machine, id: nat, now: real, rand: nat -> Unit, sin: real -> real): MOut
    requires id in m.s.pending
  {
    GameLoopM(m.(s := m.s.(pending := m.s.pending - {id})), now, rand, sin)
  }

  /** `start()` (lines 110-117): state, flags, reset, then one synchronous
      `gameLoop()`. */
  function StartM(m: Machine, now: real, rand: nat -> Unit, sin: real -> real): MOut
  {
    GameLoopM(m.(w := StartW(m.w)), now, rand, sin)
  }

  /** `gameOver()` called directly. */
  function GameOverM(m: Machine): MOut
  {
    var g := GameOverW(m.w);
    MOut(Machine(g.w, DropFrame(m.s)), g.events, [])
  }

  /** `destroy()` (lines 761-766). */
  function DestroyM(m: Machine): Machine
  {
    Machine(m.w.(isRunning := false), CancelFrame(m.s))
  }

  /** Every frame keeps the ids handed out below `nextId`. */
  lemma GameLoopKeepsSchedOk(m: Machine, now: real, rand: nat -> Unit, sin: real -> real)
    requires SchedOk(m.s)
    ensures SchedOk(GameLoopM(m, now, rand, sin).m.s)
  {
    LoopWithKeepsSchedOk(m, UpdateW(m.w, now, rand, sin));
  }

  lemma LoopWithKeepsSchedOk(m: Machine, u: Out)
    requires SchedOk(m.s)
    ensures SchedOk(LoopWith(m, u).m.s)
  {
    if m.w.isRunning && m.w.gameState != GameOver && m.w.gameState == Playing && !m.w.isPaused {
      var s := if u.w.isRunning then m.s else DropFrame(m.s);
      assert SchedOk(s);
    }
  }

  /** So do firing a frame, `start()`, `gameOver()` and `destroy()`. */
  lemma FrameStepsKeepSchedOk(m: Machine, id: nat, now: real, rand: nat -> Unit, sin: real -> real)
    requires SchedOk(m.s)
    ensures SchedOk(StartM(m, now, rand, sin).m.s)
    ensures SchedOk(GameOverM(m).m.s) && SchedOk(DestroyM(m).s)
    ensures id in m.s.pending ==> SchedOk(StepM(m, id, now, rand, sin).m.s)
  {
    GameLoopKeepsSchedOk(m.(w := StartW(m.w)), now, rand, sin);
    if id in m.s.pending {
      GameLoopKeepsSchedOk(m.(s := m.s.(pending := m.s.pending - {id})), now, rand, sin);
    }
  }

  /** While the game runs and is not over, every frame asks for exactly one
      next frame, whether it updated (playing) or not (paused, menu); a
      frame that updates adds exactly one frame's progress. */
  lemma LiveFrameReschedules(m: Machine, id: nat, now: real, rand: nat -> Unit, sin: real -> real)
    requires id in m.s.pending && SchedOk(m.s) && Inv(m.w)
    requires m.w.isRunning && m.w.gameState != GameOver
    ensures var o := StepM(m, id, now, rand, sin);
      && m.s.nextId !in m.s.pending
      && o.m.s.current == m.s.nextId && m.s.nextId in o.m.s.pending
      && o.m.s.pending - {m.s.nextId} <= m.s.pending - {id}
      && (m.w.gameState == Playing && !m.w.isPaused ==> o.m.w.frameCount == m.w.frameCount + 1)
      && (m.w.gameState != Playing || m.w.isPaused ==> o.m.w == m.w && o.events == [])
  {
    if m.w.gameState == Playing && !m.w.isPaused {
      UpdateAdvances(m.w, now, rand, sin);
    }
  }

  /** The frame in which the game ends still asks for one more frame; that
      frame then does nothing and asks for none, so the loop stops. */
  lemma GameOverFrameSchedulesOneMore(m: Machine, id: nat, now: real, rand: nat -> Unit, sin: real -> real)
    requires id in m.s.pending && SchedOk(m.s) && Inv(m.w)
    requires m.w.isRunning && m.w.gameState == Playing && !m.w.isPaused
    requires !StepM(m, id, now, rand, sin).m.w.isRunning
    ensures var o := StepM(m, id, now, rand, sin);
      && o.m.w.gameState == GameOver
      && o.m.s.current in o.m.s.pending
      && var last := StepM(o.m, o.m.s.current, now, rand, sin);
      last.m.w == o.m.w && last.events == [] && last.m.s.pending == o.m.s.pending - {o.m.s.current}
  {
    UpdateEndsInGameOver(m.w, now, rand, sin);
  }

  /** A frame that stops the run leaves the state 'gameOver'. */
  lemma UpdateEndsInGameOver(w: World, now: real, rand: nat -> Unit, sin: real -> real)
    requires Inv(w) && w.isRunning && w.gameState == Playing
    ensures !UpdateW(w, now, rand, sin).w.isRunning ==> UpdateW(w, now, rand, sin).w.gameState == GameOver
  {
    EarlySteps(w);
    LateSteps(UpdateObstaclesW(UpdatePlayerW(AdvanceClock(w))), now, rand, sin);
    var b := BeforeCollisions(w, now, rand, sin);
    CheckCollisionsOutcome(b);
    var hit := FirstHit(PlayerRect(b.player), b.obstacles, 0);
    if hit.Some? {
      HandleObstacleOutcome(b, hit.value);
    }
  }

  /** After `destroy()` no frame does anything or asks for another. */
  lemma DestroyStopsLoop(m: Machine, id: nat, now: real, rand: nat -> Unit, sin: real -> real)
    requires id in DestroyM(m).s.pending
    ensures var o := StepM(DestroyM(m), id, now, rand, sin);
      o.m.w == DestroyM(m).w && o.events == [] && o.m.s.pending == DestroyM(m).s.pending - {id}
  {
  }

  /** `start()` while an earlier loop is still live (running, a frame
      pending, as after going back to the menu with Escape, which leaves
      `isRunning` set) does not stop that loop: the old pending frame stays
      and a second one is added, so two frame chains run side by side and
      `update()` runs twice per display frame. */
  lemma StartWhileLiveAddsSecondChain(m: Machine, now: real, rand: nat -> Unit, sin: real -> real)
    requires SchedOk(m.s) && Inv(m.w) && m.w.isRunning && m.s.current in m.s.pending
    ensures var o := StartM(m, now, rand, sin);
      && o.m.s.pending == m.s.pending + {m.s.nextId}
      && m.s.current in o.m.s.pending && m.s.nextId in o.m.s.pending && m.s.current != m.s.nextId
      && |o.m.s.pending| == |m.s.pending| + 1
  {
    var w := StartW(m.w);
    OtherStepsKeepInv(m.w, Playing);
    assert w.isRunning && w.gameState == Playing && !w.isPaused;
    assert w.player.health == 3;
    var u := UpdateW(w, now, rand, sin);
    UpdateRunsOnAtFullHealth(w, now, rand, sin);
    assert LoopWith(m.(w := w), u).m.s == RequestFrame(m.s);
    assert m.s.nextId !in m.s.pending;
  }

  /** From full health, one frame cannot end the run (one hit costs one
      point). */
  lemma UpdateRunsOnAtFullHealth(w: World, now: real, rand: nat -> Unit, sin: real -> real)
    requires Inv(w) && w.isRunning && w.gameState == Playing && w.player.health == 3
    ensures UpdateW(w, now, rand, sin).w.isRunning
  {
    EarlySteps(w);
    var w3 := UpdateObstaclesW(UpdatePlayerW(AdvanceClock(w)));
    LateSteps(w3, now, rand, sin);
    var b := BeforeCollisions(w, now, rand, sin);
    assert b.player.health == 3 by {
      UpdatePlayerLands(AdvanceClock(w));
    }
    CheckCollisionsOutcome(b);
    var hit := FirstHit(PlayerRect(b.player), b.obstacles, 0);
    if hit.Some? {
      HandleObstacleOutcome(b, hit.value);
    }
  }
}
