/** The `GameEngine` class of frontend/src/utils/gameEngine.js, over the
    fields the source keeps. Every method is proved to move those fields
    exactly as the pure step of the same name in module EngineSpec says
    (`View()` is the snapshot of the simulation fields, `Frames()` that of
    the animation-frame bookkeeping); the game's properties are proved
    there, about those steps. */
module Engine {
  import opened Common
  import opened Constants
  import opened Sprites
  import opened EngineSpec

  /** The key codes the keyboard listeners tell apart. */
  datatype KeyCode = Space | ArrowUp | KeyP | KeyR | Escape | OtherKey

  class GameEngine {
    var gameState: GameState
    var isRunning: bool
    var isPaused: bool
    var score: real
    var distance: real
    var gameSpeed: real
    var frameCount: nat
    var player: Player
    /** `player.sprite`: the running animation. */
    const playerSprite: AnimatedSprite
    var obstacles: seq<Obstacle>
    var powerups: seq<Powerup>
    var activePowerups: seq<ActivePowerup>
    const particleSystem: ParticleSystem
    const backgroundManager: BackgroundManager
    var speedMultiplier: real
    var scoreMultiplier: real
    var hasShield: bool
    var hasDoubleJump: bool
    /** `_lastObstacleSpawnAt`. */
    var lastObstacleSpawnAt: real
    /** How many `Math.random()` values have been drawn; the i-th is `rand(i)`. */
    var draws: nat
    /** `animationFrameId`, 0 standing for null (ids start at 1). */
    var animationFrameId: nat
    /** The frame callbacks the browser will still fire. */
    var pendingFrames: set<nat>
    var nextFrameId: nat
    /** The calls of `onScoreUpdate`, `onGameOver` and `onPowerupCollect`
        made so far, in order. */
    var events: seq<Event>

    function View(): World
      reads this
    {
      World(gameState, isRunning, isPaused, score, distance, gameSpeed, frameCount, player,
            obstacles, powerups,
            Effects(activePowerups, speedMultiplier, scoreMultiplier, hasShield, hasDoubleJump),
            lastObstacleSpawnAt, draws)
    }

    function Frames(): Sched
      reads this
    {
      Sched(animationFrameId, pendingFrames, nextFrameId)
    }

    ghost predicate Valid()
      reads this, playerSprite, backgroundManager
    {
      playerSprite.Valid() && backgroundManager.Valid() && Inv(View()) && SchedOk(Frames())
    }

    /** `new GameEngine(canvas, spriteManager)` (lines 12-74), without the
        canvas, the sprite manager and the listener wiring. */
    constructor ()
      ensures Valid()
      ensures View() == INITIAL_WORLD && Frames() == NO_FRAMES && events == []
      ensures playerSprite.spriteKey == "RUNNER" && playerSprite.frameCount == RUNNER_FRAMES
      ensures playerSprite.animSpeed == RUNNER_ANIM_SPEED && playerSprite.currentFrame == 0
      ensures particleSystem.particles == [] && backgroundManager.layers == INITIAL_LAYERS
      ensures backgroundManager.width == CANVAS_WIDTH && backgroundManager.height == CANVAS_HEIGHT
      ensures fresh(playerSprite) && fresh(particleSystem) && fresh(backgroundManager)
    {
      gameState := Menu;
      score := 0.0;
      distance := 0.0;
      gameSpeed := 1.0;
      frameCount := 0;
      isRunning := false;
      isPaused := false;
      player := Player(100.0, CANVAS_HEIGHT - 100.0, 32.0, 48.0, 0.0, true, Running, 0, 1, 3, 3);
      playerSprite := new AnimatedSprite("RUNNER", RUNNER_FRAMES, RUNNER_ANIM_SPEED);
      obstacles := [];
      powerups := [];
      activePowerups := [];
      particleSystem := new ParticleSystem();
      backgroundManager := new BackgroundManager(CANVAS_WIDTH, CANVAS_HEIGHT);
      animationFrameId := 0;
      pendingFrames := {};
      nextFrameId := 1;
      speedMultiplier := 1.0;
      scoreMultiplier := 1.0;
      hasShield := false;
      hasDoubleJump := false;
      events := [];
      lastObstacleSpawnAt := 0.0;
      draws := 0;
      InitialInv();
    }

    /** `reset()` (lines 119-152). */
    method Reset()
      modifies this, particleSystem
      ensures View() == ResetW(old(View())) && particleSystem.particles == []
      ensures Frames() == old(Frames()) && events == old(events)
    {
      ResetCounters();
      ResetPlayer();
      ClearLists();
      ClearEffects();
      particleSystem.Clear();
      lastObstacleSpawnAt := 0.0;
    }

    /** Lines 122-125 of `reset()`: the counters. */
    method ResetCounters()
      modifies this
      ensures View() == old(View()).(score := 0.0, distance := 0.0, gameSpeed := 1.0, frameCount := 0)
      ensures Frames() == old(Frames()) && events == old(events)
    {
      score := 0.0;
      distance := 0.0;
      gameSpeed := 1.0;
      frameCount := 0;
    }

    /** Lines 128-135 of `reset()`: the player back on the ground at x = 100
        with full health. */
    method ResetPlayer()
      modifies this
      ensures View() == old(View()).(player := old(player).(x := 100.0, y := GROUND - old(player).height,
                velocityY := 0.0, onGround := true, state := Running, jumpCount := 0, health := 3))
      ensures Frames() == old(Frames()) && events == old(events)
    {
      var groundBase := CANVAS_HEIGHT - 100.0;
      player := player.(x := 100.0, y := groundBase - player.height, velocityY := 0.0, onGround := true,
                        state := Running, jumpCount := 0, health := 3);
    }

    /** Lines 138-140 of `reset()`: the three lists emptied. */
    method ClearLists()
      modifies this
      ensures View() == old(View()).(obstacles := [], powerups := [], fx := old(View()).fx.(active := []))
      ensures Frames() == old(Frames()) && events == old(events)
    {
      obstacles := [];
      powerups := [];
      activePowerups := [];
    }

    /** Lines 143-146 of `reset()`: every effect switched off. */
    method ClearEffects()
      modifies this
      ensures View() == old(View()).(fx := NO_EFFECTS.(active := old(activePowerups)))
      ensures Frames() == old(Frames()) && events == old(events)
    {
      speedMultiplier := 1.0;
      scoreMultiplier := 1.0;
      hasShield := false;
      hasDoubleJump := false;
    }

    /** `particleSystem.addParticle(x, y, kind)` with its three draws. */
    method AddParticle(x: real, y: real, kind: string, rand: nat -> Unit)
      modifies this, particleSystem
      ensures View() == old(View()).(draws := old(draws) + 3)
      ensures particleSystem.particles == old(particleSystem.particles) + CueParticles([Cue(x, y, kind)], rand, old(draws))
      ensures Frames() == old(Frames()) && events == old(events)
    {
      particleSystem.AddParticle(x, y, kind, rand(draws), rand(draws + 1), rand(draws + 2));
      draws := draws + 3;
    }

    /** `updatePlayer()` (lines 217-249). */
    method UpdatePlayer()
      requires playerSprite.Valid()
      modifies this, playerSprite
      ensures View() == UpdatePlayerW(old(View()))
      ensures playerSprite.Valid()
      ensures (playerSprite.currentFrame, playerSprite.frameTimer)
           == Tick(playerSprite.frameCount, playerSprite.animSpeed, old(playerSprite.currentFrame), old(playerSprite.frameTimer))
      ensures Frames() == old(Frames()) && events == old(events)
    {
      playerSprite.Update();
      var p := player;
      if !p.onGround {
        p := p.(velocityY := p.velocityY + GRAVITY);
      }
      p := p.(y := p.y + p.velocityY);
      var groundBase := CANVAS_HEIGHT - 100.0;
      if p.y + p.height >= groundBase {
        p := p.(y := groundBase - p.height, velocityY := 0.0, onGround := true, jumpCount := 0, state := Running);
      } else {
        p := p.(onGround := false, state := if p.velocityY < 0.0 then Jumping else Falling);
      }
      player := p.(maxJumps := if hasDoubleJump then 2 else 1);
    }

    /** `jump()` (lines 251-260). */
    method Jump(rand: nat -> Unit)
      modifies this, particleSystem
      ensures var o := JumpW(old(View()));
        && View() == o.w && events == old(events) + o.events
        && particleSystem.particles == old(particleSystem.particles) + CueParticles(o.cues, rand, old(draws))
      ensures Frames() == old(Frames())
    {
      if gameState != Playing || isPaused {
        return;
      }
      if player.jumpCount < player.maxJumps {
        player := player.(velocityY := JUMP_FORCE, jumpCount := player.jumpCount + 1, onGround := false);
        AddParticle(player.x, player.y + player.height, "jump", rand);
      }
    }

    /** `updateObstacles()` (lines 262-274): the filter that moves every
        obstacle and drops, with a dodge bonus, those that left the screen. */
    method UpdateObstacles()
      modifies this
      ensures View() == UpdateObstaclesW(old(View()))
      ensures Frames() == old(Frames()) && events == old(events)
    {
      ghost var w0 := View();
      var delta := OBSTACLE_SPEED * gameSpeed * speedMultiplier;
      var bonus := OBSTACLE_DODGE * scoreMultiplier;
      assert delta == ObstacleShift(w0) && bonus == DodgeValue(w0);
      var kept: seq<Obstacle> := [];
      var s := score;
      var i := 0;
      while i < |obstacles|
        invariant 0 <= i <= |obstacles|
        invariant kept == KeptObstacles(obstacles[..i], delta)
        invariant s == score + DodgeBonus(obstacles[..i], delta, bonus)
      {
        var o := obstacles[i].(x := obstacles[i].x - delta);
        assert obstacles[..i + 1][..i] == obstacles[..i];
        if o.x + o.width < 0.0 {
          s := s + bonus;
        } else {
          kept := kept + [o];
        }
        i := i + 1;
      }
      assert obstacles[..i] == obstacles;
      obstacles := kept;
      score := s;
    }

    /** `updatePowerups()` (lines 276-286); `sin` stands for `Math.sin`. */
    method UpdatePowerups(sin: real -> real)
      modifies this
      ensures View() == UpdatePowerupsW(old(View()), sin)
      ensures Frames() == old(Frames()) && events == old(events)
    {
      var delta := POWERUP_SPEED * gameSpeed;
      assert delta == PowerupShift(View());
      var kept: seq<Powerup> := [];
      var i := 0;
      while i < |powerups|
        invariant 0 <= i <= |powerups|
        invariant kept == KeptPowerups(powerups[..i], delta, sin)
      {
        var p := powerups[i];
        p := p.(x := p.x - delta);
        p := p.(floatOffset := p.floatOffset + 0.1);
        p := p.(y := p.y + sin(p.floatOffset) * 0.5);
        assert powerups[..i + 1][..i] == powerups[..i];
        if p.x + p.width > 0.0 {
          kept := kept + [p];
        }
        i := i + 1;
      }
      assert powerups[..i] == powerups;
      powerups := kept;
    }

    /** `removePowerupEffect(type)` (lines 489-530), called with a key of
        POWERUP_TYPES. */
    method RemovePowerupEffect(t: PowerupType)
      modifies this
      ensures View() == old(View()).(fx := RemoveEffect(old(View()).fx, t))
      ensures Frames() == old(Frames()) && events == old(events)
    {
      match Config(t).effect
      case SpeedEffect => speedMultiplier := 1.0;
      case ShieldEffect => hasShield := false;
      case DoubleJumpEffect => hasDoubleJump := false;
      case MultiplierEffect => scoreMultiplier := 1.0;
    }

    /** `updateActivePowerups()` (lines 288-299): every timer loses one
        frame; an entry that runs out is dropped and its effect reverted. */
    method UpdateActivePowerups()
      modifies this
      ensures View() == UpdateActiveW(old(View()))
      ensures Frames() == old(Frames()) && events == old(events)
    {
      ghost var w0 := View();
      var active := activePowerups;
      var kept: seq<ActivePowerup> := [];
      var i := 0;
      while i < |active|
        invariant 0 <= i <= |active| && active == w0.fx.active
        invariant kept == TickedActive(active[..i])
        invariant View() == w0.(fx := RevertAll(w0.fx, ExpiredTypes(active[..i])))
        invariant Frames() == old(Frames()) && events == old(events)
      {
        ActiveStep(w0.fx, active, i);
        var part := TickEntry(active[i]);
        kept := kept + part;
        i := i + 1;
      }
      assert active[..i] == active;
      activePowerups := kept;
    }

    /** The filter callback of `updateActivePowerups()` (lines 290-297)
        for one entry: the entry after one frame, or nothing once its time
        is up, after its effect is removed. */
    method TickEntry(a: ActivePowerup) returns (part: seq<ActivePowerup>)
      modifies this
      ensures View() == old(View()).(fx := ExpireStep(old(View()).fx, a)) && part == TickPart(a)
      ensures Frames() == old(Frames()) && events == old(events)
    {
      var timeLeft := a.timeLeft - FRAME_MS;
      if timeLeft <= 0.0 {
        RemovePowerupEffect(a.ptype);
        part := [];
      } else {
        part := [a.(timeLeft := timeLeft)];
      }
    }

    /** `applyPowerupEffect(type, config)` (lines 459-487). */
    method ApplyPowerupEffect(t: PowerupType)
      modifies this
      ensures View() == old(View()).(fx := ApplyEffect(old(View()).fx, t))
      ensures Frames() == old(Frames()) && events == old(events)
    {
      RestartTimer(t);
      SwitchOnEffect(t);
    }

    /** Lines 461-470 of `applyPowerupEffect`: any entry of the same type
        is dropped and a fresh one, with the full duration in
        milliseconds, is appended. */
    method RestartTimer(t: PowerupType)
      modifies this
      ensures View() == old(View()).(fx := old(View()).fx.(
                active := Without(old(activePowerups), t) + [ActivePowerup(t, DurationMs(Config(t).duration))]))
      ensures Frames() == old(Frames()) && events == old(events)
    {
      activePowerups := Without(activePowerups, t);
      var d := Config(t).duration;
      var durationMs := if d != 0.0 && d > 1000.0 then d else d * 1000.0;
      activePowerups := activePowerups + [ActivePowerup(t, durationMs)];
    }

    /** Lines 472-486 of `applyPowerupEffect`: the effect's own switch. */
    method SwitchOnEffect(t: PowerupType)
      modifies this
      ensures View() == old(View()).(fx := SwitchOn(old(View()).fx, t))
      ensures Frames() == old(Frames()) && events == old(events)
    {
      match Config(t).effect
      case SpeedEffect => speedMultiplier := 1.5;
      case ShieldEffect => hasShield := true;
      case DoubleJumpEffect => hasDoubleJump := true;
      case MultiplierEffect => scoreMultiplier := 2.0;
    }

    /** `spawnObstacles()` (lines 301-349); `now` is `performance.now()`. */
    method SpawnObstacles(now: real, rand: nat -> Unit)
      modifies this
      ensures View() == SpawnObstaclesW(old(View()), now, rand)
      ensures Frames() == old(Frames()) && events == old(events)
    {
      var phase := CurrentPhase(score);
      if NearSpawn(obstacles) {
        return;
      }
      if now - lastObstacleSpawnAt < MIN_SPAWN_INTERVAL_MS {
        return;
      }
      var r := rand(draws);
      if r < phase.obstacleFreq {
        PlaceCluster(now, rand);
      } else {
        draws := draws + 1;
      }
    }

    /** The spawning branch of `spawnObstacles()` (lines 324-348): the
        cluster loop over `clusterSize` (1) obstacles, one jitter draw each,
        after the draw that decided to spawn. */
    method PlaceCluster(now: real, rand: nat -> Unit)
      modifies this
      ensures View() == old(View()).(obstacles := old(obstacles) + [SpawnedObstacle(0, rand(old(draws) + 1))],
                                      lastObstacleSpawnAt := now, draws := old(draws) + 2)
      ensures Frames() == old(Frames()) && events == old(events)
    {
      var spawned := obstacles;
      var d := draws + 1;
      var i := 0;
      while i < CLUSTER_SIZE
        invariant 0 <= i <= CLUSTER_SIZE
        invariant i == 0 ==> spawned == obstacles && d == draws + 1
        invariant i == 1 ==> spawned == obstacles + [SpawnedObstacle(0, rand(draws + 1))] && d == draws + 2
      {
        var jitter := rand(d);
        d := d + 1;
        spawned := spawned + [SpawnedObstacle(i, jitter)];
        i := i + 1;
      }
      obstacles := spawned;
      draws := d;
      lastObstacleSpawnAt := now;
    }

    /** `spawnPowerups()` (lines 351-371). */
    method SpawnPowerups(rand: nat -> Unit)
      modifies this
      ensures View() == SpawnPowerupsW(old(View()), rand)
      ensures Frames() == old(Frames()) && events == old(events)
    {
      var phase := CurrentPhase(score);
      var r := rand(draws);
      if r < phase.powerupFreq {
        PlacePowerup(rand);
      } else {
        draws := draws + 1;
      }
    }

    /** The spawning branch of `spawnPowerups()` (lines 355-370): a type,
        a height and a float phase, one draw each after the deciding draw. */
    method PlacePowerup(rand: nat -> Unit)
      modifies this
      ensures View() == old(View()).(powerups := old(powerups) + [SpawnedPowerup(rand(old(draws) + 1), rand(old(draws) + 2), rand(old(draws) + 3))],
                                      draws := old(draws) + 4)
      ensures Frames() == old(Frames()) && events == old(events)
    {
      var t := POWERUP_KEYS[KeyIndex(rand(draws + 1))];
      var y := CANVAS_HEIGHT - 150.0 - rand(draws + 2) * 100.0;
      var floatOffset := rand(draws + 3) * PI * 2.0;
      powerups := powerups + [Powerup(CANVAS_WIDTH, y, Config(t).width, Config(t).height, t, floatOffset)];
      draws := draws + 4;
    }

    /** `gameOver()` (lines 730-748). Cancelling id 0 (null) is harmless:
        no frame ever has that id. */
    method GameOver()
      modifies this
      ensures var g := GameOverW(old(View()));
        View() == g.w && events == old(events) + g.events
      ensures Frames() == DropFrame(old(Frames()))
    {
      gameState := GameState.GameOver;
      isRunning := false;
      DropAnimationFrame();
      events := events + [GameOverEvent(FinalStats(score.Floor, distance.Floor, |activePowerups|))];
    }

    /** `cancelAnimationFrame(this.animationFrameId)` and forgetting the id
        (lines 736-740). */
    method DropAnimationFrame()
      modifies this
      ensures View() == old(View()) && events == old(events)
      ensures Frames() == DropFrame(old(Frames()))
    {
      pendingFrames := pendingFrames - {animationFrameId};
      animationFrameId := 0;
    }

    /** `handleObstacleCollision(obstacle, i)` (lines 417-441). */
    method HandleObstacleCollision(i: nat, rand: nat -> Unit)
      requires i < |obstacles|
      modifies this, particleSystem
      ensures var h := HandleObstacleW(old(View()), i);
        && View() == h.w && events == old(events) + h.events
        && particleSystem.particles == old(particleSystem.particles) + CueParticles(h.cues, rand, old(draws))
        && Frames() == (if h.events == [] then old(Frames()) else DropFrame(old(Frames())))
    {
      if hasShield {
        ConsumeShield();
        RemoveObstacle(i, rand);
        return;
      }
      TakeDamage(obstacles[i].damage);
      if player.health <= 0 {
        RemoveObstacle(i, rand);
        GameOver();
        return;
      }
      RemoveObstacle(i, rand);
    }

    /** Lines 420-421: the shield is used up and its effect removed. */
    method ConsumeShield()
      modifies this
      ensures View() == old(View()).(fx := RemoveEffect(old(View()).fx.(hasShield := false), Shield))
      ensures Frames() == old(Frames()) && events == old(events)
    {
      hasShield := false;
      RemovePowerupEffect(Shield);
    }

    /** Line 429: the player loses `damage` health. */
    method TakeDamage(damage: int)
      modifies this
      ensures View() == old(View()).(player := old(player).(health := old(player.health) - damage))
      ensures Frames() == old(Frames()) && events == old(events)
    {
      player := player.(health := player.health - damage);
    }

    /** `obstacles.splice(i, 1)` and the explosion at the obstacle's centre. */
    method RemoveObstacle(i: nat, rand: nat -> Unit)
      requires i < |obstacles|
      modifies this, particleSystem
      ensures var o := old(obstacles[i]);
        && View() == old(View()).(obstacles := RemoveAt(old(obstacles), i), draws := old(draws) + 3)
        && particleSystem.particles == old(particleSystem.particles)
           + CueParticles([Cue(o.x + o.width / 2.0, o.y + o.height / 2.0, "explosion")], rand, old(draws))
      ensures Frames() == old(Frames()) && events == old(events)
    {
      var o := obstacles[i];
      obstacles := obstacles[..i] + obstacles[i + 1..];
      AddParticle(o.x + o.width / 2.0, o.y + o.height / 2.0, "explosion", rand);
    }

    /** `handlePowerupCollision(powerup, i)` (lines 443-457). */
    method HandlePowerupCollision(i: nat, rand: nat -> Unit)
      requires i < |powerups|
      modifies this, particleSystem
      ensures var h := HandlePowerupW(old(View()), i);
        && View() == h.w && events == old(events) + h.events
        && particleSystem.particles == old(particleSystem.particles) + CueParticles(h.cues, rand, old(draws))
      ensures Frames() == old(Frames())
    {
      var p := powerups[i];
      RemovePowerup(i, rand);
      ApplyPowerupEffect(p.ptype);
      AwardPickup(p.ptype);
    }

    /** Lines 453-456: the points for a pickup, then `onPowerupCollect`. */
    method AwardPickup(t: PowerupType)
      modifies this
      ensures View() == old(View()).(score := old(score) + PickupValue(old(View()).fx))
      ensures events == old(events) + [PowerupCollected(t)] && Frames() == old(Frames())
    {
      assert POWERUP_COLLECT * scoreMultiplier == PickupValue(View().fx);
      score := score + POWERUP_COLLECT * scoreMultiplier;
      events := events + [PowerupCollected(t)];
    }

    /** `powerups.splice(i, 1)` and the sparkle at the powerup's centre. */
    method RemovePowerup(i: nat, rand: nat -> Unit)
      requires i < |powerups|
      modifies this, particleSystem
      ensures var p := old(powerups[i]);
        && View() == old(View()).(powerups := RemoveAt(old(powerups), i), draws := old(draws) + 3)
        && particleSystem.particles == old(particleSystem.particles)
           + CueParticles([Cue(p.x + p.width / 2.0, p.y + p.height / 2.0, "collect")], rand, old(draws))
      ensures Frames() == old(Frames()) && events == old(events)
    {
      var p := powerups[i];
      powerups := powerups[..i] + powerups[i + 1..];
      AddParticle(p.x + p.width / 2.0, p.y + p.height / 2.0, "collect", rand);
    }

    /** `checkCollisions()` (lines 383-408), on a running game (the only
        place it is called from is `update()`, inside the running loop). */
    method CheckCollisions(rand: nat -> Unit)
      requires isRunning
      modifies this, particleSystem
      ensures var c := CheckCollisionsW(old(View()));
        && View() == c.w && events == old(events) + c.events
        && particleSystem.particles == old(particleSystem.particles) + CueParticles(c.cues, rand, old(draws))
      ensures Frames() == if isRunning then old(Frames()) else DropFrame(old(Frames()))
    {
      ghost var w0 := View();
      var pr := Rect(player.x, player.y, player.width, player.height);
      assert pr == PlayerRect(w0.player);
      CheckCollisionsCompose(w0, particleSystem.particles, events, rand);
      HitFirstObstacle(pr, rand);
      CollectPowerups(pr, rand);
    }

    /** The obstacle loop of `checkCollisions()` (lines 391-399): the first
        obstacle touched is handled, and the loop stops there. */
    method HitFirstObstacle(pr: Rect, rand: nat -> Unit)
      modifies this, particleSystem
      ensures var h := ObstaclePhase(old(View()), pr);
        && View() == h.w && events == old(events) + h.events
        && particleSystem.particles == old(particleSystem.particles) + CueParticles(h.cues, rand, old(draws))
        && Frames() == (if h.events == [] then old(Frames()) else DropFrame(old(Frames())))
    {
      ghost var first := FirstHit(pr, obstacles, 0);
      var i := 0;
      while i < |obstacles|
        invariant 0 <= i <= |obstacles|
        invariant View() == old(View()) && events == old(events) && Frames() == old(Frames())
        invariant particleSystem.particles == old(particleSystem.particles)
        invariant FirstHit(pr, obstacles, i) == first
      {
        if IsColliding(pr, ObstacleRect(obstacles[i])) {
          HandleObstacleCollision(i, rand);
          return;
        }
        i := i + 1;
      }
    }

    /** The powerup loop of `checkCollisions()` (lines 401-407), from the
        last index down: every powerup touched is collected. */
    method CollectPowerups(pr: Rect, rand: nat -> Unit)
      modifies this, particleSystem
      ensures var p := PickupsBelow(old(View()), pr, |old(powerups)|);
        && View() == p.w && events == old(events) + p.events
        && particleSystem.particles == old(particleSystem.particles) + CueParticles(p.cues, rand, old(draws))
      ensures Frames() == old(Frames())
    {
      ghost var whole := PickupsBelow(View(), pr, |powerups|);
      PickupProgressStart(View(), pr);
      ghost var d0 := draws;
      ghost var evs: seq<Event> := [];
      ghost var cues: seq<Cue> := [];
      var k: nat := |powerups|;
      while k > 0
        invariant PickupProgress(View(), pr, k, whole, evs, cues)
        invariant events == old(events) + evs
        invariant draws == d0 + 3 * |cues|
        invariant particleSystem.particles == old(particleSystem.particles) + CueParticles(cues, rand, d0)
        invariant Frames() == old(Frames())
        decreases k
      {
        ghost var h := PickupAt(View(), pr, k - 1);
        PickupProgressStep(View(), pr, k, whole, evs, cues);
        k := k - 1;
        CollectAt(k, pr, rand, old(events), evs, old(particleSystem.particles), cues, d0);
        evs := evs + h.events;
        cues := cues + h.cues;
      }
      PickupProgressDone(View(), pr, whole, evs, cues);
    }

    /** One pass of the powerup loop (lines 403-406), after the passes
        that made the callbacks `evs` and asked for the particles of `cues`. */
    method CollectAt(k: nat, pr: Rect, rand: nat -> Unit, ghost ev0: seq<Event>, ghost evs: seq<Event>,
                     ghost ps0: seq<Particle>, ghost cues: seq<Cue>, ghost d0: nat)
      requires k < |powerups|
      requires events == ev0 + evs && draws == d0 + 3 * |cues|
      requires particleSystem.particles == ps0 + CueParticles(cues, rand, d0)
      modifies this, particleSystem
      ensures var h := PickupAt(old(View()), pr, k);
        && View() == h.w && events == ev0 + (evs + h.events)
        && particleSystem.particles == ps0 + CueParticles(cues + h.cues, rand, d0)
        && draws == d0 + 3 * |cues + h.cues|
      ensures Frames() == old(Frames())
    {
      ghost var h := PickupAt(View(), pr, k);
      AppendAssoc(ev0, evs, h.events);
      ExtendParticles(ps0, cues, h.cues, rand, d0);
      if IsColliding(pr, PowerupRect(powerups[k])) {
        HandlePowerupFacts(View(), k);
        HandlePowerupCollision(k, rand);
      }
    }

    /** `update()` (lines 175-215), on a running game. */
    method Update(now: real, rand: nat -> Unit, sin: real -> real)
      requires Valid() && isRunning
      modifies this, playerSprite, particleSystem, backgroundManager
      ensures var u := UpdateW(old(View()), now, rand, sin);
        && View() == u.w && events == old(events) + u.events
        && particleSystem.particles
           == Decayed(old(particleSystem.particles))
              + CueParticles(u.cues, rand, BeforeCollisions(old(View()), now, rand, sin).draws)
        && Frames() == (if u.w.isRunning then old(Frames()) else DropFrame(old(Frames())))
      ensures Valid()
      ensures (playerSprite.currentFrame, playerSprite.frameTimer)
           == Tick(playerSprite.frameCount, playerSprite.animSpeed, old(playerSprite.currentFrame), old(playerSprite.frameTimer))
      ensures |backgroundManager.layers| == |old(backgroundManager.layers)|
      ensures forall i :: 0 <= i < |backgroundManager.layers| ==>
        backgroundManager.layers[i]
        == ScrollLayer(old(backgroundManager.layers)[i], backgroundManager.width, GameSpeedFor(old(score)))
    {
      ghost var w0 := View();
      UpdateAdvances(w0, now, rand, sin);
      UpdateParts(w0, now, rand, sin);
      Simulate(now, rand, sin);
      Conclude(rand);
    }

    /** The rest of `update()` (lines 201-214) on the simulated world:
        scenery, collisions, then the score report. */
    method Conclude(rand: nat -> Unit)
      requires isRunning && backgroundManager.Valid()
      modifies this, particleSystem, backgroundManager
      ensures var c := CheckCollisionsW(old(View()));
        && View() == c.w && events == old(events) + (c.events + [ScoreUpdate(StatsOf(c.w))])
        && particleSystem.particles == Decayed(old(particleSystem.particles)) + CueParticles(c.cues, rand, old(draws))
        && Frames() == (if c.w.isRunning then old(Frames()) else DropFrame(old(Frames())))
      ensures backgroundManager.Valid()
      ensures |backgroundManager.layers| == |old(backgroundManager.layers)|
      ensures forall i :: 0 <= i < |backgroundManager.layers| ==>
        backgroundManager.layers[i] == ScrollLayer(old(backgroundManager.layers)[i], backgroundManager.width, old(gameSpeed))
    {
      AnimateScenery();
      CheckCollisions(rand);
      ghost var c := CheckCollisionsW(old(View()));
      AppendAssoc(old(events), c.events, [ScoreUpdate(StatsOf(c.w))]);
      events := events + [ScoreUpdate(Stats(score.Floor, distance.Floor, player.health, gameSpeed))];
    }

    /** The scenery part of `update()` (lines 201-202): particles age, the
        background layers scroll at the current speed. */
    method AnimateScenery()
      requires backgroundManager.Valid()
      modifies particleSystem, backgroundManager
      ensures particleSystem.particles == Decayed(old(particleSystem.particles))
      ensures backgroundManager.Valid()
      ensures |backgroundManager.layers| == |old(backgroundManager.layers)|
      ensures forall i :: 0 <= i < |backgroundManager.layers| ==>
        backgroundManager.layers[i] == ScrollLayer(old(backgroundManager.layers)[i], backgroundManager.width, gameSpeed)
    {
      particleSystem.Update();
      backgroundManager.Update(gameSpeed);
    }

    /** `update()` up to the collision check (lines 176-198). */
    method Simulate(now: real, rand: nat -> Unit, sin: real -> real)
      requires playerSprite.Valid()
      modifies this, playerSprite
      ensures View() == BeforeCollisions(old(View()), now, rand, sin)
      ensures playerSprite.Valid()
      ensures (playerSprite.currentFrame, playerSprite.frameTimer)
           == Tick(playerSprite.frameCount, playerSprite.animSpeed, old(playerSprite.currentFrame), old(playerSprite.frameTimer))
      ensures Frames() == old(Frames()) && events == old(events)
    {
      Advance();
      Move(sin);
      Spawn(now, rand);
    }

    /** The clock part of `update()` (lines 176-185): frame count, speed
        from the score, distance and the per-frame score. */
    method Advance()
      modifies this
      ensures View() == AdvanceClock(old(View()))
      ensures Frames() == old(Frames()) && events == old(events)
    {
      frameCount := frameCount + 1;
      gameSpeed := 1.0 + (score / 1000.0) * 0.5;
      distance := distance + gameSpeed;
      ghost var gain := FrameScore(scoreMultiplier, gameSpeed);
      assert gain == BASE_SCORE_PER_SECOND * scoreMultiplier * (gameSpeed / 60.0);
      score := score + BASE_SCORE_PER_SECOND * scoreMultiplier * (gameSpeed / 60.0);
    }

    /** The movement part of `update()` (lines 188-194). */
    method Move(sin: real -> real)
      requires playerSprite.Valid()
      modifies this, playerSprite
      ensures View() == MoveW(old(View()), sin)
      ensures playerSprite.Valid()
      ensures (playerSprite.currentFrame, playerSprite.frameTimer)
           == Tick(playerSprite.frameCount, playerSprite.animSpeed, old(playerSprite.currentFrame), old(playerSprite.frameTimer))
      ensures Frames() == old(Frames()) && events == old(events)
    {
      UpdatePlayer();
      UpdateObstacles();
      UpdatePowerups(sin);
      UpdateActivePowerups();
    }

    /** The spawning part of `update()` (lines 197-198). */
    method Spawn(now: real, rand: nat -> Unit)
      modifies this
      ensures View() == SpawnW(old(View()), now, rand)
      ensures Frames() == old(Frames()) && events == old(events)
    {
      SpawnObstacles(now, rand);
      SpawnPowerups(rand);
    }

    /** `gameLoop()` (lines 154-173), without drawing. */
    method GameLoop(now: real, rand: nat -> Unit, sin: real -> real)
      requires Valid()
      modifies this, playerSprite, particleSystem, backgroundManager
      ensures var o := GameLoopM(Machine(old(View()), old(Frames())), now, rand, sin);
        View() == o.m.w && Frames() == o.m.s && events == old(events) + o.events
      ensures var w := old(View());
        if w.isRunning && w.gameState == Playing && !w.isPaused then
          particleSystem.particles
          == Decayed(old(particleSystem.particles))
             + CueParticles(UpdateW(w, now, rand, sin).cues, rand, BeforeCollisions(w, now, rand, sin).draws)
        else particleSystem.particles == old(particleSystem.particles)
      ensures Valid()
    {
      ghost var m0 := Machine(View(), Frames());
      ghost var u := UpdateW(m0.w, now, rand, sin);
      LoopWithKeepsSchedOk(m0, u);
      if !isRunning || gameState == GameState.GameOver {
        return;
      }
      if gameState == Playing && !isPaused {
        Update(now, rand, sin);
      }
      RequestNext();
    }

    /** `requestAnimationFrame(() => this.gameLoop())`. */
    method RequestNext()
      modifies this
      ensures View() == old(View()) && Frames() == RequestFrame(old(Frames())) && events == old(events)
    {
      animationFrameId := nextFrameId;
      pendingFrames := pendingFrames + {nextFrameId};
      nextFrameId := nextFrameId + 1;
    }

    /** The browser fires the pending frame callback `id`. */
    method Step(id: nat, now: real, rand: nat -> Unit, sin: real -> real)
      requires Valid() && id in pendingFrames
      modifies this, playerSprite, particleSystem, backgroundManager
      ensures var o := StepM(Machine(old(View()), old(Frames())), id, now, rand, sin);
        View() == o.m.w && Frames() == o.m.s && events == old(events) + o.events
      ensures Valid()
    {
      pendingFrames := pendingFrames - {id};
      GameLoop(now, rand, sin);
    }

    /** `start()` (lines 110-117). */
    method Start(now: real, rand: nat -> Unit, sin: real -> real)
      requires Valid()
      modifies this, playerSprite, particleSystem, backgroundManager
      ensures var o := StartM(Machine(old(View()), old(Frames())), now, rand, sin);
        View() == o.m.w && Frames() == o.m.s && events == old(events) + o.events
      ensures particleSystem.particles == CueParticles(
        UpdateW(StartW(old(View())), now, rand, sin).cues, rand,
        BeforeCollisions(StartW(old(View())), now, rand, sin).draws)
      ensures Valid()
    {
      Begin();
      assert Decayed(particleSystem.particles) == [];
      GameLoop(now, rand, sin);
    }

    /** `start()` up to its first `gameLoop()` (lines 111-115). */
    method Begin()
      requires Inv(View())
      modifies this, particleSystem
      ensures View() == StartW(old(View())) && Inv(View())
      ensures isRunning && gameState == Playing && !isPaused
      ensures particleSystem.particles == []
      ensures Frames() == old(Frames()) && events == old(events)
    {
      OtherStepsKeepInv(View(), Playing);
      gameState := Playing;
      isRunning := true;
      isPaused := false;
      Reset();
    }

    /** `togglePause()` (lines 719-728). */
    method TogglePause()
      requires Valid()
      modifies this
      ensures View() == TogglePauseW(old(View()))
      ensures Frames() == old(Frames()) && events == old(events)
      ensures Valid()
    {
      OtherStepsKeepInv(View(), gameState);
      isPaused := !isPaused;
      if isPaused {
        gameState := Paused;
      } else {
        gameState := Playing;
      }
    }

    /** `getGameStats()` (lines 750-758). */
    method GetGameStats() returns (g: GameStats)
      ensures g == GameStatsOf(View())
    {
      g := GameStats(score.Floor, distance.Floor, gameSpeed, player.health, |activePowerups|);
    }

    /** `destroy()` (lines 761-766). */
    method Destroy()
      requires Valid()
      modifies this
      ensures View() == DestroyM(Machine(old(View()), old(Frames()))).w
      ensures Frames() == DestroyM(Machine(old(View()), old(Frames()))).s
      ensures events == old(events)
      ensures Valid()
    {
      isRunning := false;
      pendingFrames := pendingFrames - {animationFrameId};
    }

    /** The engine's own `keydown` listener (lines 78-87). */
    method KeyDown(code: KeyCode, rand: nat -> Unit)
      requires Valid()
      modifies this, particleSystem
      ensures var o := JumpW(old(View()));
        && (code == Space || code == ArrowUp ==>
              View() == o.w && events == old(events) + o.events
              && particleSystem.particles == old(particleSystem.particles) + CueParticles(o.cues, rand, old(draws)))
        && (code == KeyP ==> View() == TogglePauseW(old(View())) && events == old(events))
        && (code != Space && code != ArrowUp && code != KeyP ==> View() == old(View()) && events == old(events))
      ensures code != Space && code != ArrowUp ==> particleSystem.particles == old(particleSystem.particles)
      ensures Frames() == old(Frames()) && Valid()
    {
      if code == Space || code == ArrowUp {
        OtherStepsKeepInv(View(), gameState);
        Jump(rand);
      }
      if code == KeyP {
        TogglePause();
      }
    }

    /** The canvas `click` and `touchstart` listeners (lines 93-107): a
        jump while playing and not paused. */
    method Click(rand: nat -> Unit)
      requires Valid()
      modifies this, particleSystem
      ensures var o := JumpW(old(View()));
        && View() == o.w && events == old(events) + o.events
        && particleSystem.particles == old(particleSystem.particles) + CueParticles(o.cues, rand, old(draws))
      ensures Frames() == old(Frames()) && Valid()
    {
      OtherStepsKeepInv(View(), gameState);
      if gameState == Playing && !isPaused {
        Jump(rand);
      }
    }

    /** The hook's direct write `engine.gameState = s` (Escape, unmount). */
    method SetGameState(s: GameState)
      requires Valid()
      modifies this
      ensures View() == old(View()).(gameState := s)
      ensures Frames() == old(Frames()) && events == old(events) && Valid()
    {
      OtherStepsKeepInv(View(), s);
      gameState := s;
    }
  }
}
