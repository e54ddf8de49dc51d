# Neon Runner core in Dafny

Neon Runner is a browser endless runner played with a MonadGames ID wallet. The player
jumps over obstacles and collects powerups: speed, shield, double jump and score
multiplier. The score grows with distance, dodges and pickups, and finished runs are
written on chain.

This project models the parts of the program that carry its logic:

- **the game engine:** `GameEngine`'s frame update, physics, spawning, collisions,
  powerup effects and timers, pause, game over, and the `requestAnimationFrame` loop;
- **the sprite helpers:** frame animation, particles and the scrolling background;
- **the configuration constants;**
- **the `useGameLogic` hook:** it drives the engine from the React screens;
- **the `ScoreSubmissionManager`:** it batches score and transaction amounts and
  submits them with retries;
- **the two backend routes:** `POST /api/submit-score` and `GET /api/leaderboard`;
- **the hook helpers** of `useLeaderboard`, `usePowerups` and `useMonadGames`.

**How the modules are built:**
- Every mutable object of the program is a class here. Its methods state their new
  state through a pure step function of the old state.
- `EngineSpec` holds the engine's step functions, and the engine's properties are
  proved about them. `Engine.GameEngine` is the class whose methods are proved to
  perform exactly those steps.
- The same split holds for the hook (`GameLogic`) and for the submission manager
  (`Submission`).

**How numbers and outside calls are modelled:**
- JavaScript numbers are exact reals or integers.
- `Math.random()`, `Math.sin` and `performance.now()` become parameters.
  - `rand: nat -> Unit` is the sequence of random draws. The engine counts the draws
    it has used.
  - `sin` and `now` are plain values.
- Everything outside the program becomes a parameter carrying its outcome: the
  network, the chain, the wallet, `JSON.parse` and ethers' `getAddress`.

## Model

| member | source | states |
|---|---|---|
| Common.Trim | frontend/src/hooks/useMonadGames.js:412 | `trim()` never lengthens a string and leaves no whitespace at either end |
| Common.TrimIsSlice | frontend/src/hooks/useMonadGames.js:412 | the trimmed string is the slice of the input that starts right after its leading whitespace |
| Common.TrimDropsOnlyWhitespace | frontend/src/hooks/useMonadGames.js:412 | only whitespace precedes and follows that slice |
| Common.TrimKeeps | backend/routes/leaderboard.js:35 | a string with no whitespace at either end trims to itself |
| Common.TrimStart | backend/routes/leaderboard.js:35 | drops exactly the leading whitespace: everything removed is whitespace and the result starts with a non-whitespace character |
| Common.TrimEnd | backend/routes/leaderboard.js:35 | drops exactly the trailing whitespace, symmetrically |
| Common.TrimIdempotent | frontend/src/hooks/useMonadGames.js:412 | trimming a trimmed name changes nothing |
| Common.SliceHead | backend/routes/leaderboard.js:58 | `slice(0, n)` is the prefix of length min(n, length) |
| Common.SliceTail | backend/routes/leaderboard.js:58 | `slice(-n)` is the suffix of length min(n, length) |
| Common.Utf16Length | frontend/src/hooks/useMonadGames.js:412 | `.length` counts UTF-16 code units: at least one and at most two per character |
| Common.Utf16LengthAppend | frontend/src/hooks/useMonadGames.js:412 | the code units of a concatenation add up |
| Common.Utf16LengthPlanes | frontend/src/hooks/useMonadGames.js:412 | `.length` is the character count within the Basic Multilingual Plane and twice it beyond |
| Common.ShortAddress | backend/routes/leaderboard.js:58 | for an address of 10 or more characters: 13 characters, the first 6, then "...", then the last 4 |
| Common.ToLower | frontend/src/hooks/useLeaderboard.js:133 | `toLowerCase()` on an address keeps the length and lowers each ASCII letter on its own, which is all a hexadecimal address holds |
| Common.LowerIdempotent | frontend/src/hooks/useLeaderboard.js:124 | lowering twice equals lowering once, so comparisons ignoring case are stable |
| Constants.TypeOfKey | frontend/src/utils/constants.js:59-92 | a key lookup in POWERUP_TYPES succeeds only on a key, and the type found names that key |
| Constants.KeyNameRoundTrip | frontend/src/utils/constants.js:59-92 | every powerup type's key looks up that same type; the keys are SPEED, SHIELD, DOUBLE_JUMP and MULTIPLIER |
| Constants.PowerupKeysAreAllTypes | frontend/src/utils/constants.js:59-92 | the key order lists each of the four types exactly once |
| Constants.PhasesAscendFromZero | frontend/src/utils/constants.js:113-119 | five phases; thresholds start at 0 and strictly increase |
| Constants.FrequenciesRiseWithinUnitInterval | frontend/src/utils/constants.js:113-119 | both spawn frequencies lie in (0, 1) and never fall from one phase to the next |
| Constants.DurationsExceedOneSecond | frontend/src/utils/constants.js:59-92 | every powerup duration is above 1000 (already milliseconds) and every size is positive |
| Constants.SingleObstacleType | frontend/src/utils/constants.js:49-56 | one obstacle kind, BASIC_OBSTACLE, 48 by 48, damage 1 |
| Constants.PhysicsSigns | frontend/src/utils/constants.js:29-38 | gravity is positive (down) and the jump force negative (up) |
| Constants.BonusesPositive | frontend/src/utils/constants.js:95-101 | dodge bonus, pickup bonus and base rate are positive |
| Sprites.TickStaysInRange | frontend/src/utils/sprites.js:68-74 | one animation update keeps the frame below `frameCount` and the timer below `animSpeed` |
| Sprites.FrameHoldsWithinPeriod | frontend/src/utils/sprites.js:68-74 | while the timer stays below `animSpeed` the frame does not change |
| Sprites.AnimationAdvancesEveryAnimSpeed | frontend/src/utils/sprites.js:68-74 | after exactly `animSpeed` updates from a reset timer the frame advances by one, cyclically |
| Sprites.TickNAdds | frontend/src/utils/sprites.js:68-74 | m + n updates are m updates followed by n |
| Sprites.AnimatedSprite.constructor | frontend/src/utils/sprites.js:60-66 | stores key, frame count and speed; frame and timer start at 0 |
| Sprites.AnimatedSprite.Update | frontend/src/utils/sprites.js:68-74 | the sprite's frame and timer become one animation tick of the old ones, and stay in range |
| Sprites.ParticleColor | frontend/src/utils/sprites.js:112-121 | each of the five known kinds (explosion, speed, shield, collect, jump) gets its own colour; white exactly for any other kind |
| Sprites.ParticleColorsDistinct | frontend/src/utils/sprites.js:112-121 | two different known kinds never share a colour, and no known kind is white |
| Sprites.NewParticle | frontend/src/utils/sprites.js:97-110 | a new particle sits at (x, y) with life 30 of 30, its kind's colour, and velocities and size within the ranges the three draws allow |
| Sprites.Advance | frontend/src/utils/sprites.js:123-132 | one frame of particle motion costs exactly one life and keeps kind and maximum life |
| Sprites.Decayed | frontend/src/utils/sprites.js:123-132 | after the update no particle has life 0 or less and none is added |
| Sprites.DecayedDistributes | frontend/src/utils/sprites.js:123-132 | the update treats each particle on its own and keeps their order |
| Sprites.DecayedSingle | frontend/src/utils/sprites.js:123-132 | a particle survives an update, advanced, exactly when its life was above 1 |
| Sprites.ParticleLivesThirtyFrames | frontend/src/utils/sprites.js:97-132 | a fresh particle survives 29 updates and is gone after the 30th |
| Sprites.AdvanceN | frontend/src/utils/sprites.js:123-132 | n frames cost n life |
| Sprites.ParticleSystem.constructor | frontend/src/utils/sprites.js:93-95 | starts with no particles |
| Sprites.ParticleSystem.AddParticle | frontend/src/utils/sprites.js:97-110 | appends exactly the particle built from the position, kind and three draws |
| Sprites.ParticleSystem.Update | frontend/src/utils/sprites.js:123-132 | the particle list becomes its decayed form |
| Sprites.ParticleSystem.Clear | frontend/src/utils/sprites.js:147-149 | empties the list |
| Sprites.ScrollLayer | frontend/src/utils/sprites.js:164-171 | a layer moves left by speed times game speed, and is reset to exactly 0 once it has moved a whole width; it always stays right of minus the width; speed and colour stay |
| Sprites.BackgroundManager.constructor | frontend/src/utils/sprites.js:154-162 | stores the canvas size and the three initial layers |
| Sprites.BackgroundManager.Update | frontend/src/utils/sprites.js:164-171 | every layer scrolls on its own; none is added or lost |
| EngineSpec.ResetClearsSession | frontend/src/utils/gameEngine.js:119-152 | reset zeroes score, distance and frames, lands the player at full health, empties every list, switches every effect off, keeps the game state, the running and paused flags and the jump allowance, and resetting twice changes nothing more |
| EngineSpec.CollisionIsStrictOverlap | frontend/src/utils/gameEngine.js:410-415 | two boxes collide iff their open intervals overlap on both axes; the test is symmetric and touching edges do not collide |
| EngineSpec.GameSpeedMonotone | frontend/src/utils/gameEngine.js:179 | game speed never falls as the score rises and is at least 1 for a non-negative score |
| EngineSpec.UpdatePlayerLands | frontend/src/utils/gameEngine.js:217-249 | after the player update the player is never below the ground; landing stops the fall, resets the jump count and sets running; in the air the state is jumping exactly while rising |
| EngineSpec.JumpIsGuarded | frontend/src/utils/gameEngine.js:251-260 | a jump happens only while playing, not paused and below the jump limit, and then sets the jump force, counts the jump and asks for one particle; otherwise nothing changes |
| EngineSpec.KeptObstacles | frontend/src/utils/gameEngine.js:262-274 | obstacle pruning never adds obstacles |
| EngineSpec.DodgeBonusCounts | frontend/src/utils/gameEngine.js:262-274 | the dodge points are the number of obstacles that left the screen times the bonus |
| EngineSpec.KeptObstaclesFilter | frontend/src/utils/gameEngine.js:262-274 | pruning and dodge counting treat each obstacle on its own and keep order |
| EngineSpec.KeptObstaclesOnScreen | frontend/src/utils/gameEngine.js:262-274 | every kept obstacle is still partly on screen, kept plus dodged is the whole list, and each kept one was moved by exactly the frame's shift |
| EngineSpec.KeptObstacleSingle | frontend/src/utils/gameEngine.js:262-274 | a single obstacle is kept and moved if still on screen, otherwise dropped and counted once |
| EngineSpec.UpdateObstaclesScores | frontend/src/utils/gameEngine.js:262-274 | each dodge scores 25, or 50 under the multiplier; only the obstacle list and the score change |
| EngineSpec.KeptPowerups | frontend/src/utils/gameEngine.js:276-286 | powerup pruning never adds powerups, and every kept powerup is still on screen |
| EngineSpec.Without | frontend/src/utils/gameEngine.js:461 | filtering a type out never lengthens the active list |
| EngineSpec.WithoutSubset | frontend/src/utils/gameEngine.js:461 | the filter keeps only entries that were listed |
| EngineSpec.WithoutTypes | frontend/src/utils/gameEngine.js:461 | the filter removes exactly the filtered type |
| EngineSpec.WithoutDistinct | frontend/src/utils/gameEngine.js:461 | the filter keeps one entry per type |
| EngineSpec.ApplyEffectResets | frontend/src/utils/gameEngine.js:459-487 | picking up a type restarts its timer at the full duration as the last entry, without stacking, keeps the other entries and keeps one entry per type |
| EngineSpec.TickedActive | frontend/src/utils/gameEngine.js:288-299 | the timer update never adds entries |
| EngineSpec.TickedActiveSound | frontend/src/utils/gameEngine.js:288-299 | every surviving entry is a listed entry one frame (1000/60 ms) shorter, with time still left |
| EngineSpec.TickedActiveComplete | frontend/src/utils/gameEngine.js:288-299 | every entry with time left after the tick survives |
| EngineSpec.ExpiredTypesExact | frontend/src/utils/gameEngine.js:288-299 | a type's effect is reverted exactly when one of its entries runs out |
| EngineSpec.RemoveEffectFrame | frontend/src/utils/gameEngine.js:489-530 | reverting one type switches off only that type's effect |
| EngineSpec.RevertAllFrame | frontend/src/utils/gameEngine.js:288-299 | reverting effects never touches the active list |
| EngineSpec.RevertAllEffects | frontend/src/utils/gameEngine.js:288-299 | reverting a set of types switches off exactly their effects and leaves the others as they were |
| EngineSpec.CurrentPhaseIndex | frontend/src/utils/gameEngine.js:373-381 | the phase is the last one whose threshold the score has reached |
| EngineSpec.TopPhaseFrom5000 | frontend/src/utils/gameEngine.js:373-381 | 5000 points or more select PHASE_5 |
| EngineSpec.PhaseMonotone | frontend/src/utils/gameEngine.js:373-381 | a higher score never selects an earlier phase |
| EngineSpec.SpawnObstaclesThrottled | frontend/src/utils/gameEngine.js:301-349 | no spawn while an obstacle is near the right edge or less than 400 ms after the last spawn; a spawn adds one obstacle at the right edge, and only a spawn moves the spawn time |
| EngineSpec.KeyIndex | frontend/src/utils/gameEngine.js:356 | the type drawn for a new powerup is always a valid key index |
| EngineSpec.RemoveAt | frontend/src/utils/gameEngine.js:439 | `splice(i, 1)` removes exactly the entry at i and keeps the rest in order |
| EngineSpec.FirstHit | frontend/src/utils/gameEngine.js:391-399 | the first obstacle the player collides with, and none before it; None iff none collides |
| EngineSpec.PickupAt | frontend/src/utils/gameEngine.js:401-407 | one pass of the pickup loop leaves the powerups below its index untouched |
| EngineSpec.CheckCollisionsCompose | frontend/src/utils/gameEngine.js:383-408 | on a running game the obstacle loop then the pickup loop give the world, reports and particles of `checkCollisions()`, and the run stops exactly when the obstacle loop reports |
| EngineSpec.ObstaclePhaseEnds | frontend/src/utils/gameEngine.js:391-399 | the obstacle loop stops the run exactly when it reports game over, and asks for at most one particle |
| EngineSpec.TogglePauseTwice | frontend/src/utils/gameEngine.js:719-728 | two toggles restore the pause flag, and the state always agrees with the flag |
| EngineSpec.HandlePowerupFacts | frontend/src/utils/gameEngine.js:443-457 | a pickup removes that powerup, reports its type once, asks for one particle and leaves player and obstacles alone |
| EngineSpec.PickupsCollectTouched | frontend/src/utils/gameEngine.js:401-407 | the pickup loop removes exactly the touched powerups, keeps the others in order, and reports the touched ones from the last index down |
| EngineSpec.PickupsFrame | frontend/src/utils/gameEngine.js:401-407 | one particle per pickup, three draws each; player, obstacles and run flags unchanged |
| EngineSpec.PickupsKeepEffects | frontend/src/utils/gameEngine.js:401-407 | the pickup loop keeps one timer per active effect and never lowers the score |
| EngineSpec.HandlePowerupKeepsEffects | frontend/src/utils/gameEngine.js:443-457 | a pickup scores 50, or 100 when the multiplier is on after it, and keeps the effect bookkeeping consistent |
| EngineSpec.InitialInv | frontend/src/utils/gameEngine.js:12-74 | the new engine and a reset engine satisfy the world invariant |
| EngineSpec.ApplyKeepsEffects | frontend/src/utils/gameEngine.js:459-487 | applying an effect keeps its flags in step with the active timers |
| EngineSpec.TickedTypes | frontend/src/utils/gameEngine.js:288-299 | the timer update keeps one entry per type and leaves exactly the types that did not expire |
| EngineSpec.UpdateActiveKeepsEffects | frontend/src/utils/gameEngine.js:288-299 | the timer update keeps the effect flags in step with the timers |
| EngineSpec.CheckCollisionsKeepsInv | frontend/src/utils/gameEngine.js:383-408 | collisions keep the invariant, never lower the score and leave distance, frames and speed alone |
| EngineSpec.EarlySteps | frontend/src/utils/gameEngine.js:176-191 | clock, player and obstacles: one more frame, speed from the score, distance up by the speed, and the score strictly rises |
| EngineSpec.LateSteps | frontend/src/utils/gameEngine.js:192-198 | powerups, timers and spawning keep the invariant and leave score, distance and run flags alone |
| EngineSpec.UpdateAdvances | frontend/src/utils/gameEngine.js:175-215 | a frame keeps the invariant, counts one frame, moves the distance by the game speed and raises the score |
| EngineSpec.HandleObstacleOutcome | frontend/src/utils/gameEngine.js:417-441 | a hit removes the obstacle; a shield absorbs it and is used up; otherwise health drops by the damage, and the game ends with a report exactly when health reaches 0 |
| EngineSpec.CheckCollisionsOutcome | frontend/src/utils/gameEngine.js:383-408 | only the first obstacle hit is handled, and game over is reported iff the run stopped |
| EngineSpec.TouchedEventsArePickups | frontend/src/utils/gameEngine.js:401-407 | the pickup loop reports only pickups |
| EngineSpec.UpdateReports | frontend/src/utils/gameEngine.js:175-215 | every frame ends with a score report of its own stats, and a game-over report is made iff the run is over |
| EngineSpec.DistinctCount | frontend/src/utils/gameEngine.js:459-487 | with one timer per type, the active list is as long as its set of types |
| EngineSpec.PowerupsCollectedAtMostFour | frontend/src/utils/gameEngine.js:730-748 | the game-over report counts active timers, so it reports at most 4 powerups however many were collected |
| EngineSpec.JumpCountCanExceedMaxJumps | frontend/src/utils/gameEngine.js:217-260 | when double jump expires mid-air the jump count 2 stands against a limit of 1 until landing |
| EngineSpec.OtherStepsKeepInv | frontend/src/utils/gameEngine.js:110-152 | jump, pause, start, reset, game over and the hook's state writes keep the invariant |
| EngineSpec.KeptPowerupsFilter | frontend/src/utils/gameEngine.js:276-286 | powerup pruning treats each powerup on its own and keeps order |
| EngineSpec.UpdatePowerupsScoresNothing | frontend/src/utils/gameEngine.js:276-286 | powerup pruning changes only the powerup list and never lengthens it |
| EngineSpec.CueParticles | frontend/src/utils/gameEngine.js:258 | one particle per particle request |
| EngineSpec.CueParticlesAppend | frontend/src/utils/gameEngine.js:391-407 | two runs of particle requests use consecutive draws |
| EngineSpec.CueParticlesFresh | frontend/src/utils/sprites.js:97-110 | each particle the engine asks for lives 30 frames, sits where asked and has its kind's colour |
| EngineSpec.RequestFrame | frontend/src/utils/gameEngine.js:172 | `requestAnimationFrame` adds one pending id, a new one, and the engine keeps it |
| EngineSpec.CancelFrame | frontend/src/utils/gameEngine.js:763-765 | `cancelAnimationFrame` removes the held id from the pending ones |
| EngineSpec.DropFrame | frontend/src/utils/gameEngine.js:736-740 | game over cancels the held id and forgets it |
| EngineSpec.GameLoopKeepsSchedOk | frontend/src/utils/gameEngine.js:154-173 | every frame keeps the pending frame ids below the next id |
| EngineSpec.FrameStepsKeepSchedOk | frontend/src/utils/gameEngine.js:110-173 | firing a frame, start, game over and destroy keep the pending ids below the next id |
| EngineSpec.LiveFrameReschedules | frontend/src/utils/gameEngine.js:154-173 | a frame of a running game asks for exactly one new frame and adds one frame's progress |
| EngineSpec.GameOverFrameSchedulesOneMore | frontend/src/utils/gameEngine.js:154-173 | the frame that ends the game still asks for one more frame, which does nothing and asks for none |
| EngineSpec.UpdateEndsInGameOver | frontend/src/utils/gameEngine.js:730-748 | a frame that stops the run leaves the state 'gameOver' |
| EngineSpec.DestroyStopsLoop | frontend/src/utils/gameEngine.js:761-766 | after destroy no frame changes the world or asks for another |
| EngineSpec.StartWhileLiveAddsSecondChain | frontend/src/utils/gameEngine.js:110-117 | starting a running game leaves the old frame pending and adds a second chain, so updates run twice per display frame |
| EngineSpec.UpdateRunsOnAtFullHealth | frontend/src/utils/gameEngine.js:417-441 | from full health one frame cannot end the run |
| Engine.GameEngine.constructor | frontend/src/utils/gameEngine.js:12-74 | the new engine holds the initial world, no frames, no callbacks, and the runner sprite |
| Engine.GameEngine.Reset | frontend/src/utils/gameEngine.js:119-152 | the world becomes its reset form and the particles are cleared |
| Engine.GameEngine.ResetCounters | frontend/src/utils/gameEngine.js:122-125 | only score, distance, speed and frame count are reset |
| Engine.GameEngine.ResetPlayer | frontend/src/utils/gameEngine.js:128-135 | only the player is reset, to x 100 on the ground with full health |
| Engine.GameEngine.ClearLists | frontend/src/utils/gameEngine.js:138-140 | only the three lists are emptied |
| Engine.GameEngine.ClearEffects | frontend/src/utils/gameEngine.js:143-146 | every effect flag off, nothing else changes |
| Engine.GameEngine.AddParticle | frontend/src/utils/sprites.js:97-110 | appends the particle of three fresh draws and counts them |
| Engine.GameEngine.UpdatePlayer | frontend/src/utils/gameEngine.js:217-249 | performs exactly the player step and one sprite tick |
| Engine.GameEngine.Jump | frontend/src/utils/gameEngine.js:251-260 | performs exactly the guarded jump and its particle |
| Engine.GameEngine.UpdateObstacles | frontend/src/utils/gameEngine.js:262-274 | the loop prunes and moves the obstacles and awards the dodge bonus exactly as the pruning function does |
| Engine.GameEngine.UpdatePowerups | frontend/src/utils/gameEngine.js:276-286 | the loop moves, bobs and prunes the powerups exactly as the pruning function does |
| Engine.GameEngine.RemovePowerupEffect | frontend/src/utils/gameEngine.js:489-530 | switches off exactly the given type's effect |
| Engine.GameEngine.UpdateActivePowerups | frontend/src/utils/gameEngine.js:288-299 | the loop ticks every timer, drops and reverts the expired ones, exactly as the timer function does |
| Engine.GameEngine.TickEntry | frontend/src/utils/gameEngine.js:290-297 | one entry: ticked and kept, or reverted and dropped |
| Engine.GameEngine.ApplyPowerupEffect | frontend/src/utils/gameEngine.js:459-487 | performs exactly the effect application |
| Engine.GameEngine.RestartTimer | frontend/src/utils/gameEngine.js:461-470 | drops the type's old timer and appends a full one in milliseconds |
| Engine.GameEngine.SwitchOnEffect | frontend/src/utils/gameEngine.js:472-486 | switches on exactly the type's effect |
| Engine.GameEngine.SpawnObstacles | frontend/src/utils/gameEngine.js:301-349 | performs exactly the throttled obstacle spawn |
| Engine.GameEngine.PlaceCluster | frontend/src/utils/gameEngine.js:322-348 | appends one obstacle at the right edge and moves the spawn time to now |
| Engine.GameEngine.SpawnPowerups | frontend/src/utils/gameEngine.js:351-371 | performs exactly the random powerup spawn |
| Engine.GameEngine.PlacePowerup | frontend/src/utils/gameEngine.js:355-370 | appends the powerup of three fresh draws |
| Engine.GameEngine.GameOver | frontend/src/utils/gameEngine.js:730-748 | stops the run, reports the final stats and drops the held frame |
| Engine.GameEngine.DropAnimationFrame | frontend/src/utils/gameEngine.js:736-740 | cancels and forgets the held frame id, nothing else |
| Engine.GameEngine.HandleObstacleCollision | frontend/src/utils/gameEngine.js:417-441 | performs exactly the obstacle hit: shield or damage, removal, explosion, possibly game over |
| Engine.GameEngine.ConsumeShield | frontend/src/utils/gameEngine.js:420-421 | the shield flag and its effect are removed |
| Engine.GameEngine.TakeDamage | frontend/src/utils/gameEngine.js:429 | health drops by the damage, nothing else |
| Engine.GameEngine.RemoveObstacle | frontend/src/utils/gameEngine.js:439-440 | removes the obstacle at i and adds an explosion at its centre |
| Engine.GameEngine.HandlePowerupCollision | frontend/src/utils/gameEngine.js:443-457 | performs exactly the pickup: effect, removal, sparkle, points and callback |
| Engine.GameEngine.AwardPickup | frontend/src/utils/gameEngine.js:452-456 | adds the pickup value and reports the pickup |
| Engine.GameEngine.RemovePowerup | frontend/src/utils/gameEngine.js:445-446 | removes the powerup at i and adds a sparkle at its centre |
| Engine.GameEngine.CheckCollisions | frontend/src/utils/gameEngine.js:383-408 | the two loops perform exactly the collision check |
| Engine.GameEngine.HitFirstObstacle | frontend/src/utils/gameEngine.js:391-399 | the loop handles the first obstacle hit and stops there |
| Engine.GameEngine.CollectPowerups | frontend/src/utils/gameEngine.js:401-407 | the downward loop collects every touched powerup |
| Engine.GameEngine.CollectAt | frontend/src/utils/gameEngine.js:403-406 | one pass of the pickup loop |
| Engine.GameEngine.Update | frontend/src/utils/gameEngine.js:175-215 | performs exactly one frame's update |
| Engine.GameEngine.Conclude | frontend/src/utils/gameEngine.js:200-214 | scenery, collisions and the score report |
| Engine.GameEngine.AnimateScenery | frontend/src/utils/gameEngine.js:200-202 | particles decay and every background layer scrolls |
| Engine.GameEngine.Simulate | frontend/src/utils/gameEngine.js:176-198 | the frame's clock, movement and spawning |
| Engine.GameEngine.Advance | frontend/src/utils/gameEngine.js:176-185 | frame count, speed, distance and the per-frame score |
| Engine.GameEngine.Move | frontend/src/utils/gameEngine.js:188-193 | player, obstacles, powerups and timers |
| Engine.GameEngine.Spawn | frontend/src/utils/gameEngine.js:196-197 | obstacle then powerup spawning |
| Engine.GameEngine.GameLoop | frontend/src/utils/gameEngine.js:154-173 | performs exactly the frame callback: update while running and not paused or over, then ask for the next frame while running |
| Engine.GameEngine.RequestNext | frontend/src/utils/gameEngine.js:172 | asks for one new frame and keeps its id |
| Engine.GameEngine.Step | frontend/src/utils/gameEngine.js:154-173 | the pending frame `id` fires: it leaves the pending set and runs the loop |
| Engine.GameEngine.Start | frontend/src/utils/gameEngine.js:110-117 | performs exactly `start()`: reset, playing, then one loop step |
| Engine.GameEngine.Begin | frontend/src/utils/gameEngine.js:111-115 | a reset world, running, playing and not paused |
| Engine.GameEngine.TogglePause | frontend/src/utils/gameEngine.js:719-728 | performs exactly the toggle |
| Engine.GameEngine.GetGameStats | frontend/src/utils/gameEngine.js:750-758 | returns the stats of the current world, changing nothing |
| Engine.GameEngine.Destroy | frontend/src/utils/gameEngine.js:761-766 | stops the run and cancels the held frame |
| Engine.GameEngine.KeyDown | frontend/src/utils/gameEngine.js:78-87 | Space and ArrowUp perform the jump step; P toggles pause in every state; other keys change nothing |
| Engine.GameEngine.Click | frontend/src/utils/gameEngine.js:93-107 | a click or touch performs the guarded jump |
| Engine.GameEngine.SetGameState | frontend/src/hooks/useGameLogic.js:117 | the hook's direct state write changes only the state |
| GameLogic.OnEvent | frontend/src/hooks/useGameLogic.js:34-52 | no engine callback touches the loading flag |
| GameLogic.OnEvents | frontend/src/hooks/useGameLogic.js:34-52 | nor does any sequence of them |
| GameLogic.GameOverReportShows | frontend/src/hooks/useGameLogic.js:34-52 | a game-over report moves the hook to the game-over screen with that report's stats, whatever follows it |
| GameLogic.NoGameOverKeepsScreen | frontend/src/hooks/useGameLogic.js:34-52 | without a game-over report the screen and final stats stay, and the shown stats are the last reported |
| GameLogic.PauseIsGuarded | frontend/src/hooks/useGameLogic.js:80-89 | pausing acts only from the playing screen, toggling the engine once |
| GameLogic.ResumeIsGuarded | frontend/src/hooks/useGameLogic.js:91-100 | resuming acts only from the paused screen, toggling the engine once |
| GameLogic.PauseThenResume | frontend/src/hooks/useGameLogic.js:80-100 | pause then resume leaves a running game as it was |
| GameLogic.KeyPDesync | frontend/src/hooks/useGameLogic.js:134-140 | P is handled by both the engine and the hook, so the two toggles cancel in the engine while the screen changes |
| GameLogic.EscapeLeavesLoopRunning | frontend/src/hooks/useGameLogic.js:146-150 | Escape shows the menu but leaves the frame loop scheduled, and its frames only reschedule |
| GameLogic.KeyRIsGuarded | frontend/src/hooks/useGameLogic.js:141-145 | R restarts only from the game-over screen |
| GameLogic.RestartIsStart | frontend/src/hooks/useGameLogic.js:102-113 | the reset before start is absorbed by the reset inside start, so a restart is a start |
| GameLogic.StartShowsPlaying | frontend/src/hooks/useGameLogic.js:68-78 | starting shows the playing screen, clears the final stats and leaves the engine running |
| GameLogic.UnmountLeavesFrames | frontend/src/hooks/useGameLogic.js:159-165 | unmount stops the state but leaves the frame ids pending and the run flag set |
| GameLogic.GameLogicHook.constructor | frontend/src/hooks/useGameLogic.js:7-18 | the hook starts on the menu with no engine |
| GameLogic.GameLogicHook.Initialize | frontend/src/hooks/useGameLogic.js:21-66 | an engine is created, fresh, exactly when assets and canvas are ready |
| GameLogic.GameLogicHook.Dispatch | frontend/src/hooks/useGameLogic.js:34-52 | the engine's new callbacks reach the hook in order |
| GameLogic.GameLogicHook.EngineStart | frontend/src/hooks/useGameLogic.js:70 | the engine performs `start()` |
| GameLogic.GameLogicHook.EngineRestart | frontend/src/hooks/useGameLogic.js:104-105 | the engine performs `reset()` then `start()` |
| GameLogic.GameLogicHook.EngineKey | frontend/src/utils/gameEngine.js:78-87 | the engine's own key listener runs |
| GameLogic.GameLogicHook.EngineStep | frontend/src/utils/gameEngine.js:154-173 | the engine's frame `id` runs |
| GameLogic.GameLogicHook.StartGame | frontend/src/hooks/useGameLogic.js:68-78 | performs exactly `startGame()` |
| GameLogic.GameLogicHook.ShowPlaying | frontend/src/hooks/useGameLogic.js:71-72 | the playing screen with no final stats |
| GameLogic.GameLogicHook.PauseGame | frontend/src/hooks/useGameLogic.js:80-89 | performs exactly `pauseGame()` |
| GameLogic.GameLogicHook.ResumeGame | frontend/src/hooks/useGameLogic.js:91-100 | performs exactly `resumeGame()` |
| GameLogic.GameLogicHook.RestartGame | frontend/src/hooks/useGameLogic.js:102-113 | performs exactly `restartGame()` |
| GameLogic.GameLogicHook.BackToMenu | frontend/src/hooks/useGameLogic.js:115-121 | performs exactly `backToMenu()` |
| GameLogic.GameLogicHook.GetCurrentStats | frontend/src/hooks/useGameLogic.js:123-128 | the engine's stats when there is an engine, else the last reported ones |
| GameLogic.GameLogicHook.PressKey | frontend/src/hooks/useGameLogic.js:131-156 | a key reaches the engine's listener, then the hook's |
| GameLogic.GameLogicHook.Frame | frontend/src/hooks/useGameLogic.js:34-52 | a frame runs and its callbacks reach the hook |
| GameLogic.GameLogicHook.Unmount | frontend/src/hooks/useGameLogic.js:159-165 | performs exactly the unmount cleanup |
| Submission.MakeConfig | frontend/src/utils/score-submission-manager.js:11-13 | an omitted or zero batch delay is 3000 and an omitted or zero retry limit is 3 |
| Submission.InitialInv | frontend/src/utils/score-submission-manager.js:5-18 | a new manager satisfies the timer invariant |
| Submission.ClearBatchKeepsRetries | frontend/src/utils/score-submission-manager.js:43-46 | clearing the batch timer leaves exactly the retry timers |
| Submission.AddReplacesTimer | frontend/src/utils/score-submission-manager.js:21-35 | adding points adds them to the pending score (missing points add 0), adding a count adds it to the pending transactions (an omitted count adds 1), the other amount is unchanged, and the batch timer is replaced with one new one |
| Submission.ScheduleArmsOne | frontend/src/utils/score-submission-manager.js:32-35 | scheduling leaves one batch timer with the configured delay and the amounts as they were |
| Submission.BusyIsSkipped | frontend/src/utils/score-submission-manager.js:38-41 | while a submission runs, a new one changes nothing and answers 'already_submitting' |
| Submission.BeginTakesPending | frontend/src/utils/score-submission-manager.js:43-70 | an attempt takes and zeroes the pending amounts and clears the batch timer; with nothing to send it succeeds without marking itself busy |
| Submission.FinishClearsSubmitting | frontend/src/utils/score-submission-manager.js:72-156 | every way out clears the busy flag, and a success resets the retry count |
| Submission.RelayFailureRetries | frontend/src/utils/score-submission-manager.js:139-153 | a relay failure restores the amounts and arms one retry timer while retries remain, otherwise drops them and resets the count |
| Submission.WalletFailureDrops | frontend/src/utils/score-submission-manager.js:74-105 | in wallet mode a failing callback ends the attempt without restoring the amounts or retrying |
| Submission.RetryConserves | frontend/src/utils/score-submission-manager.js:48-57 | taking the amounts and then failing with retries left loses nothing |
| Submission.BatchFiringWhileBusyStrands | frontend/src/utils/score-submission-manager.js:32-41 | a batch timer that fires while busy is skipped, and its amounts stay pending with no timer armed |
| Submission.BeginKeepsInv | frontend/src/utils/score-submission-manager.js:37-70 | starting an attempt and `destroy()` keep the invariant |
| Submission.FinishKeepsInv | frontend/src/utils/score-submission-manager.js:72-156 | finishing an attempt keeps the invariant |
| Submission.FireKeepsInv | frontend/src/utils/score-submission-manager.js:34 | a timer firing keeps the invariant |
| Submission.DestroyClears | frontend/src/utils/score-submission-manager.js:227-235 | `destroy()` zeroes the amounts, clears the busy flag and the batch timer, and leaves retry timers armed |
| Submission.ScoreSubmissionManager.constructor | frontend/src/utils/score-submission-manager.js:5-18 | stores the configuration and starts idle with nothing pending |
| Submission.ScoreSubmissionManager.AddScore | frontend/src/utils/score-submission-manager.js:21-25 | performs exactly `addScore(points)` |
| Submission.ScoreSubmissionManager.AddTransaction | frontend/src/utils/score-submission-manager.js:27-30 | performs exactly `addTransaction(count)` |
| Submission.ScoreSubmissionManager.ScheduleSubmission | frontend/src/utils/score-submission-manager.js:32-35 | performs exactly the rescheduling |
| Submission.ScoreSubmissionManager.ClearBatchTimer | frontend/src/utils/score-submission-manager.js:43-46 | clears the batch timer |
| Submission.ScoreSubmissionManager.Begin | frontend/src/utils/score-submission-manager.js:37-70 | `submitImmediately()` up to its await |
| Submission.ScoreSubmissionManager.Finish | frontend/src/utils/score-submission-manager.js:72-156 | `submitImmediately()` from its await on, for the given outcome |
| Submission.ScoreSubmissionManager.Fail | frontend/src/utils/score-submission-manager.js:139-153 | the `catch` block |
| Submission.ScoreSubmissionManager.Restore | frontend/src/utils/score-submission-manager.js:142-143 | the amounts are put back |
| Submission.ScoreSubmissionManager.Fire | frontend/src/utils/score-submission-manager.js:34 | timer `id` fires and an attempt starts |
| Submission.ScoreSubmissionManager.SubmitGameCompletion | frontend/src/utils/score-submission-manager.js:198-217 | adds the final score and one transaction, then starts an attempt |
| Submission.ScoreSubmissionManager.GetPendingData | frontend/src/utils/score-submission-manager.js:219-225 | reports the pending amounts and the busy flag |
| Submission.ScoreSubmissionManager.Destroy | frontend/src/utils/score-submission-manager.js:227-235 | performs exactly `destroy()` |
| SubmitScore.DigitsValue | backend/routes/submit-score.js:67-68 | a digit string has a value in a base iff every character is a digit of that base |
| SubmitScore.RadixValue | backend/routes/submit-score.js:67-68 | a prefixed or signed literal needs at least one digit |
| SubmitScore.NatDecimal | backend/routes/submit-score.js:67-68 | a number's decimal form is a non-empty digit string |
| SubmitScore.NatDecimalValue | backend/routes/submit-score.js:67-68 | reading a number's decimal form gives the number back |
| SubmitScore.DigitStringValue | backend/routes/submit-score.js:67-68 | `BigInt` reads a signed or unsigned decimal string in base 10 |
| SubmitScore.ToBigInt | backend/routes/submit-score.js:67-68 | `BigInt` of the value, or of 0 when it is falsy: falsy values read as 0, `true` as 1, an integer as itself, a string by BigInt's grammar; a fraction or an object throws. DigitStringValue, DecimalRoundTrip and StringAmountsAreNumbers state its results |
| SubmitScore.DecimalRoundTrip | backend/routes/submit-score.js:67-68 | `BigInt(String(n))` is n for every integer |
| SubmitScore.SecretComesFirst | backend/routes/submit-score.js:50-55 | with a secret configured, a missing or wrong header is answered 401 whatever else the request holds |
| SubmitScore.GuardOrder | backend/routes/submit-score.js:44-112 | the 401 is given exactly when the secret check fails; each later error answer, including the 500 for an amount `BigInt` rejects, is given exactly when its guard is the first to fail, in the order configuration, address, amounts, score, count |
| SubmitScore.LateGuardOrder | backend/routes/submit-score.js:78-99 | after the bounds, an address the checksum rejects gives the generic 500; with a username required, an error status, a missing username and a thrown check each give their own answer; without one, the contract is called |
| SubmitScore.Handle | backend/routes/submit-score.js:44-112 | the handler; SecretComesFirst, GuardOrder, LateGuardOrder, CallOnlyWhenValid and SuccessOnlyWhenMined state which answer it gives and when it calls the contract |
| SubmitScore.CallOnlyWhenValid | backend/routes/submit-score.js:57-103 | the contract is called iff every guard passes, with the checksummed address and the in-range amounts |
| SubmitScore.SuccessOnlyWhenMined | backend/routes/submit-score.js:103-111 | only a mined transaction is answered 200; every thrown error is answered 500 without success |
| SubmitScore.StringAmountsAreNumbers | backend/routes/submit-score.js:67-68 | an amount sent as a decimal string is read as the number it spells |
| LeaderboardRoute.ScanFrom | backend/routes/leaderboard.js:29-41 | the loop fetches at most as many URLs as it has |
| LeaderboardRoute.FetchFirst | backend/routes/leaderboard.js:29-41 | the loop over the URLs ends with the data, last body and fetch count the scan function gives |
| LeaderboardRoute.FirstAcceptedWins | backend/routes/leaderboard.js:29-41 | the first accepted answer is taken, and no later URL is fetched |
| LeaderboardRoute.ScanTakes | backend/routes/leaderboard.js:29-41 | an accepted first answer ends the loop after one fetch, with its parse as `data` and its body as `lastText` |
| LeaderboardRoute.ScanSkips | backend/routes/leaderboard.js:29-41 | a first answer that is not accepted counts one fetch and hands its parse (when it looks like JSON) and its body to the rest of the loop |
| LeaderboardRoute.NoneAccepted | backend/routes/leaderboard.js:29-41 | with no accepted answer and no throw every URL is fetched, the data stays falsy and the last body is kept |
| LeaderboardRoute.NormaliseFrom | backend/routes/leaderboard.js:51-64 | the mapping gives one entry per raw entry, in order |
| LeaderboardRoute.RanksFollowOrder | backend/routes/leaderboard.js:53-54 | ranks count up from 1 in list order |
| LeaderboardRoute.NonArrayIsEmpty | backend/routes/leaderboard.js:51-64 | a missing or non-array `data` field gives no entries |
| LeaderboardRoute.NameFallback | backend/routes/leaderboard.js:55-58 | the name is the username, else the player, else the shortened wallet, else 'Unknown'; a wallet array is sliced as an array and joined; reading the name throws exactly for a truthy numeric, boolean or object wallet |
| LeaderboardRoute.OneItemWallet | backend/routes/leaderboard.js:55-58 | with no username or player, a wallet array of one string `a` shows as `a...a` |
| LeaderboardRoute.AddressAndDefaults | backend/routes/leaderboard.js:59-62 | an entry fails exactly when it is null or its name cannot be read; otherwise the rank is its position plus one, the address is walletAddress, else wallet, else null, a falsy score or count is 0, a numeric one itself and a string one its JavaScript `Number`, and a missing timestamp is now |
| LeaderboardRoute.ExponentScales | backend/routes/leaderboard.js:60-61 | `Number` of digits, `e` and digits is the first value times ten to the second |
| LeaderboardRoute.TrailingPoint | backend/routes/leaderboard.js:60-61 | `Number` of digits followed by a bare '.' is the digits' value |
| LeaderboardRoute.FractionDigit | backend/routes/leaderboard.js:60-61 | a fractional digit 0 leaves the integer; any other fractional digit is not an integer |
| LeaderboardRoute.NotANumber | backend/routes/leaderboard.js:60-61 | a string whose first non-blank character cannot start a number is NaN, and so is an object |
| LeaderboardRoute.BracketedIsNaN | backend/routes/leaderboard.js:60-61 | a string that starts with `[` and ends with `]`, as an object's string does, is NaN |
| LeaderboardRoute.DecimalStringValue | backend/routes/leaderboard.js:60-61 | `Number` reads an integer's decimal string back as that integer |
| LeaderboardRoute.DecimalStringsAreNumbers | backend/routes/leaderboard.js:60-61 | a score sent as a decimal string, or as a one-element array holding a number, normalises to that number |
| LeaderboardRoute.UnsignedDigitString | backend/routes/leaderboard.js:60-61 | a string of digits is read in base 10 |
| LeaderboardRoute.NegativeDigitString | backend/routes/leaderboard.js:60-61 | a minus sign before digits negates their value |
| LeaderboardRoute.HandlerUsesFirstAccepted | backend/routes/leaderboard.js:17-66 | when the first URL is accepted the handler lists its entries and never fetches the second; the game id defaults to 237 |
| LeaderboardRoute.SecondUrlIsFallback | backend/routes/leaderboard.js:29-41 | a rejected first answer sends the loop to the second URL |
| LeaderboardRoute.NoJsonGives500 | backend/routes/leaderboard.js:43-49 | with neither answer accepted the handler answers 500 with the first 200 characters of the last body |
| LeaderboardRoute.Handle | backend/routes/leaderboard.js:17-66 | the handler; HandlerUsesFirstAccepted, SecondUrlIsFallback and NoJsonGives500 state its answers |
| LeaderboardRoute.Normalise | backend/routes/leaderboard.js:51-64 | one entry of the list; AddressAndDefaults states when it throws and every field it builds |
| LeaderboardRoute.DisplayName | backend/routes/leaderboard.js:55-58 | the `username` expression; NameFallback and OneItemWallet state its fallback chain and when it throws |
| LeaderboardRoute.ToNumber | backend/routes/leaderboard.js:60-61 | `Number` of the value, or of 0 when it is falsy, on integers; DecimalStringsAreNumbers and NotANumber state its results on strings, arrays and objects |
| LeaderboardRoute.StringToNumber | backend/routes/leaderboard.js:60-61 | JavaScript's `Number` of a string; ExponentScales, TrailingPoint, FractionDigit, NotANumber, DecimalStringValue, UnsignedDigitString and NegativeDigitString state what it reads |
| LeaderboardRoute.JsString | backend/routes/leaderboard.js:60-61 | JavaScript's `String` of a JSON value; SingletonJoins and OneItemArrayString state that a one-element array reads as its element |
| LeaderboardRoute.SingletonJoins | backend/routes/leaderboard.js:60-61 | `[n]` converts to the decimal string of `n` |
| LeaderboardRoute.OneItemArrayString | backend/routes/leaderboard.js:55-58 | `[a]` converts to the string `a` |
| LeaderboardHook.RowsFrom | frontend/src/hooks/useLeaderboard.js:40-49 | one row per contract entry, each built from its entry and position |
| LeaderboardHook.RowsAreRanked | frontend/src/hooks/useLeaderboard.js:40-49 | ranks are positions from 1, nobody is marked, and a missing username becomes 'Player n' |
| LeaderboardHook.FindFrom | frontend/src/hooks/useLeaderboard.js:132-134 | the first row whose address matches ignoring case, and none before it |
| LeaderboardHook.UserRank | frontend/src/hooks/useLeaderboard.js:129-137 | null for an empty address; otherwise the rank of the first matching row, or null iff none matches |
| LeaderboardHook.TopNIsPosition | frontend/src/hooks/useLeaderboard.js:180-183 | on a ranked board the user is in the top n iff a matching row sits among the first n |
| LeaderboardHook.TopPlayers | frontend/src/hooks/useLeaderboard.js:140-142 | a prefix of the board: the first `count` rows (10 by default), or all but the last `-count` for a negative count |
| LeaderboardHook.MarkCurrentUser | frontend/src/hooks/useLeaderboard.js:122-125 | each row is marked iff its address matches the user's ignoring case; nothing else changes |
| LeaderboardHook.MarkTwice | frontend/src/hooks/useLeaderboard.js:122-125 | marking the same user twice changes nothing more |
| LeaderboardHook.Max | frontend/src/hooks/useLeaderboard.js:164 | the highest score is one of the scores and at least every score |
| LeaderboardHook.RoundedMean | frontend/src/hooks/useLeaderboard.js:165 | the rounded mean is within half a point of the exact mean, halves rounding up |
| LeaderboardHook.Insert | frontend/src/hooks/useLeaderboard.js:166 | inserting into a sorted list keeps it sorted and adds exactly that element |
| LeaderboardHook.Sort | frontend/src/hooks/useLeaderboard.js:166 | the numeric sort is sorted and a permutation of the scores |
| LeaderboardHook.Scores | frontend/src/hooks/useLeaderboard.js:163 | the scores of the rows, in order |
| LeaderboardHook.MedianFacts | frontend/src/hooks/useLeaderboard.js:166 | the median is one of the scores with at least half of them on each side |
| LeaderboardHook.StatsDescribeBoard | frontend/src/hooks/useLeaderboard.js:160-177 | no stats iff the board is empty; otherwise highest, rounded mean, median and player count describe the scores |
| LeaderboardHook.ScoreColorBands | frontend/src/hooks/useLeaderboard.js:231-237 | each colour is one band of scores with inclusive lower thresholds 10000, 5000, 2000 and 500 |
| LeaderboardHook.StatsOf | frontend/src/hooks/useLeaderboard.js:160-177 | `getScoreStats()`; StatsDescribeBoard states its four figures and when it is null |
| LeaderboardHook.InTopN | frontend/src/hooks/useLeaderboard.js:180-183 | `isUserInTopN`; TopNIsPosition states when it holds |
| LeaderboardHook.ScoreColor | frontend/src/hooks/useLeaderboard.js:231-237 | `getScoreColor`; ScoreColorBands states the band of each colour |
| PowerupsHook.PowerupTypeFromId | frontend/src/hooks/usePowerups.js:101-104 | a token id names the type at `id % 4` among the keys |
| PowerupsHook.TypeId | frontend/src/hooks/usePowerups.js:174-179 | the mint id of a type is its position among the keys |
| PowerupsHook.MintIdRoundTrip | frontend/src/hooks/usePowerups.js:174-185 | the purchase mapping's own entries are exactly the keys, and the id it mints reads back as the same type |
| PowerupsHook.TypeFromIdPeriodic | frontend/src/hooks/usePowerups.js:101-104 | token ids four apart name the same type |
| PowerupsHook.OwnedFrom | frontend/src/hooks/usePowerups.js:86-98 | one owned powerup per token id, typed from the id, unused, in order; an answer that is not an array gives none |
| PowerupsHook.Count | frontend/src/hooks/usePowerups.js:120 | a per-type count never exceeds the owned list |
| PowerupsHook.CountsPartition | frontend/src/hooks/usePowerups.js:114-127 | the four per-type counts add up to the owned list |
| PowerupsHook.CountPositive | frontend/src/hooks/usePowerups.js:120 | a count is positive iff some owned powerup has that type |
| PowerupsHook.UnknownTypeFallbacks | frontend/src/hooks/usePowerups.js:107-148 | a string that is not an inherited `Object.prototype` name gets the mystery description, the fallback icon and no price iff it is not a key; an inherited name finds the inherited member in every table, so no fallback applies |
| PowerupsHook.OwnEntriesOnKeys | frontend/src/hooks/usePowerups.js:107-148 | the price, description, icon and mapping tables have own entries exactly for the keys of POWERUP_TYPES, and no own description or icon equals the fallback |
| PowerupsHook.KeysAreNotInherited | frontend/src/hooks/usePowerups.js:107-148 | no key of POWERUP_TYPES is an inherited `Object.prototype` name |
| PowerupsHook.Price | frontend/src/hooks/usePowerups.js:106-111 | `getPowerupPrices()[s]`; UnknownTypeFallbacks, OwnEntriesOnKeys and RowHasNoFallbacks state when it is undefined, own or inherited |
| PowerupsHook.Description | frontend/src/hooks/usePowerups.js:128-136 | `getPowerupDescription(s)`; UnknownTypeFallbacks and RowHasNoFallbacks state when the mystery fallback applies |
| PowerupsHook.Icon | frontend/src/hooks/usePowerups.js:138-146 | `getPowerupIcon(s)`; UnknownTypeFallbacks and RowHasNoFallbacks state when the fallback icon applies |
| PowerupsHook.ReplaceFirstUnderscore | frontend/src/hooks/usePowerups.js:118 | `replace('_', ' ')` keeps the length and changes nothing without an underscore |
| PowerupsHook.ReplaceSkipsPrefix | frontend/src/hooks/usePowerups.js:118 | the replacement skips a prefix without underscores |
| PowerupsHook.ReplacesFirstUnderscore | frontend/src/hooks/usePowerups.js:118 | exactly the first underscore becomes a space |
| PowerupsHook.ShopData | frontend/src/hooks/usePowerups.js:114-127 | four rows, one per key in key order, each with that type's owned count |
| PowerupsHook.RowHasNoFallbacks | frontend/src/hooks/usePowerups.js:114-127 | a key's row shows its own price, description and icon |
| PowerupsHook.ShopCoversEachKeyOnce | frontend/src/hooks/usePowerups.js:114-127 | every key has a row and no key has two |
| PowerupsHook.ShopOwnedAddsUp | frontend/src/hooks/usePowerups.js:114-127 | the rows' owned counts add up to the owned list |
| PowerupsHook.ShopHasNoFallbacks | frontend/src/hooks/usePowerups.js:114-127 | no row shows a fallback price, description or icon |
| PowerupsHook.PowerupStats | frontend/src/hooks/usePowerups.js:281-289 | the loop counts every owned powerup once: a type has an entry iff it is owned, and the entries are the type counts and add up to the total |
| PowerupsHook.BuyGuardOrder | frontend/src/hooks/usePowerups.js:151-185 | each refusal is given exactly when its check is the first to fail; an inherited name passes the type check; the mapping check never fires |
| PowerupsHook.BuyGuard | frontend/src/hooks/usePowerups.js:151-185 | the guard chain of `buyPowerup`; BuyGuardOrder states each refusal |
| PowerupsHook.PowerupPurchases.constructor | frontend/src/hooks/usePowerups.js:30 | not minting, no calls made |
| PowerupsHook.PowerupPurchases.BuyPowerup | frontend/src/hooks/usePowerups.js:150-250 | a refused purchase changes nothing; an inherited name sets and clears minting and fails without a mint; a short balance sets and clears minting; otherwise one mint of the type's id is requested and the result is whether it went through; minting ends false |
| PowerupsHook.PowerupPurchases.SetMinting | frontend/src/hooks/usePowerups.js:30 | records the minting flag |
| PowerupsHook.RecommendedPowerups | frontend/src/hooks/usePowerups.js:298-306 | none without stats; otherwise shield iff average score below 1000, multiplier iff average distance above 5000, double jump iff accuracy below 0.8, and speed always, last and once |
| MonadGames.ValidUsernameIgnoresPadding | frontend/src/hooks/useMonadGames.js:412 | a name is valid iff its trimmed form is 3 to 20 UTF-16 code units long, so padding never changes the answer |
| MonadGames.UsernameCountsCodeUnits | frontend/src/hooks/useMonadGames.js:412 | a trimmed name of plain characters is valid with 3 to 20 of them; one of characters beyond U+FFFF with 2 to 10 |
| MonadGames.FormatAddress | frontend/src/hooks/useMonadGames.js:411 | empty iff the address is empty; otherwise the 13-character shortening for addresses of 10 or more characters |
| MonadGames.EstimatedRank | frontend/src/hooks/useMonadGames.js:385-392 | null iff the high score is 0, and each label iff the score is in its band |
| MonadGames.RankIsMonotone | frontend/src/hooks/useMonadGames.js:385-392 | a higher non-zero high score never gets a worse label |
| MonadGames.FirstTruthy | frontend/src/hooks/useMonadGames.js:113-120 | an `\|\|` chain gives a truthy name of the chain or the fallback, and the fallback when all are empty |
| MonadGames.FirstTruthyIsFirst | frontend/src/hooks/useMonadGames.js:113-120 | the chain stops at the first truthy name |
| MonadGames.DisplayNameNeverEmpty | frontend/src/hooks/useMonadGames.js:109-133 | the display name is never empty |
| MonadGames.DisplayNamePrefersUsername | frontend/src/hooks/useMonadGames.js:113-125 | the display name is the username whenever there is one, and a MonadGames username wins |
| MonadGames.DisplayNameFallsBackToWallet | frontend/src/hooks/useMonadGames.js:113-120 | with no name of any kind the display name is the shortened wallet, or 'Unknown' without one |
| MonadGames.SubmitGuardOrder | frontend/src/hooks/useMonadGames.js:236-247 | each refusal is given exactly when its check is the first to fail; `canSubmitScore` agrees except that it admits the zero address |
| MonadGames.UsernameGuardOrder | frontend/src/hooks/useMonadGames.js:292-313 | a username update passes iff the connection checks pass and the name is valid; too short and too long are judged on the trimmed name's UTF-16 length |
| MonadGames.IsValidUsername | frontend/src/hooks/useMonadGames.js:412 | `isValidUsername`; ValidUsernameIgnoresPadding and UsernameCountsCodeUnits state which names pass |
| MonadGames.BuildDisplayUser | frontend/src/hooks/useMonadGames.js:109-133 | `buildDisplayUser`; DisplayNameNeverEmpty, DisplayNamePrefersUsername and DisplayNameFallsBackToWallet state its name fallbacks |
| MonadGames.IsConnected | frontend/src/hooks/useMonadGames.js:379 | `isConnected`; SubmitGuardOrder and UsernameGuardOrder state that its failure is the first refusal |
| MonadGames.CanSubmitScore | frontend/src/hooks/useMonadGames.js:410 | `canSubmitScore()`; SubmitGuardOrder states that it agrees with the submit guards except on the zero address |
| MonadGames.SubmitGuard | frontend/src/hooks/useMonadGames.js:236-247 | the guard chain of `submitGameScore`; SubmitGuardOrder states each refusal |
| MonadGames.UsernameGuard | frontend/src/hooks/useMonadGames.js:292-313 | the guard chain of `updateUsername`; UsernameGuardOrder states each refusal |
| MonadGames.MonadGamesHook.constructor | frontend/src/hooks/useMonadGames.js:23-24 | no username, not submitting, no writes |
| MonadGames.MonadGamesHook.SubmitGameScore | frontend/src/hooks/useMonadGames.js:234-288 | a refused submission changes nothing; otherwise one score write with powerups defaulting to 0, the submitting flag set and cleared, and the result is true exactly when the guards pass, since wagmi's `writeContract` never rejects |
| MonadGames.MonadGamesHook.UpdateUsername | frontend/src/hooks/useMonadGames.js:290-342 | a refused update changes nothing; otherwise the trimmed name is written and then stored whatever becomes of the transaction, and the result is true exactly when the guards pass, so a stored name is 3 to 20 UTF-16 code units |

## Left out

- Drawing is not modelled: every `draw*` and `render` function of the engine, sprites and screens, the canvas context and sprite images.
- DOM wiring is left out beyond the engine's own key, click and touch listeners and the hook's key listener. Also left out: `setupEventListeners`' removal of listeners, the resize handling and the React components.
- `requestAnimationFrame` is modelled as a set of pending frame ids and the browser's choice of which to fire. Frame timing and `deltaTime` are not modelled, because the engine steps by a fixed frame.
- Floating point is not modelled. Numbers are exact reals, so rounding of the score, speed and timers is not captured.
- `Math.random()` is a parameter, the sequence of draws. So are `Math.sin` and `performance.now()`.
- Asset loading, `toast` and `console` output are left out. Their outcomes enter as parameters where they decide a branch.
- These outside calls enter only as their outcome: `fetch`, `JSON.parse`, ethers' `getAddress` checksum, the contract call and its receipt, and the username check endpoint.
- SubmitScore: arrays in the request body are not modelled. `BigInt` of an array reads the array's joined string; the model's JSON values hold no arrays. A fractional number is modelled, and `BigInt` throws on it.
- The leaderboard hook's mock data, its `useEffect` refresh plumbing, `refreshLeaderboard`, `formatRank` and `getRankColor` are left out. They are fixed literals or timers with no logic to prove.
- The `usePowerups` helpers `canAfford`, `activatePowerup` and the `totalValue` sum of `getPowerupStats` are left out, because they are floating-point `parseFloat` arithmetic.
- PowerupsHook.PowerupPurchases.BuyPowerup: the gas estimate and the refetch timer are not modelled. `parseEther` is modelled only as throwing on an inherited member, which is not a decimal string. The balance check and the write enter as their outcomes.
- `connectWallet`, `connectMonadGamesID`, `disconnectWallet` and the contract-stats and username-loading effects of `useMonadGames` are left out. They are wallet SDK calls and React effects.
- The `error` state of wagmi's `useWriteContract` is left out. A failed or rejected score or username transaction is reported there, and `submitGameScore` and `updateUsername` never see it.
- `initializeScoreSubmissionManager` is left out; it is a module-level singleton. `_notifyBackendPersistence` and the `window.monadGamesManager` user lookup are also left out; they only log.
- Token ids and on-chain amounts are unbounded integers. The precision loss of `Number()` on large BigInts is not modelled.
- Engine.GameEngine.RemovePowerupEffect is called only with keys of POWERUP_TYPES. So the lower-case fallback branch of `removePowerupEffect` (lines 492-514) is not modelled; it is unreachable from the engine.
- Common.ToLower: lowers ASCII letters only. JavaScript's `toLowerCase` also folds other letters and can change a string's length; the addresses it is applied to are hexadecimal.
- Common.SliceHead: counts characters, while JavaScript's `slice` counts UTF-16 code units. The two differ only beyond U+FFFF, where the source can split a surrogate pair; wallet addresses and response bodies sliced here are ASCII in practice.
- Common.SliceTail: counts characters, not UTF-16 code units, for the same reason.
- Common.ShortAddress: slices characters, not UTF-16 code units, for the same reason.
- LeaderboardRoute.ToNumber: numbers are integers. A fraction is `None` instead of its floating value, and `Number` of a very large decimal string loses no precision here. `String(n)` of a number of 21 or more digits, which JavaScript writes with an exponent, is written out in full.
- LeaderboardRoute.JsString: a JSON value can hold no `undefined`, so an array's `undefined` elements do not arise; `null` elements join as empty.
- Sprites.ParticleColor: `colors[type]` would also find the members every object inherits, such as "constructor", which are truthy and not a colour. The engine passes only the literal kinds (gameEngine.js:258, 424, 433, 440 and 446), so this branch is unreachable and not modelled.
- The engine's callbacks `onScoreUpdate`, `onGameOver` and `onPowerupCollect` start as null and are called only when set (gameEngine.js:68-70, 207, 454 and 741). The engine is modelled with all three set, as the hook always sets them before any frame runs (useGameLogic.js:34-52). So every report is recorded as an event.
- PowerupsHook.ReplaceFirstUnderscore: the display names of the four literal keys are not stated one by one. The generic lemma on where the first underscore sits covers them.
