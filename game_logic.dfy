/** The `useGameLogic` hook of frontend/src/hooks/useGameLogic.js: the
    screen state (menu, playing, paused, game over) the UI shows, kept
    beside a `GameEngine` that the hook drives and that reports back through
    the three callbacks it installs. Module GameLogic states each handler as
    a pure step on `Sys` (the hook's state together with the engine's), and
    class `GameLogicHook` performs it on a live engine. */
module GameLogic {
  import opened Common
  import opened Constants
  import opened Sprites
  import opened EngineSpec
  import opened Engine

  /** The hook's React state: `gameState`, `gameStats`, `finalStats` and
      `isLoading`. The hook only ever shows Menu, Playing, Paused or
      GameOver. */
  datatype Ui = Ui(gameState: GameState, gameStats: Stats, finalStats: Option<FinalStats>, isLoading: bool)

  /** The initial `useState` values (lines 7-15); `speed: '1.0'` is the
      number 1.0 that the engine reports as `toFixed(1)`. */
  const INITIAL_UI: Ui := Ui(Menu, Stats(0, 0, 3, 1.0), None, true)

  /** The hook and the engine it holds: `hasEngine` is
      `gameEngineRef.current !== null`, and `m` is the engine's state when
      there is one. */
  datatype Sys = Sys(ui: Ui, hasEngine: bool, m: Machine)

  const INITIAL_SYS: Sys := Sys(INITIAL_UI, false, Machine(INITIAL_WORLD, NO_FRAMES))

  // -----------------------------------------------------------------------
  // The engine callbacks (lines 34-52)

  /** One callback: `onScoreUpdate` stores the stats, `onGameOver` shows the
      game-over screen with its snapshot, `onPowerupCollect` only raises a
      toast. */
  function OnEvent(u: Ui, e: Event): (r: Ui)
    ensures r.isLoading == u.isLoading
  {
    match e
    case ScoreUpdate(s) => u.(gameStats := s)
    case GameOverEvent(f) => u.(gameState := GameOver, finalStats := Some(f))
    case PowerupCollected(_) => u
  }

  /** The callbacks of `evs`, in the order the engine made them. */
  function OnEvents(u: Ui, evs: seq<Event>): (r: Ui)
    ensures r.isLoading == u.isLoading
  {
    if evs == [] then u else OnEvent(OnEvents(u, evs[..|evs| - 1]), evs[|evs| - 1])
  }

  /** A game-over report moves the hook to the game-over screen with that
      report's snapshot, whatever score updates and pickups follow it. */
  lemma {:induction false} GameOverReportShows(u: Ui, evs: seq<Event>, i: nat)
    requires i < |evs| && evs[i].GameOverEvent?
    requires forall j :: i < j < |evs| ==> !evs[j].GameOverEvent?
    ensures OnEvents(u, evs).gameState == GameOver
    ensures OnEvents(u, evs).finalStats == Some(evs[i].final)
    decreases |evs|
  {
    var last := |evs| - 1;
    if i < last {
      assert evs[..last][i] == evs[i];
      GameOverReportShows(u, evs[..last], i);
      assert !evs[last].GameOverEvent?;
    }
  }

  /** Without a game-over report the screen and the snapshot stay as they
      were, and the shown stats are those of the last score update. */
  lemma {:induction false} NoGameOverKeepsScreen(u: Ui, evs: seq<Event>)
    requires forall j :: 0 <= j < |evs| ==> !evs[j].GameOverEvent?
    ensures OnEvents(u, evs).gameState == u.gameState
    ensures OnEvents(u, evs).finalStats == u.finalStats
    decreases |evs|
  {
    if evs != [] {
      NoGameOverKeepsScreen(u, evs[..|evs| - 1]);
    }
  }

  /** The events of one engine call, dispatched after it. */
  function Report(s: Sys, o: MOut): Sys
  {
    Sys(OnEvents(s.ui, o.events), true, o.m)
  }

  // -----------------------------------------------------------------------
  // The handlers as steps of `Sys`

  /** `initializeGame()` (lines 22-63): once the sprites are loaded and the
      canvas exists, a fresh engine and the menu; `isLoading` ends false
      either way. */
  function InitS(s: Sys, assetsLoaded: bool, canvasReady: bool): Sys
  {
    if assetsLoaded && canvasReady then
      Sys(s.ui.(gameState := Menu, isLoading := false), true, Machine(INITIAL_WORLD, NO_FRAMES))
    else s.(ui := s.ui.(isLoading := false))
  }

  /** `startGame()` (lines 68-78). */
  function StartS(s: Sys, now: real, rand: nat -> Unit, sin: real -> real): Sys
  {
    if !s.hasEngine then s else ShowPlayingS(Report(s, StartM(s.m, now, rand, sin)))
  }

  /** What `startGame()` and `restartGame()` do after the engine call:
      `setGameState('playing')` and `setFinalStats(null)`. */
  function ShowPlayingS(s: Sys): Sys
  {
    s.(ui := s.ui.(gameState := Playing, finalStats := None))
  }

  /** `pauseGame()` (lines 80-89). */
  function PauseS(s: Sys): Sys
  {
    if s.hasEngine && s.ui.gameState == Playing then
      Sys(s.ui.(gameState := Paused), true, s.m.(w := TogglePauseW(s.m.w)))
    else s
  }

  /** `resumeGame()` (lines 91-100). */
  function ResumeS(s: Sys): Sys
  {
    if s.hasEngine && s.ui.gameState == Paused then
      Sys(s.ui.(gameState := Playing), true, s.m.(w := TogglePauseW(s.m.w)))
    else s
  }

  /** `restartGame()` (lines 102-113): `reset()`, then `start()`. */
  function RestartS(s: Sys, now: real, rand: nat -> Unit, sin: real -> real): Sys
  {
    if !s.hasEngine then s else ShowPlayingS(Report(s, StartM(s.m.(w := ResetW(s.m.w)), now, rand, sin)))
  }

  /** `backToMenu()` (lines 115-121): the engine's state is overwritten
      with 'menu' and nothing else of it changes. */
  function BackToMenuS(s: Sys): Sys
  {
    if s.hasEngine then
      Sys(s.ui.(gameState := Menu, finalStats := None), true, s.m.(w := s.m.w.(gameState := Menu)))
    else s
  }

  /** The engine's own `keydown` listener on `document` (gameEngine.js
      lines 78-87), which runs before the hook's listener on `window`. */
  function EngineKeyS(s: Sys, code: KeyCode): Sys
  {
    if !s.hasEngine then s else Report(s, EngineKeyM(s.m, code))
  }

  /** That listener on the engine alone: a jump for Space and ArrowUp,
      `togglePause()` for P, with no state guard. */
  function EngineKeyM(m: Machine, code: KeyCode): MOut
  {
    if code == Space || code == ArrowUp then
      var o := JumpW(m.w);
      MOut(m.(w := o.w), o.events, o.cues)
    else if code == KeyP then MOut(m.(w := TogglePauseW(m.w)), [], [])
    else MOut(m, [], [])
  }

  /** The hook's `handleKeyPress` (lines 132-152). */
  function HookKeyS(s: Sys, code: KeyCode, now: real, rand: nat -> Unit, sin: real -> real): Sys
  {
    match code
    case KeyP =>
      if s.ui.gameState == Playing then PauseS(s)
      else if s.ui.gameState == Paused then ResumeS(s)
      else s
    case KeyR => if s.ui.gameState == GameOver then RestartS(s, now, rand, sin) else s
    case Escape => if s.ui.gameState != Menu then BackToMenuS(s) else s
    case _ => s
  }

  /** One key press reaching both listeners. */
  function PressKeyS(s: Sys, code: KeyCode, now: real, rand: nat -> Unit, sin: real -> real): Sys
  {
    HookKeyS(EngineKeyS(s, code), code, now, rand, sin)
  }

  /** The browser runs the engine's pending frame `id`. */
  function FrameS(s: Sys, id: nat, now: real, rand: nat -> Unit, sin: real -> real): Sys
    requires s.hasEngine && id in s.m.s.pending
  {
    Report(s, StepM(s.m, id, now, rand, sin))
  }

  /** The unmount cleanup (lines 159-165): 'stopped' is written into the
      engine, and `destroy()` is not called. */
  function UnmountS(s: Sys): Sys
  {
    if s.hasEngine then s.(m := s.m.(w := s.m.w.(gameState := Stopped))) else s
  }

  // -----------------------------------------------------------------------
  // Properties of the handlers

  /** Pausing acts only from the playing screen: then the engine's pause is
      toggled once and the paused screen shows. Otherwise nothing changes. */
  lemma PauseIsGuarded(s: Sys)
    ensures var r := PauseS(s);
      && (s.hasEngine && s.ui.gameState == Playing ==>
            r.ui == s.ui.(gameState := Paused) && r.m.w == TogglePauseW(s.m.w) && r.m.s == s.m.s)
      && (!s.hasEngine || s.ui.gameState != Playing ==> r == s)
  {
  }

  /** Resuming acts only from the paused screen, toggling the engine once. */
  lemma ResumeIsGuarded(s: Sys)
    ensures var r := ResumeS(s);
      && (s.hasEngine && s.ui.gameState == Paused ==>
            r.ui == s.ui.(gameState := Playing) && r.m.w == TogglePauseW(s.m.w) && r.m.s == s.m.s)
      && (!s.hasEngine || s.ui.gameState != Paused ==> r == s)
  {
  }

  /** Pausing from the button and then resuming leaves a running engine as
      it was. */
  lemma PauseThenResume(s: Sys)
    requires s.hasEngine && s.ui.gameState == Playing && s.m.w.gameState == Playing && !s.m.w.isPaused
    ensures ResumeS(PauseS(s)) == s
  {
  }

  /** The P key reaches the engine's listener first, which toggles the pause,
      and then the hook's, which toggles it back: from the playing screen the
      hook shows 'paused' while the engine goes on running unpaused, and
      from the paused screen that this leaves, P shows 'playing' again with
      the engine still untouched. */
  lemma KeyPDesync(s: Sys, now: real, rand: nat -> Unit, sin: real -> real)
    requires s.hasEngine && s.m.w.gameState == Playing && !s.m.w.isPaused
    requires s.ui.gameState == Playing || s.ui.gameState == Paused
    ensures var r := PressKeyS(s, KeyP, now, rand, sin);
      && r.m == s.m && !r.m.w.isPaused && r.m.w.gameState == Playing
      && r.ui.gameState == (if s.ui.gameState == Playing then Paused else Playing)
  {
    var t := EngineKeyS(s, KeyP);
    assert t.m.w == TogglePauseW(s.m.w) && t.ui == s.ui;
  }

  /** Escape from any screen but the menu shows the menu and writes 'menu'
      into the engine without stopping it: a running engine keeps asking for
      frames, and each of them only asks for the next. */
  lemma EscapeLeavesLoopRunning(s: Sys, id: nat, now: real, rand: nat -> Unit, sin: real -> real)
    requires s.hasEngine && s.ui.gameState != Menu && s.m.w.isRunning
    requires id in s.m.s.pending
    ensures var r := PressKeyS(s, Escape, now, rand, sin);
      && r.ui.gameState == Menu && r.ui.finalStats == None
      && r.m.w == s.m.w.(gameState := Menu) && r.m.w.isRunning
      && var f := FrameS(r, id, now, rand, sin);
         f.m.w == r.m.w && f.m.s == RequestFrame(r.m.s.(pending := r.m.s.pending - {id}))
         && f.ui == r.ui
  {
    var r := PressKeyS(s, Escape, now, rand, sin);
    assert r == BackToMenuS(s);
    var o := StepM(r.m, id, now, rand, sin);
    assert o.events == [] && o.m.w == r.m.w;
  }

  /** R restarts only from the game-over screen. */
  lemma KeyRIsGuarded(s: Sys, now: real, rand: nat -> Unit, sin: real -> real)
    requires s.ui.gameState != GameOver
    ensures PressKeyS(s, KeyR, now, rand, sin) == s
  {
  }

  /** `restartGame()` resets before `start()`, which resets again: the
      extra reset changes nothing, so a restart is a start. */
  lemma RestartIsStart(s: Sys, now: real, rand: nat -> Unit, sin: real -> real)
    ensures RestartS(s, now, rand, sin) == StartS(s, now, rand, sin)
  {
    if s.hasEngine {
      var w := s.m.w;
      assert StartW(ResetW(w)) == StartW(w);
    }
  }

  /** Starting shows the playing screen with no final snapshot and the
      stats of the first frame, and from a valid engine that first frame
      (at full health) cannot end the run. */
  lemma StartShowsPlaying(s: Sys, now: real, rand: nat -> Unit, sin: real -> real)
    requires s.hasEngine && Inv(s.m.w)
    ensures var r := StartS(s, now, rand, sin);
      && r.ui.gameState == Playing && r.ui.finalStats == None
      && r.m.w.isRunning && r.ui.gameStats == StatsOf(r.m.w)
  {
    var w := StartW(s.m.w);
    OtherStepsKeepInv(s.m.w, Playing);
    assert w.isRunning && w.gameState == Playing && !w.isPaused;
    assert w.player.health == 3;
    var u := UpdateW(w, now, rand, sin);
    UpdateRunsOnAtFullHealth(w, now, rand, sin);
    UpdateReports(w, now, rand, sin);
    var o := LoopWith(s.m.(w := w), u);
    assert o.m.w == u.w && o.events == u.events;
    var evs := u.events;
    assert OnEvents(s.ui, evs).gameStats == StatsOf(u.w) by {
      assert evs[|evs| - 1] == ScoreUpdate(StatsOf(u.w));
    }
  }

  /** Unmounting writes 'stopped' into the engine and leaves its run flag
      and its pending frame alone, so the next frame still runs the loop and
      ends it. */
  lemma UnmountLeavesFrames(s: Sys, id: nat, now: real, rand: nat -> Unit, sin: real -> real)
    requires s.hasEngine && s.m.w.isRunning && id in s.m.s.pending
    ensures var r := UnmountS(s);
      && r.m.s == s.m.s && r.m.w.isRunning && r.m.w.gameState == Stopped
      && FrameS(r, id, now, rand, sin).m.s == RequestFrame(s.m.s.(pending := s.m.s.pending - {id}))
  {
    var r := UnmountS(s);
    var o := StepM(r.m, id, now, rand, sin);
    assert o.m.s == RequestFrame(s.m.s.(pending := s.m.s.pending - {id}));
  }

  // -----------------------------------------------------------------------
  // The hook over a live engine

  class GameLogicHook {
    var gameState: GameState
    var gameStats: Stats
    var finalStats: Option<FinalStats>
    var isLoading: bool
    /** `gameEngineRef.current`. */
    var engine: GameEngine?

    /** The engine and the objects it owns. */
    function EngineParts(): set<object>
      reads this
    {
      if engine == null then {} else {engine, engine.playerSprite, engine.particleSystem, engine.backgroundManager}
    }

    function Current(): Sys
      reads this, engine
    {
      Sys(Ui(gameState, gameStats, finalStats, isLoading), engine != null,
          if engine == null then Machine(INITIAL_WORLD, NO_FRAMES) else Machine(engine.View(), engine.Frames()))
    }

    ghost predicate Valid()
      reads this, EngineParts()
    {
      engine != null ==> engine.Valid()
    }

    constructor ()
      ensures Valid() && Current() == INITIAL_SYS
    {
      gameState := Menu;
      gameStats := Stats(0, 0, 3, 1.0);
      finalStats := None;
      isLoading := true;
      engine := null;
    }

    /** `initializeGame()`: the sprite loading and the canvas lookup are
        passed in as their outcomes. */
    method Initialize(assetsLoaded: bool, canvasReady: bool)
      requires Valid()
      modifies this
      ensures Valid() && Current() == InitS(old(Current()), assetsLoaded, canvasReady)
      ensures assetsLoaded && canvasReady ==> fresh(engine) && engine.events == []
      ensures !(assetsLoaded && canvasReady) ==> engine == old(engine)
    {
      isLoading := true;
      if assetsLoaded && canvasReady {
        var e := new GameEngine();
        engine := e;
        gameState := Menu;
      }
      isLoading := false;
    }

    /** The callbacks the engine made since it had made `from` of them. */
    method Dispatch(from: nat, ghost evs: seq<Event>)
      requires Valid() && engine != null && from <= |engine.events| && engine.events[from..] == evs
      modifies this
      ensures Valid() && engine == old(engine)
      ensures Current() == old(Current()).(ui := OnEvents(old(Current()).ui, evs))
    {
      ghost var u0 := Ui(gameState, gameStats, finalStats, isLoading);
      var pending := engine.events[from..];
      var i := 0;
      while i < |pending|
        invariant 0 <= i <= |pending| && engine == old(engine) && isLoading == old(isLoading)
        invariant Ui(gameState, gameStats, finalStats, isLoading) == OnEvents(u0, evs[..i])
      {
        assert evs[..i + 1][..i] == evs[..i];
        var e := pending[i];
        if e.ScoreUpdate? {
          gameStats := e.stats;
        } else if e.GameOverEvent? {
          gameState := GameOver;
          finalStats := Some(e.final);
        }
        i := i + 1;
      }
      assert evs[..i] == evs;
    }

    /** `engine.start()`. */
    method EngineStart(now: real, rand: nat -> Unit, sin: real -> real)
      requires Valid() && engine != null
      modifies EngineParts()
      ensures Valid() && engine == old(engine)
      ensures var o := StartM(old(Current().m), now, rand, sin);
        Current() == old(Current()).(m := o.m) && engine.events == old(engine.events) + o.events
    {
      engine.Start(now, rand, sin);
    }

    /** `engine.reset()` followed by `engine.start()`. */
    method EngineRestart(now: real, rand: nat -> Unit, sin: real -> real)
      requires Valid() && engine != null
      modifies EngineParts()
      ensures Valid() && engine == old(engine)
      ensures var m0 := old(Current().m); var o := StartM(m0.(w := ResetW(m0.w)), now, rand, sin);
        Current() == old(Current()).(m := o.m) && engine.events == old(engine.events) + o.events
    {
      OtherStepsKeepInv(engine.View(), engine.gameState);
      engine.Reset();
      engine.Start(now, rand, sin);
    }

    /** The engine's `keydown` listener. */
    method EngineKey(code: KeyCode, rand: nat -> Unit)
      requires Valid() && engine != null
      modifies EngineParts()
      ensures Valid() && engine == old(engine)
      ensures var o := EngineKeyM(old(Current().m), code);
        Current() == old(Current()).(m := o.m) && engine.events == old(engine.events) + o.events
    {
      engine.KeyDown(code, rand);
    }

    /** The engine's frame callback `id`. */
    method EngineStep(id: nat, now: real, rand: nat -> Unit, sin: real -> real)
      requires Valid() && engine != null && id in engine.pendingFrames
      modifies EngineParts()
      ensures Valid() && engine == old(engine)
      ensures var o := StepM(old(Current().m), id, now, rand, sin);
        Current() == old(Current()).(m := o.m) && engine.events == old(engine.events) + o.events
    {
      engine.Step(id, now, rand, sin);
    }

    /** `startGame()`. */
    method StartGame(now: real, rand: nat -> Unit, sin: real -> real)
      requires Valid()
      modifies this, EngineParts()
      ensures engine == old(engine) && Valid()
      ensures Current() == StartS(old(Current()), now, rand, sin)
    {
      if engine != null {
        ghost var s0 := Current();
        ghost var o := StartM(s0.m, now, rand, sin);
        var n := |engine.events|;
        EngineStart(now, rand, sin);
        assert engine.events[n..] == o.events;
        Dispatch(n, o.events);
        assert Current() == Report(s0, o);
        ShowPlaying();
      }
    }

    method ShowPlaying()
      modifies this
      ensures Current() == ShowPlayingS(old(Current())) && engine == old(engine)
    {
      gameState := Playing;
      finalStats := None;
    }

    /** `pauseGame()`. */
    method PauseGame()
      requires Valid()
      modifies this, EngineParts()
      ensures engine == old(engine) && Valid()
      ensures Current() == PauseS(old(Current()))
    {
      if engine != null && gameState == Playing {
        engine.TogglePause();
        gameState := Paused;
      }
    }

    /** `resumeGame()`. */
    method ResumeGame()
      requires Valid()
      modifies this, EngineParts()
      ensures engine == old(engine) && Valid()
      ensures Current() == ResumeS(old(Current()))
    {
      if engine != null && gameState == Paused {
        engine.TogglePause();
        gameState := Playing;
      }
    }

    /** `restartGame()`. */
    method RestartGame(now: real, rand: nat -> Unit, sin: real -> real)
      requires Valid()
      modifies this, EngineParts()
      ensures engine == old(engine) && Valid()
      ensures Current() == RestartS(old(Current()), now, rand, sin)
    {
      if engine != null {
        ghost var s0 := Current();
        ghost var o := StartM(s0.m.(w := ResetW(s0.m.w)), now, rand, sin);
        var n := |engine.events|;
        EngineRestart(now, rand, sin);
        assert engine.events[n..] == o.events;
        Dispatch(n, o.events);
        assert Current() == Report(s0, o);
        ShowPlaying();
      }
    }

    /** `backToMenu()`. */
    method BackToMenu()
      requires Valid()
      modifies this, EngineParts()
      ensures engine == old(engine) && Valid()
      ensures Current() == BackToMenuS(old(Current()))
    {
      if engine != null {
        engine.SetGameState(Menu);
        gameState := Menu;
        finalStats := None;
      }
    }

    /** `getCurrentStats()` (lines 123-128): the engine's own snapshot when
        there is an engine, else the last reported stats. */
    method GetCurrentStats() returns (r: Either<GameStats, Stats>)
      ensures engine != null ==> r == Left(GameStatsOf(engine.View()))
      ensures engine == null ==> r == Right(gameStats)
    {
      if engine != null {
        var g := engine.GetGameStats();
        r := Left(g);
      } else {
        r := Right(gameStats);
      }
    }

    /** A key press: the engine's `document` listener, then the hook's
        `window` listener. */
    method PressKey(code: KeyCode, now: real, rand: nat -> Unit, sin: real -> real)
      requires Valid()
      modifies this, EngineParts()
      ensures engine == old(engine) && Valid()
      ensures Current() == PressKeyS(old(Current()), code, now, rand, sin)
    {
      if engine != null {
        ghost var s0 := Current();
        ghost var o := EngineKeyM(s0.m, code);
        var n := |engine.events|;
        EngineKey(code, rand);
        assert engine.events[n..] == o.events;
        Dispatch(n, o.events);
      }
      match code
      case KeyP =>
        if gameState == Playing {
          PauseGame();
        } else if gameState == Paused {
          ResumeGame();
        }
      case KeyR =>
        if gameState == GameOver {
          RestartGame(now, rand, sin);
        }
      case Escape =>
        if gameState != Menu {
          BackToMenu();
        }
      case _ =>
    }

    /** The browser runs the engine's pending frame `id`; the callbacks it
        makes reach the hook. */
    method Frame(id: nat, now: real, rand: nat -> Unit, sin: real -> real)
      requires Valid() && engine != null && id in engine.pendingFrames
      modifies this, EngineParts()
      ensures engine == old(engine) && Valid()
      ensures Current() == FrameS(old(Current()), id, now, rand, sin)
    {
      ghost var s0 := Current();
      ghost var o := StepM(s0.m, id, now, rand, sin);
      var n := |engine.events|;
      EngineStep(id, now, rand, sin);
      assert engine.events[n..] == o.events;
      Dispatch(n, o.events);
    }

    /** The unmount cleanup. */
    method Unmount()
      requires Valid()
      modifies EngineParts()
      ensures Valid() && Current() == UnmountS(old(Current()))
    {
      if engine != null {
        engine.SetGameState(Stopped);
      }
    }
  }

  /** `getCurrentStats()` returns either shape. */
  datatype Either<L, R> = Left(left: L) | Right(right: R)
}
