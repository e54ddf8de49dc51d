/** `ScoreSubmissionManager` of frontend/src/utils/score-submission-manager.js:
    points and transaction counts are accumulated, a batch timer is
    (re)armed on every addition, and a submission takes the pending amounts,
    hands them to the wallet callback or the server relay, and on failure
    puts them back and retries a bounded number of times.

    `submitImmediately()` awaits the outside world, so it is split at that
    await: `BeginS` runs up to it and `FinishS` runs from it, given what the
    callback or the relay did (`External`). Other calls may run in between.
    Timers are ids in `timers`, each firing `submitImmediately()`. */
module Submission {
  import opened Common

  /** The manager's options and build mode: `VITE_USE_SERVER_RELAY`,
      whether a `submitOnChainCallback` function was given, and the
      `batchDelay` and `maxRetry` it ended up with. */
  datatype Config = Config(serverRelay: bool, hasCallback: bool, batchDelay: nat, maxRetry: nat)

  /** `options.batchDelay || 3000` and `options.maxRetry || 3`: an omitted or
      zero option takes the default. */
  function MakeConfig(serverRelay: bool, hasCallback: bool, batchDelay: Option<nat>, maxRetry: Option<nat>): (c: Config)
    ensures c.batchDelay == (if batchDelay.Some? && batchDelay.value != 0 then batchDelay.value else 3000)
    ensures c.maxRetry == (if maxRetry.Some? && maxRetry.value != 0 then maxRetry.value else 3)
    ensures c.batchDelay > 0 && c.maxRetry > 0
  {
    Config(serverRelay, hasCallback,
           if batchDelay.Some? && batchDelay.value != 0 then batchDelay.value else 3000,
           if maxRetry.Some? && maxRetry.value != 0 then maxRetry.value else 3)
  }

  /** A timer and the delay it was armed with: the batch timer kept in
      `submitTimeout`, or a retry timer, which nothing keeps. */
  datatype Timer = Batch(delay: nat) | Retry(delay: nat)

  datatype Mgr = Mgr(
    pendingScore: int, pendingTransactions: int,
    submitTimeout: Option<nat>, isSubmitting: bool, retryCount: nat,
    timers: map<nat, Timer>, nextTimer: nat)

  const INITIAL_MGR: Mgr := Mgr(0, 0, None, false, 0, map[], 1)

  /** The object `submitImmediately()` resolves to. */
  datatype Response = Response(success: bool, message: string, attempt: Option<nat>)

  /** What the await of an attempt met: the callback reported success (or
      a transaction hash) or the relay answered ok; the callback reported
      failure or the relay answered with an error status; or the callback or
      `fetch` threw. */
  datatype External = Accepted | Rejected | Threw

  /** Where `submitImmediately()` stands at its first await. */
  datatype Begun = Done(m: Mgr, response: Response) | Started(m: Mgr, score: int, transactions: int)

  /** The timers are told apart by id, every id is below `nextTimer`, every
      batch timer still armed is the one `submitTimeout` holds, and
      `retryCount` never passes `maxRetry`. */
  ghost predicate Inv(c: Config, m: Mgr)
  {
    && m.nextTimer >= 1
    && (forall id :: id in m.timers ==> id < m.nextTimer)
    && (forall id :: id in m.timers && m.timers[id].Batch? ==> m.submitTimeout == Some(id))
    && (m.submitTimeout.Some? ==> m.submitTimeout.value < m.nextTimer)
    && (m.submitTimeout.Some? && m.submitTimeout.value in m.timers ==> m.timers[m.submitTimeout.value].Batch?)
    && m.retryCount <= c.maxRetry
  }

  lemma InitialInv(c: Config)
    ensures Inv(c, INITIAL_MGR)
  {
  }

  /** `clearTimeout(this.submitTimeout)` when one is held. */
  function ClearBatch(m: Mgr): Mgr
  {
    if m.submitTimeout.Some? then m.(timers := m.timers - {m.submitTimeout.value}) else m
  }

  /** Clearing the batch timer leaves exactly the retry timers. */
  lemma ClearBatchKeepsRetries(c: Config, m: Mgr)
    requires Inv(c, m)
    ensures var r := ClearBatch(m);
      && Inv(c, r)
      && (forall id :: id in r.timers ==> id in m.timers && r.timers[id] == m.timers[id] && r.timers[id].Retry?)
      && (forall id :: id in m.timers && m.timers[id].Retry? ==> id in r.timers)
  {
  }

  /** `scheduleSubmission()` (lines 32-35). */
  function ScheduleS(c: Config, m: Mgr): Mgr
  {
    var m1 := ClearBatch(m);
    m1.(timers := m1.timers[m1.nextTimer := Batch(c.batchDelay)],
        submitTimeout := Some(m1.nextTimer), nextTimer := m1.nextTimer + 1)
  }

  /** `addScore(points)` (lines 21-24); `None` is a missing or null
      argument, which `points || 0` turns into 0. */
  function AddScoreS(c: Config, m: Mgr, points: Option<int>): Mgr
  {
    ScheduleS(c, m.(pendingScore := m.pendingScore + (if points.Some? then points.value else 0)))
  }

  /** `addTransaction(count = 1)` (lines 27-30); `None` is an omitted
      argument. */
  function AddTransactionS(c: Config, m: Mgr, count: Option<int>): Mgr
  {
    ScheduleS(c, m.(pendingTransactions := m.pendingTransactions + (if count.Some? then count.value else 1)))
  }

  /** `submitImmediately()` up to its first await (lines 37-74): busy,
      nothing to send, or no route settle at once; otherwise the pending
      amounts are taken and the attempt is under way. */
  function BeginS(c: Config, m: Mgr): Begun
  {
    if m.isSubmitting then Done(m, Response(false, "already_submitting", None))
    else
      var m1 := ClearBatch(m).(submitTimeout := None, pendingScore := 0, pendingTransactions := 0);
      if m.pendingScore == 0 && m.pendingTransactions == 0 then
        Done(m1, Response(true, "nothing_to_submit", None))
      else if !c.serverRelay && !c.hasCallback then
        Done(m1, Response(false, "no_submission_route_available", None))
      else Started(m1.(isSubmitting := true), m.pendingScore, m.pendingTransactions)
  }

  /** The `catch` (lines 139-153): with retries left the amounts go back
      and a retry is armed `2000 * retryCount` ms out; at the limit the
      count starts over and the amounts are gone. */
  function FailS(c: Config, m: Mgr, score: int, transactions: int): (Mgr, Response)
  {
    if m.retryCount < c.maxRetry then
      var n := m.retryCount + 1;
      (m.(retryCount := n, pendingScore := m.pendingScore + score,
          pendingTransactions := m.pendingTransactions + transactions,
          timers := m.timers[m.nextTimer := Retry(2000 * n)], nextTimer := m.nextTimer + 1),
       Response(false, "retrying", Some(n)))
    else (m.(retryCount := 0), Response(false, "submission_failed", None))
  }

  /** `submitImmediately()` from its await to its end (lines 76-156), given
      what the await met; the `finally` clears `isSubmitting` on every
      path. */
  function FinishS(c: Config, m: Mgr, score: int, transactions: int, ext: External): (Mgr, Response)
  {
    var r :=
      if !c.serverRelay then
        // wallet-first: the callback's outcome is final, and a failure is
        // not retried
        match ext
        case Accepted => (m.(retryCount := 0), Response(true, "wallet_tx_success", None))
        case Rejected => (m, Response(false, "wallet_tx_failed", None))
        case Threw => (m, Response(false, "wallet_tx_exception", None))
      else
        // server relay: an error status is thrown into the catch
        if ext == Accepted then (m.(retryCount := 0), Response(true, "server_relay_success", None))
        else FailS(c, m, score, transactions);
    (r.0.(isSubmitting := false), r.1)
  }

  /** `getPendingData()` (lines 219-225). */
  datatype Pending = Pending(score: int, transactions: int, isSubmitting: bool)

  /** `destroy()` (lines 227-235); retry timers already armed are not
      cleared. */
  function DestroyS(m: Mgr): Mgr
  {
    ClearBatch(m).(submitTimeout := None, isSubmitting := false, pendingScore := 0, pendingTransactions := 0)
  }

  /** A timer fires: it is gone, and `submitImmediately()` starts. */
  function FireS(c: Config, m: Mgr, id: nat): Begun
  {
    BeginS(c, m.(timers := m.timers - {id}))
  }

  // -----------------------------------------------------------------------
  // Properties

  /** Each addition adds its amount (a missing score as 0, an omitted count
      as 1) and leaves exactly one batch timer armed: a new one, after
      clearing the one before. */
  lemma AddReplacesTimer(c: Config, m: Mgr, points: Option<int>, count: Option<int>)
    requires Inv(c, m)
    ensures var r := AddScoreS(c, m, points);
      && r.pendingScore == m.pendingScore + (if points.Some? then points.value else 0)
      && r.pendingTransactions == m.pendingTransactions
      && OnlyBatch(r) && Inv(c, r)
    ensures var r := AddTransactionS(c, m, count);
      && r.pendingTransactions == m.pendingTransactions + (if count.Some? then count.value else 1)
      && r.pendingScore == m.pendingScore
      && OnlyBatch(r) && Inv(c, r)
  {
    ScheduleArmsOne(c, m.(pendingScore := m.pendingScore + (if points.Some? then points.value else 0)));
    ScheduleArmsOne(c, m.(pendingTransactions := m.pendingTransactions + (if count.Some? then count.value else 1)));
  }

  /** The armed batch timer is `submitTimeout`'s, with the configured
      delay, and no other batch timer is armed. */
  ghost predicate OnlyBatch(m: Mgr)
  {
    && m.submitTimeout.Some? && m.submitTimeout.value in m.timers
    && m.timers[m.submitTimeout.value].Batch?
    && forall id :: id in m.timers && m.timers[id].Batch? ==> id == m.submitTimeout.value
  }

  lemma ScheduleArmsOne(c: Config, m: Mgr)
    requires Inv(c, m)
    ensures var r := ScheduleS(c, m);
      && OnlyBatch(r) && Inv(c, r) && r.timers[r.submitTimeout.value] == Batch(c.batchDelay)
      && r.pendingScore == m.pendingScore && r.pendingTransactions == m.pendingTransactions
      && r.isSubmitting == m.isSubmitting && r.retryCount == m.retryCount
      && (forall id :: id in m.timers && m.timers[id].Retry? ==> id in r.timers && r.timers[id] == m.timers[id])
  {
    ClearBatchKeepsRetries(c, m);
  }

  /** A call while an attempt is under way changes nothing. */
  lemma BusyIsSkipped(c: Config, m: Mgr)
    requires m.isSubmitting
    ensures BeginS(c, m) == Done(m, Response(false, "already_submitting", None))
  {
  }

  /** Otherwise the pending amounts are taken (zeroed) before anything
      else, the batch timer is cleared, and an attempt starts only when
      there is something to send and a route to send it by; with nothing to
      send `isSubmitting` is not set. */
  lemma BeginTakesPending(c: Config, m: Mgr)
    requires Inv(c, m) && !m.isSubmitting
    ensures var b := BeginS(c, m);
      && b.m.pendingScore == 0 && b.m.pendingTransactions == 0
      && b.m.submitTimeout == None && Inv(c, b.m)
      && (forall id :: id in b.m.timers ==> b.m.timers[id].Retry?)
      && (b.Started? <==> (m.pendingScore != 0 || m.pendingTransactions != 0) && (c.serverRelay || c.hasCallback))
      && (b.Started? ==> b.m.isSubmitting && b.score == m.pendingScore && b.transactions == m.pendingTransactions)
      && (m.pendingScore == 0 && m.pendingTransactions == 0 ==>
            b == Done(b.m, Response(true, "nothing_to_submit", None)) && !b.m.isSubmitting)
  {
    ClearBatchKeepsRetries(c, m);
  }

  /** Every way out of an attempt clears `isSubmitting`, and every success
      starts the retry count over. */
  lemma FinishClearsSubmitting(c: Config, m: Mgr, score: int, transactions: int, ext: External)
    ensures var (r, resp) := FinishS(c, m, score, transactions, ext);
      && !r.isSubmitting
      && (resp.success ==> r.retryCount == 0 && ext == Accepted)
      && (ext == Accepted ==> resp.success)
  {
  }

  /** A failed relay attempt with retries left puts the taken amounts back
      on top of whatever was added meanwhile, counts the retry, and arms a
      retry timer `2000 * retryCount` ms out; at the limit the amounts are
      dropped and the count starts over. */
  lemma RelayFailureRetries(c: Config, m: Mgr, score: int, transactions: int, ext: External)
    requires Inv(c, m) && c.serverRelay && ext != Accepted
    ensures var (r, resp) := FinishS(c, m, score, transactions, ext);
      && Inv(c, r)
      && (m.retryCount < c.maxRetry ==>
            && r.pendingScore == m.pendingScore + score
            && r.pendingTransactions == m.pendingTransactions + transactions
            && r.retryCount == m.retryCount + 1
            && m.nextTimer in r.timers && r.timers[m.nextTimer] == Retry(2000 * r.retryCount)
            && resp == Response(false, "retrying", Some(r.retryCount)))
      && (m.retryCount >= c.maxRetry ==>
            && r.pendingScore == m.pendingScore && r.pendingTransactions == m.pendingTransactions
            && r.retryCount == 0 && r.timers == m.timers
            && resp == Response(false, "submission_failed", None))
  {
  }

  /** In wallet-first mode a failing or throwing callback ends the attempt
      without putting the amounts back and without a retry. */
  lemma WalletFailureDrops(c: Config, m: Mgr, score: int, transactions: int, ext: External)
    requires !c.serverRelay && ext != Accepted
    ensures var (r, resp) := FinishS(c, m, score, transactions, ext);
      && r == m.(isSubmitting := false) && !resp.success
  {
  }

  /** Taking the amounts and then failing with a retry left loses nothing:
      the pending amounts are what they were before the attempt. */
  lemma RetryConserves(c: Config, m: Mgr, ext: External)
    requires Inv(c, m) && !m.isSubmitting && c.serverRelay && ext != Accepted
    requires m.retryCount < c.maxRetry
    requires m.pendingScore != 0 || m.pendingTransactions != 0
    ensures var b := BeginS(c, m);
      && b.Started?
      && var (r, _) := FinishS(c, b.m, b.score, b.transactions, ext);
         r.pendingScore == m.pendingScore && r.pendingTransactions == m.pendingTransactions
         && !r.isSubmitting && r.retryCount == m.retryCount + 1
  {
    var b := BeginS(c, m);
    assert b.m.pendingScore == 0 && b.m.retryCount == m.retryCount;
  }

  /** The batch timer firing while an attempt is under way meets the busy
      check: the amounts added since stay pending with no timer armed for
      them, until the next addition or retry. */
  lemma BatchFiringWhileBusyStrands(c: Config, m: Mgr, id: nat)
    requires Inv(c, m) && m.isSubmitting && id in m.timers && m.timers[id].Batch?
    ensures var b := FireS(c, m, id);
      && b.Done? && b.response.message == "already_submitting"
      && b.m.pendingScore == m.pendingScore && b.m.pendingTransactions == m.pendingTransactions
      && forall t :: t in b.m.timers ==> b.m.timers[t].Retry?
  {
    var b := FireS(c, m, id);
    forall t | t in b.m.timers
      ensures b.m.timers[t].Retry?
    {
      assert t in m.timers && t != id;
    }
  }

  /** The operations keep the invariant. */
  lemma BeginKeepsInv(c: Config, m: Mgr)
    requires Inv(c, m)
    ensures Inv(c, BeginS(c, m).m) && Inv(c, DestroyS(m))
  {
    ClearBatchKeepsRetries(c, m);
  }

  lemma FinishKeepsInv(c: Config, m: Mgr, score: int, transactions: int, ext: External)
    requires Inv(c, m)
    ensures Inv(c, FinishS(c, m, score, transactions, ext).0)
  {
    if c.serverRelay && ext != Accepted && m.retryCount < c.maxRetry {
      var r := FailS(c, m, score, transactions).0;
      assert r.timers == m.timers[m.nextTimer := Retry(2000 * (m.retryCount + 1))];
      assert forall id :: id in r.timers && id != m.nextTimer ==> id in m.timers && r.timers[id] == m.timers[id];
    }
  }

  lemma FireKeepsInv(c: Config, m: Mgr, id: nat)
    requires Inv(c, m)
    ensures Inv(c, m.(timers := m.timers - {id})) && Inv(c, FireS(c, m, id).m)
  {
    BeginKeepsInv(c, m.(timers := m.timers - {id}));
  }

  /** `destroy()` zeroes the amounts, clears the flag and the batch timer,
      and leaves retry timers armed. */
  lemma DestroyClears(c: Config, m: Mgr)
    requires Inv(c, m)
    ensures var r := DestroyS(m);
      && r.pendingScore == 0 && r.pendingTransactions == 0 && !r.isSubmitting && r.submitTimeout == None
      && (forall id :: id in r.timers ==> r.timers[id].Retry?)
      && (forall id :: id in m.timers && m.timers[id].Retry? ==> id in r.timers)
  {
    ClearBatchKeepsRetries(c, m);
  }

  // -----------------------------------------------------------------------
  // The manager object

  class ScoreSubmissionManager {
    const config: Config
    var pendingScore: int
    var pendingTransactions: int
    var submitTimeout: Option<nat>
    var isSubmitting: bool
    var retryCount: nat
    /** The armed `setTimeout` callbacks, by id. */
    var timers: map<nat, Timer>
    var nextTimer: nat

    function View(): Mgr
      reads this
    {
      Mgr(pendingScore, pendingTransactions, submitTimeout, isSubmitting, retryCount, timers, nextTimer)
    }

    ghost predicate Valid()
      reads this
    {
      Inv(config, View())
    }

    /** `new ScoreSubmissionManager(options)` (lines 5-18). */
    constructor (serverRelay: bool, hasCallback: bool, batchDelay: Option<nat>, maxRetry: Option<nat>)
      ensures config == MakeConfig(serverRelay, hasCallback, batchDelay, maxRetry)
      ensures View() == INITIAL_MGR && Valid()
    {
      config := MakeConfig(serverRelay, hasCallback, batchDelay, maxRetry);
      pendingScore := 0;
      pendingTransactions := 0;
      submitTimeout := None;
      isSubmitting := false;
      retryCount := 0;
      timers := map[];
      nextTimer := 1;
    }

    method AddScore(points: Option<int>)
      requires Valid()
      modifies this
      ensures View() == AddScoreS(config, old(View()), points) && Valid()
    {
      AddReplacesTimer(config, View(), points, None);
      pendingScore := pendingScore + (if points.Some? then points.value else 0);
      ScheduleSubmission();
    }

    method AddTransaction(count: Option<int>)
      requires Valid()
      modifies this
      ensures View() == AddTransactionS(config, old(View()), count) && Valid()
    {
      AddReplacesTimer(config, View(), None, count);
      pendingTransactions := pendingTransactions + (if count.Some? then count.value else 1);
      ScheduleSubmission();
    }

    method ScheduleSubmission()
      modifies this
      ensures View() == ScheduleS(config, old(View()))
    {
      ClearBatchTimer();
      timers := timers[nextTimer := Batch(config.batchDelay)];
      submitTimeout := Some(nextTimer);
      nextTimer := nextTimer + 1;
    }

    /** `if (this.submitTimeout) clearTimeout(this.submitTimeout)`. */
    method ClearBatchTimer()
      modifies this
      ensures View() == ClearBatch(old(View()))
    {
      if submitTimeout.Some? {
        timers := timers - {submitTimeout.value};
      }
    }

    /** `submitImmediately()` up to its first await. */
    method Begin() returns (b: Begun)
      requires Valid()
      modifies this
      ensures b == BeginS(config, old(View())) && View() == b.m && Valid()
    {
      BeginKeepsInv(config, View());
      if isSubmitting {
        return Done(View(), Response(false, "already_submitting", None));
      }
      ClearBatchTimer();
      submitTimeout := None;
      var score := pendingScore;
      var transactions := pendingTransactions;
      pendingScore := 0;
      pendingTransactions := 0;
      if score == 0 && transactions == 0 {
        return Done(View(), Response(true, "nothing_to_submit", None));
      }
      if !config.serverRelay && !config.hasCallback {
        return Done(View(), Response(false, "no_submission_route_available", None));
      }
      isSubmitting := true;
      b := Started(View(), score, transactions);
    }

    /** `submitImmediately()` from its await on, for the amounts `score` and
        `transactions` its first part took. */
    method Finish(score: int, transactions: int, ext: External) returns (resp: Response)
      requires Valid()
      modifies this
      ensures (View(), resp) == FinishS(config, old(View()), score, transactions, ext) && Valid()
    {
      FinishKeepsInv(config, View(), score, transactions, ext);
      if !config.serverRelay {
        match ext
        case Accepted =>
          retryCount := 0;
          resp := Response(true, "wallet_tx_success", None);
        case Rejected =>
          resp := Response(false, "wallet_tx_failed", None);
        case Threw =>
          resp := Response(false, "wallet_tx_exception", None);
      } else if ext == Accepted {
        retryCount := 0;
        resp := Response(true, "server_relay_success", None);
      } else {
        resp := Fail(score, transactions);
      }
      isSubmitting := false;
    }

    /** The `catch` block. */
    method Fail(score: int, transactions: int) returns (resp: Response)
      modifies this
      ensures (View(), resp) == FailS(config, old(View()), score, transactions)
    {
      if retryCount < config.maxRetry {
        retryCount := retryCount + 1;
        Restore(score, transactions);
        timers := timers[nextTimer := Retry(2000 * retryCount)];
        nextTimer := nextTimer + 1;
        resp := Response(false, "retrying", Some(retryCount));
      } else {
        retryCount := 0;
        resp := Response(false, "submission_failed", None);
      }
    }

    /** `this.pendingScore += score; this.pendingTransactions += transactions`. */
    method Restore(score: int, transactions: int)
      modifies this
      ensures View() == old(View()).(pendingScore := old(pendingScore) + score,
                                     pendingTransactions := old(pendingTransactions) + transactions)
    {
      pendingScore := pendingScore + score;
      pendingTransactions := pendingTransactions + transactions;
    }

    /** Timer `id` fires and runs `submitImmediately()`. */
    method Fire(id: nat) returns (b: Begun)
      requires Valid() && id in timers
      modifies this
      ensures b == FireS(config, old(View()), id) && View() == b.m && Valid()
    {
      FireKeepsInv(config, View(), id);
      timers := timers - {id};
      b := Begin();
    }

    /** `submitGameCompletion(..., finalScore)` (lines 198-217) up to the
        await of its submission: the score and one transaction are added and
        a submission starts. */
    method SubmitGameCompletion(finalScore: int) returns (b: Begun)
      requires Valid()
      modifies this
      ensures b == BeginS(config, AddTransactionS(config, AddScoreS(config, old(View()), Some(finalScore)), Some(1)))
      ensures View() == b.m && Valid()
    {
      AddScore(Some(finalScore));
      AddTransaction(Some(1));
      b := Begin();
    }

    method GetPendingData() returns (p: Pending)
      ensures p == Pending(pendingScore, pendingTransactions, isSubmitting)
    {
      p := Pending(pendingScore, pendingTransactions, isSubmitting);
    }

    method Destroy()
      requires Valid()
      modifies this
      ensures View() == DestroyS(old(View())) && Valid()
    {
      BeginKeepsInv(config, View());
      ClearBatchTimer();
      submitTimeout := None;
      isSubmitting := false;
      pendingScore := 0;
      pendingTransactions := 0;
    }
  }
}
