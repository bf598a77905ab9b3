/**
  The restart policy of the health monitor: how many restarts it has made,
  when it last restarted, and when it decides to give up. Time is a reading
  of a seconds clock; the outcome of each health check, stop and start is a
  parameter.
*/
module HealthMonitor {
  import opened Results

  /** The minimum time between two restarts, in seconds. */
  const RestartCooldownSeconds: nat := 60

  /** The bookkeeping fields of `HealthMonitor`. */
  datatype MonitorState = MonitorState(
    restartAttempts: nat, lastRestartTime: Option<nat>, serverStartTime: Option<nat>)

  /** `Instant::elapsed` between two clock readings; it never goes below zero. */
  function Elapsed(since: nat, now: nat): nat
  {
    if now >= since then now - since else 0
  }

  /**
    `should_restart`: no once the attempts reach the limit, no within 60 s of
    the last restart, and yes otherwise.
  */
  function ShouldRestart(s: MonitorState, maxRestartAttempts: nat, now: nat): (r: bool)
    ensures s.restartAttempts >= maxRestartAttempts ==> !r
    ensures s.lastRestartTime.Some? && Elapsed(s.lastRestartTime.value, now) < RestartCooldownSeconds ==> !r
    ensures (&& s.restartAttempts < maxRestartAttempts
             && (s.lastRestartTime.None? || Elapsed(s.lastRestartTime.value, now) >= RestartCooldownSeconds)) ==> r
  {
    if s.restartAttempts >= maxRestartAttempts then false
    else if s.lastRestartTime.Some? && Elapsed(s.lastRestartTime.value, now) < RestartCooldownSeconds then false
    else true
  }

  /** The state after a successful server start at `now`. */
  function AfterStart(s: MonitorState, now: nat): MonitorState
  {
    s.(serverStartTime := Some(now))
  }

  /**
    `restart_server`: stop, then start; only when both succeed is the attempt
    counted and its time recorded.
  */
  function AfterRestart(s: MonitorState, stopOk: bool, startOk: bool, now: nat): MonitorState
  {
    if stopOk && startOk then
      AfterStart(s, now).(restartAttempts := s.restartAttempts + 1, lastRestartTime := Some(now))
    else s
  }

  /** What one round of the monitor loop observes: the check time and the three outcomes. */
  datatype Round = Round(now: nat, healthy: bool, stopOk: bool, startOk: bool)

  /** How `run` ends: the first start failed, the monitor gave up in a round, or it is still running. */
  datatype RunOutcome = InitialStartFailed | GaveUp(round: nat) | StillMonitoring

  /** The monitor loop from round i on. */
  function MonitorFrom(s: MonitorState, maxRestartAttempts: nat, rounds: seq<Round>, i: nat): (RunOutcome, MonitorState)
    requires i <= |rounds|
    decreases |rounds| - i
  {
    if i == |rounds| then (StillMonitoring, s)
    else
      var rd := rounds[i];
      if rd.healthy then MonitorFrom(s.(restartAttempts := 0), maxRestartAttempts, rounds, i + 1)
      else if ShouldRestart(s, maxRestartAttempts, rd.now) then
        MonitorFrom(AfterRestart(s, rd.stopOk, rd.startOk, rd.now), maxRestartAttempts, rounds, i + 1)
      else (GaveUp(i), s)
  }

  /** `run`: the first start, then the loop. */
  function RunSpec(s: MonitorState, maxRestartAttempts: nat, startOk: bool, startTime: nat, rounds: seq<Round>)
    : (RunOutcome, MonitorState)
  {
    if !startOk then (InitialStartFailed, s) else MonitorFrom(AfterStart(s, startTime), maxRestartAttempts, rounds, 0)
  }

  // ---------------------------------------------------------------------------
  // Properties of the policy

  /** A restart happens only while attempts are below the limit, so the counter never passes it. */
  lemma {:induction false} AttemptsStayBounded(s: MonitorState, max: nat, rounds: seq<Round>, i: nat)
    requires i <= |rounds| && s.restartAttempts <= max
    ensures MonitorFrom(s, max, rounds, i).1.restartAttempts <= max
    decreases |rounds| - i
  {
    if i < |rounds| {
      var rd := rounds[i];
      if rd.healthy {
        AttemptsStayBounded(s.(restartAttempts := 0), max, rounds, i + 1);
      } else if ShouldRestart(s, max, rd.now) {
        AttemptsStayBounded(AfterRestart(s, rd.stopOk, rd.startOk, rd.now), max, rounds, i + 1);
      }
    }
  }

  /**
    If the loop gives up, it does so in a round whose check failed while a
    restart was not allowed in the state it ended with.
  */
  lemma {:induction false} GiveUpOnlyOnFailedCheck(s: MonitorState, max: nat, rounds: seq<Round>, i: nat)
    requires i <= |rounds|
    ensures var (outcome, t) := MonitorFrom(s, max, rounds, i);
      outcome.GaveUp? ==>
        && i <= outcome.round < |rounds|
        && !rounds[outcome.round].healthy
        && !ShouldRestart(t, max, rounds[outcome.round].now)
    ensures MonitorFrom(s, max, rounds, i).0 != InitialStartFailed
    decreases |rounds| - i
  {
    if i < |rounds| {
      var rd := rounds[i];
      if rd.healthy {
        GiveUpOnlyOnFailedCheck(s.(restartAttempts := 0), max, rounds, i + 1);
      } else if ShouldRestart(s, max, rd.now) {
        GiveUpOnlyOnFailedCheck(AfterRestart(s, rd.stopOk, rd.startOk, rd.now), max, rounds, i + 1);
      }
    }
  }

  /** A failed check in a round where no restart is allowed ends the loop there, state untouched. */
  lemma GiveUpWhenRestartRefused(s: MonitorState, max: nat, rounds: seq<Round>, i: nat)
    requires i < |rounds| && !rounds[i].healthy && !ShouldRestart(s, max, rounds[i].now)
    ensures MonitorFrom(s, max, rounds, i) == (GaveUp(i), s)
  {
  }

  /** The state a round that does not end the loop leaves behind. */
  function Advance(s: MonitorState, rd: Round): MonitorState
  {
    if rd.healthy then s.(restartAttempts := 0) else AfterRestart(s, rd.stopOk, rd.startOk, rd.now)
  }

  /** Round `rd`, met in state `s`, ends the loop: its check failed and no restart is allowed. */
  predicate StopsIn(s: MonitorState, max: nat, rd: Round)
  {
    !rd.healthy && !ShouldRestart(s, max, rd.now)
  }

  /** The state the loop, started in round i with state s, is in when it reaches round k. */
  function StateAt(s: MonitorState, rounds: seq<Round>, i: nat, k: nat): MonitorState
    requires i <= k <= |rounds|
    decreases k - i
  {
    if k == i then s else StateAt(Advance(s, rounds[i]), rounds, i + 1, k)
  }

  /**
    The loop gives up in round g exactly when g is the first round, from i on,
    that ends the loop in the state the earlier rounds left behind; it then
    returns that state.
  */
  lemma {:induction false} GiveUpExactly(s: MonitorState, max: nat, rounds: seq<Round>, i: nat, g: nat)
    requires i <= |rounds|
    ensures MonitorFrom(s, max, rounds, i).0 == GaveUp(g) <==>
      && i <= g < |rounds|
      && StopsIn(StateAt(s, rounds, i, g), max, rounds[g])
      && (forall k :: i <= k < g ==> !StopsIn(StateAt(s, rounds, i, k), max, rounds[k]))
    ensures MonitorFrom(s, max, rounds, i).0 == GaveUp(g) ==>
      i <= g < |rounds| && MonitorFrom(s, max, rounds, i).1 == StateAt(s, rounds, i, g)
    decreases |rounds| - i
  {
    if i < |rounds| {
      var rd := rounds[i];
      assert StateAt(s, rounds, i, i) == s;
      if !StopsIn(s, max, rd) {
        var s' := Advance(s, rd);
        assert MonitorFrom(s, max, rounds, i) == MonitorFrom(s', max, rounds, i + 1);
        GiveUpExactly(s', max, rounds, i + 1, g);
        if i < g < |rounds| {
          assert forall k :: i < k <= g ==> StateAt(s, rounds, i, k) == StateAt(s', rounds, i + 1, k);
          assert (forall k :: i <= k < g ==> !StopsIn(StateAt(s, rounds, i, k), max, rounds[k])) <==>
                 (forall k :: i + 1 <= k < g ==> !StopsIn(StateAt(s', rounds, i + 1, k), max, rounds[k]));
        }
      }
    }
  }

  /** While every check passes the monitor keeps running, and a passing check clears the attempts. */
  lemma {:induction false} HealthyKeepsRunning(s: MonitorState, max: nat, rounds: seq<Round>, i: nat)
    requires i < |rounds|
    requires forall j :: i <= j < |rounds| ==> rounds[j].healthy
    ensures MonitorFrom(s, max, rounds, i) == (StillMonitoring, s.(restartAttempts := 0))
    decreases |rounds| - i
  {
    if i + 1 < |rounds| {
      HealthyKeepsRunning(s.(restartAttempts := 0), max, rounds, i + 1);
    }
  }

  /**
    A restart whose stop fails is not counted and records no time, so while
    every check and every stop fails the monitor, once allowed to restart,
    retries for ever with its counter unchanged.
  */
  lemma {:induction false} FailedRestartsRetryForever(s: MonitorState, max: nat, rounds: seq<Round>, i: nat)
    requires i <= |rounds|
    requires s.restartAttempts < max && s.lastRestartTime.None?
    requires forall j :: i <= j < |rounds| ==> !rounds[j].healthy && !rounds[j].stopOk
    ensures MonitorFrom(s, max, rounds, i) == (StillMonitoring, s)
    decreases |rounds| - i
  {
    if i < |rounds| {
      FailedRestartsRetryForever(s, max, rounds, i + 1);
    }
  }

  /** Check times at least a cool-down apart, each failing, with each restart succeeding. */
  ghost predicate FailingSpacedRounds(rounds: seq<Round>)
  {
    && (forall j :: 0 <= j < |rounds| ==> !rounds[j].healthy && rounds[j].stopOk && rounds[j].startOk)
    && (forall j :: 0 < j < |rounds| ==> rounds[j - 1].now + RestartCooldownSeconds <= rounds[j].now)
  }

  /**
    With every check failing and every restart succeeding, spaced beyond the
    cool-down, a monitor that has made `a` restarts restarts `max - a` more
    times and gives up in the round after that.
  */
  lemma {:induction false} GivesUpAfterMaxRestarts(s: MonitorState, max: nat, rounds: seq<Round>, i: nat)
    requires FailingSpacedRounds(rounds)
    requires i <= |rounds| && s.restartAttempts <= max
    requires i + max - s.restartAttempts < |rounds|
    requires s.lastRestartTime.None? || (i > 0 && s.lastRestartTime == Some(rounds[i - 1].now))
    ensures MonitorFrom(s, max, rounds, i).0 == GaveUp(i + max - s.restartAttempts)
    ensures MonitorFrom(s, max, rounds, i).1.restartAttempts == max
    decreases |rounds| - i
  {
    var rd := rounds[i];
    if s.restartAttempts < max {
      assert ShouldRestart(s, max, rd.now);
      GivesUpAfterMaxRestarts(AfterRestart(s, rd.stopOk, rd.startOk, rd.now), max, rounds, i + 1);
    }
  }

  /** A fresh monitor gives up after exactly `max` restarts under continuous failure. */
  lemma FreshMonitorGivesUp(max: nat, startTime: nat, rounds: seq<Round>)
    requires FailingSpacedRounds(rounds) && max < |rounds|
    ensures RunSpec(MonitorState(0, None, None), max, true, startTime, rounds).0 == GaveUp(max)
    ensures RunSpec(MonitorState(0, None, None), max, true, startTime, rounds).1.restartAttempts == max
  {
    GivesUpAfterMaxRestarts(AfterStart(MonitorState(0, None, None), startTime), max, rounds, 0);
  }

  /**
    With the default 30 s check interval and limit of 3, two failed checks
    30 s apart end the loop: the second comes within the 60 s cool-down of
    the first restart, so the monitor gives up after one of its three attempts.
  */
  lemma DefaultIntervalGivesUpEarly(t: nat)
    ensures var rounds := [Round(t + 30, false, true, true), Round(t + 60, false, true, true)];
      && RunSpec(MonitorState(0, None, None), 3, true, t, rounds).0 == GaveUp(1)
      && RunSpec(MonitorState(0, None, None), 3, true, t, rounds).1.restartAttempts == 1
  {
    var rounds := [Round(t + 30, false, true, true), Round(t + 60, false, true, true)];
    var s0 := AfterStart(MonitorState(0, None, None), t);
    assert ShouldRestart(s0, 3, t + 30);
    var s1 := AfterRestart(s0, true, true, t + 30);
    assert s1.restartAttempts == 1 && s1.lastRestartTime == Some(t + 30);
    assert MonitorFrom(s0, 3, rounds, 0) == MonitorFrom(s1, 3, rounds, 1);
    assert !ShouldRestart(s1, 3, t + 60);
    assert MonitorFrom(s1, 3, rounds, 1) == (GaveUp(1), s1);
  }

  /** The cases of `test_should_restart_logic`: fresh, at the limit, and just restarted. */
  lemma ShouldRestartExamples(max: nat, now: nat)
    requires max > 0
    ensures ShouldRestart(MonitorState(0, None, None), max, now)
    ensures !ShouldRestart(MonitorState(max, None, None), max, now)
    ensures !ShouldRestart(MonitorState(0, Some(now), None), max, now)
  {
  }

  // ---------------------------------------------------------------------------
  // The monitor object

  /** `HealthMonitor`: its restart limit and its bookkeeping fields. */
  class HealthMonitor {
    const maxRestartAttempts: nat
    var restartAttempts: nat
    var lastRestartTime: Option<nat>
    var serverStartTime: Option<nat>

    function State(): MonitorState
      reads this
    {
      MonitorState(restartAttempts, lastRestartTime, serverStartTime)
    }

    /** `HealthMonitor::new`: no restarts yet, no restart or start time. */
    constructor (maxRestartAttempts: nat)
      ensures this.maxRestartAttempts == maxRestartAttempts
      ensures State() == MonitorState(0, None, None)
    {
      this.maxRestartAttempts := maxRestartAttempts;
      restartAttempts := 0;
      lastRestartTime := None;
      serverStartTime := None;
    }

    /** `start_server`: on success records the start time; on failure changes nothing. */
    method StartServer(ok: bool, now: nat) returns (r: Result<(), string>)
      modifies this
      ensures ok ==> r.Ok? && State() == AfterStart(old(State()), now)
      ensures !ok ==> r.Err? && State() == old(State())
    {
      if !ok {
        return Err("Server failed to start");
      }
      serverStartTime := Some(now);
      r := Ok(());
    }

    /**
      `restart_server`: stop, then start; the attempt counts, and its time is
      recorded, only when both succeed.
    */
    method RestartServer(stopOk: bool, startOk: bool, now: nat) returns (r: Result<(), string>)
      modifies this
      ensures r.Ok? <==> stopOk && startOk
      ensures State() == AfterRestart(old(State()), stopOk, startOk, now)
      ensures restartAttempts == old(restartAttempts) + (if stopOk && startOk then 1 else 0)
      ensures lastRestartTime == if stopOk && startOk then Some(now) else old(lastRestartTime)
    {
      if !stopOk {
        return Err("Failed to stop server");
      }
      var started := StartServer(startOk, now);
      if started.Err? {
        return Err(started.error);
      }
      restartAttempts := restartAttempts + 1;
      lastRestartTime := Some(now);
      r := Ok(());
    }

    /**
      `run`: start the server, then one check per round; a passing check
      clears the attempts, a failing one restarts if allowed and otherwise
      ends the loop.
    */
    method Run(startOk: bool, startTime: nat, rounds: seq<Round>) returns (outcome: RunOutcome)
      modifies this
      ensures (outcome, State()) == RunSpec(old(State()), maxRestartAttempts, startOk, startTime, rounds)
      ensures old(restartAttempts) <= maxRestartAttempts ==> restartAttempts <= maxRestartAttempts
    {
      ghost var initial := State();
      var started := StartServer(startOk, startTime);
      if started.Err? {
        return InitialStartFailed;
      }
      ghost var afterStart := State();
      var i := 0;
      while i < |rounds|
        invariant 0 <= i <= |rounds|
        invariant MonitorFrom(State(), maxRestartAttempts, rounds, i) == MonitorFrom(afterStart, maxRestartAttempts, rounds, 0)
        decreases |rounds| - i
      {
        var rd := rounds[i];
        if rd.healthy {
          restartAttempts := 0;
        } else if ShouldRestart(State(), maxRestartAttempts, rd.now) {
          var restarted := RestartServer(rd.stopOk, rd.startOk, rd.now);
        } else {
          outcome := GaveUp(i);
          if initial.restartAttempts <= maxRestartAttempts {
            AttemptsStayBounded(afterStart, maxRestartAttempts, rounds, 0);
          }
          return;
        }
        i := i + 1;
      }
      outcome := StillMonitoring;
      if initial.restartAttempts <= maxRestartAttempts {
        AttemptsStayBounded(afterStart, maxRestartAttempts, rounds, 0);
      }
    }
  }
}
