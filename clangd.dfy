/**
 * The clangd supervisor of `clangd_manager.py`: at most one clangd process,
 * started under a lock, stopped with terminate-then-kill, and restarted a
 * bounded number of times. Spawning, signals and the 5-second grace period
 * are the environment's: the pid a spawn yields (None when the exec fails)
 * and whether the process exits within the grace period are parameters.
 */
module Clangd {
  import opened Wrappers

  /** `self.max_restarts`. */
  const MaxRestarts: nat := 3

  /** A spawned clangd: its pid, its exit status (None while it runs), and the restarts that led to it. */
  datatype ClangdProcess = ClangdProcess(pid: nat, returncode: Option<int>, restartCount: int)
  {
    /** `is_alive`: the process has not exited. */
    predicate IsAlive()
    {
      returncode.None?
    }
  }

  /** How a call to the manager ends: it returns, raises `RuntimeError`, or waits forever on the lock. */
  datatype Outcome = Returned(process: Option<ClangdProcess>) | Raised(message: string) | Blocked

  /** The signals `_stop_internal` sends. */
  datatype Signal = Terminate | Kill

  /** What `health_check` reports; the uptime, a clock reading, is left out. */
  datatype Health = Health(status: string, pid: Option<nat>, restartCount: int, maxRestarts: Option<nat>)

  /** One poll of `_health_monitor`: how the process fared since the last poll, and what a restart would meet. */
  datatype Poll = Poll(exit: Option<int>, spawn: Option<nat>, exitsWithinGrace: bool)

  /** What one poll of the health monitor did. */
  datatype Action = Waited | Restarted | RestartFailed

  /** One poll of the health monitor: whether it found the process dead, and what it did. */
  datatype Tick = Tick(dead: bool, action: Action)

  /**
   * One poll took the process from `before` to `after` and logged `t`: the poll
   * finds the process dead exactly when, with the exit it observed, there is a
   * process and it has exited; a poll that finds no dead process waits and
   * leaves the process as it found it; a dead one is restarted, which succeeds
   * exactly when the restart budget allows it and the spawn yields a pid, and
   * then runs that pid with the next restart count; a failed restart leaves the
   * dead process when the budget is spent, and no process when the spawn failed.
   */
  predicate Stepped(before: Option<ClangdProcess>, poll: Poll, t: Tick, after: Option<ClangdProcess>)
  {
    var p := AfterPoll(before, poll);
    && (t.dead <==> p.Some? && !p.value.IsAlive())
    && (!t.dead ==> t.action == Waited && after == p)
    && (t.dead ==> t.action != Waited)
    && (t.dead ==> (t.action == Restarted <==> NextRestartCount(p).Ok? && poll.spawn.Some?))
    && (t.action == Restarted ==> after == Some(ClangdProcess(poll.spawn.value, None, NextRestartCount(p).value)))
    && (t.action == RestartFailed ==> after == if NextRestartCount(p).Err? then p else None)
  }

  /** `log` is what the polls `polls` logged, one by one, while the process went through `states`. */
  ghost predicate Traced(states: seq<Option<ClangdProcess>>, polls: seq<Poll>, log: seq<Tick>)
  {
    && |states| == |log| + 1 && |log| <= |polls|
    && forall k :: 0 <= k < |log| ==> Stepped(states[k], polls[k], log[k], states[k + 1])
  }

  /** One more poll extends the trace. */
  lemma TracedAppend(states: seq<Option<ClangdProcess>>, polls: seq<Poll>, log: seq<Tick>, t: Tick, after: Option<ClangdProcess>)
    requires Traced(states, polls, log) && |log| < |polls|
    requires Stepped(states[|log|], polls[|log|], t, after)
    ensures Traced(states + [after], polls, log + [t])
  {
    var states', log' := states + [after], log + [t];
    forall k | 0 <= k < |log'| ensures Stepped(states'[k], polls[k], log'[k], states'[k + 1]) {
      if k < |log| {
        assert states'[k] == states[k] && states'[k + 1] == states[k + 1] && log'[k] == log[k];
      }
    }
  }

  /** In a traced log, a poll acts exactly when it found the process dead. */
  lemma TracedActsWhenDead(states: seq<Option<ClangdProcess>>, polls: seq<Poll>, log: seq<Tick>)
    requires Traced(states, polls, log)
    ensures forall k :: 0 <= k < |log| ==> (log[k].action != Waited <==> log[k].dead)
  {
    forall k | 0 <= k < |log| ensures log[k].action != Waited <==> log[k].dead {
      assert Stepped(states[k], polls[k], log[k], states[k + 1]);
    }
  }

  /** After `restarts` successful restarts from `first`, the process's restart count is the first one's plus `restarts`, and within the budget once it restarted. */
  ghost predicate WithinBudget(first: Option<ClangdProcess>, process: Option<ClangdProcess>, restarts: nat)
  {
    && restarts <= MaxRestarts
    && (first.Some? ==> first.value.restartCount >= 0)
    && (process.None? ==> restarts == 0)
    && (process.Some? ==> first.Some? && 0 <= process.value.restartCount == first.value.restartCount + restarts)
    && (process.Some? && restarts > 0 ==> process.value.restartCount <= MaxRestarts)
  }

  /** A poll that does not end the monitor keeps the budget, counting a restart when it made one. */
  lemma BudgetStep(first: Option<ClangdProcess>, before: Option<ClangdProcess>, poll: Poll, t: Tick, after: Option<ClangdProcess>, restarts: nat)
    requires WithinBudget(first, before, restarts)
    requires Stepped(before, poll, t, after) && t.action != RestartFailed
    ensures WithinBudget(first, after, if t.action == Restarted then restarts + 1 else restarts)
  {
    var p := AfterPoll(before, poll);
    if t.action == Restarted {
      assert p.Some? && NextRestartCount(p).Ok?;
    }
  }

  /**
   * The health monitor so far: from `first`, the polls logged `log` while the
   * process went through `states`, counting `restarts` within the budget, and
   * no poll yet ended it with a failed restart.
   */
  ghost predicate MonitoredSoFar(first: Option<ClangdProcess>, polls: seq<Poll>, log: seq<Tick>,
                                 states: seq<Option<ClangdProcess>>, restarts: nat)
  {
    && Traced(states, polls, log) && states[0] == first
    && WithinBudget(first, states[|log|], restarts) && restarts == Restarts(log)
    && forall k :: 0 <= k < |log| ==> log[k].action != RestartFailed
  }

  /** One more poll that did not fail a restart keeps the monitor's record. */
  lemma MonitorStep(first: Option<ClangdProcess>, polls: seq<Poll>, log: seq<Tick>,
                    states: seq<Option<ClangdProcess>>, restarts: nat, t: Tick, after: Option<ClangdProcess>)
    requires MonitoredSoFar(first, polls, log, states, restarts) && |log| < |polls|
    requires Stepped(states[|log|], polls[|log|], t, after) && t.action != RestartFailed
    ensures MonitoredSoFar(first, polls, log + [t], states + [after], if t.action == Restarted then restarts + 1 else restarts)
  {
    TracedAppend(states, polls, log, t, after);
    RestartsAppend(log, t);
    BudgetStep(first, states[|log|], polls[|log|], t, after, restarts);
    assert (states + [after])[|log| + 1] == after;
  }

  /** A poll that failed its restart ends the monitor with a record whose last entry, and only that one, is the failure. */
  lemma MonitorFails(first: Option<ClangdProcess>, polls: seq<Poll>, log: seq<Tick>,
                     states: seq<Option<ClangdProcess>>, restarts: nat, t: Tick, after: Option<ClangdProcess>)
    requires MonitoredSoFar(first, polls, log, states, restarts) && |log| < |polls|
    requires Stepped(states[|log|], polls[|log|], t, after) && t.action == RestartFailed
    ensures Traced(states + [after], polls, log + [t]) && (states + [after])[0] == first
    ensures restarts == Restarts(log + [t])
    ensures forall k :: 0 <= k < |log + [t]| && (log + [t])[k].action == RestartFailed ==> k == |log|
  {
    TracedAppend(states, polls, log, t, after);
    RestartsAppend(log, t);
  }

  /** What the monitor's record says about the polls and the restarts, however it ended. */
  lemma MonitorDone(first: Option<ClangdProcess>, polls: seq<Poll>, log: seq<Tick>,
                    states: seq<Option<ClangdProcess>>, restarts: nat, budgetAt: nat)
    requires Traced(states, polls, log) && budgetAt < |states| && WithinBudget(first, states[budgetAt], restarts)
    ensures restarts <= MaxRestarts
    ensures restarts > 0 ==> first.Some? && first.value.restartCount + restarts <= MaxRestarts
    ensures forall k :: 0 <= k < |log| ==> (log[k].action != Waited <==> log[k].dead)
  {
    TracedActsWhenDead(states, polls, log);
  }

  /** The process as a poll finds it: a live process whose exit the poll observed now carries that exit status. */
  function AfterPoll(process: Option<ClangdProcess>, poll: Poll): (p: Option<ClangdProcess>)
    ensures p.Some? <==> process.Some?
    ensures p.Some? ==> p.value.pid == process.value.pid && p.value.restartCount == process.value.restartCount
    ensures p.Some? ==> (p.value.IsAlive() <==> process.value.IsAlive() && poll.exit.None?)
  {
    if process.Some? && process.value.IsAlive() && poll.exit.Some? then Some(process.value.(returncode := poll.exit))
    else process
  }

  /** The number of successful restarts in a monitor log. */
  function Restarts(log: seq<Tick>): (r: nat)
    ensures r <= |log|
  {
    if log == [] then 0
    else Restarts(log[..|log| - 1]) + if log[|log| - 1].action == Restarted then 1 else 0
  }

  /** One more poll adds one restart exactly when it restarted. */
  lemma RestartsAppend(log: seq<Tick>, t: Tick)
    ensures Restarts(log + [t]) == Restarts(log) + if t.action == Restarted then 1 else 0
  {
    assert (log + [t])[..|log|] == log;
  }

  /**
   * The restart count `restart` gives the next process, or the refusal once
   * the current one has used up its restarts.
   */
  function NextRestartCount(process: Option<ClangdProcess>): (r: Result<int, string>)
    ensures r.Err? <==> process.Some? && process.value.restartCount >= MaxRestarts
    ensures r.Ok? && process.Some? ==> r.value == process.value.restartCount + 1 && r.value <= MaxRestarts
    ensures r.Ok? && process.None? ==> r.value == 0
  {
    if process.Some? && process.value.restartCount >= MaxRestarts then
      Err("clangd keeps crashing - max restart attempts exceeded")
    else if process.Some? then Ok(process.value.restartCount + 1)
    else Ok(0)
  }

  /** The process after `k` further restarts, each of a process that died, if none was refused. */
  function AfterRestarts(count: int, k: nat): Option<int>
  {
    if k == 0 then Some(count)
    else
      match AfterRestarts(count, k - 1)
      case None => None
      case Some(c) =>
        match NextRestartCount(Some(ClangdProcess(0, Some(1), c)))
        case Err(_) => None
        case Ok(n) => Some(n)
  }

  /** A first process (restart count 0) can be restarted exactly three times in a row; the fourth restart raises. */
  lemma {:induction false} ChainedRestarts(k: nat)
    ensures AfterRestarts(0, k).Some? <==> k <= MaxRestarts
    ensures k <= MaxRestarts ==> AfterRestarts(0, k) == Some(k)
  {
    if k > 0 {
      ChainedRestarts(k - 1);
      if k - 1 <= MaxRestarts {
        assert AfterRestarts(0, k - 1) == Some(k - 1);
      } else {
        assert AfterRestarts(0, k - 1) == None;
      }
    }
  }

  /** Once a restart has been refused, every later one is too. */
  lemma {:induction false} RefusalIsFinal(count: int, k: nat, m: nat)
    requires AfterRestarts(count, k).None? && k <= m
    ensures AfterRestarts(count, m).None?
    decreases m
  {
    if m > k {
      RefusalIsFinal(count, k, m - 1);
    }
  }

  class ClangdManager {
    var process: Option<ClangdProcess>
    /** `self.lock`, an `asyncio.Lock`, which its holder cannot take again. */
    var locked: bool
    /** Whether the stderr reader and the health monitor tasks exist. */
    var stderrTask: bool
    var healthTask: bool
    /** `self._shutdown_event`. */
    var shutdown: bool

    constructor ()
      ensures process == None && !locked && !stderrTask && !healthTask && !shutdown
    {
      process := None;
      locked := false;
      stderrTask := false;
      healthTask := false;
      shutdown := false;
    }

    /** `health_check`: stopped without a process, otherwise running or dead with the current restart count. */
    function HealthCheck(): (h: Health)
      reads this
      ensures h.status == "stopped" <==> process.None?
      ensures h.status == "running" <==> process.Some? && process.value.IsAlive()
      ensures h.status == "dead" <==> process.Some? && !process.value.IsAlive()
      ensures process.None? ==> h.pid.None? && h.restartCount == 0 && h.maxRestarts.None?
      ensures process.Some? ==> (h.pid == Some(process.value.pid)
        && h.restartCount == process.value.restartCount && h.maxRestarts == Some(MaxRestarts))
    {
      match process
      case None => Health("stopped", None, 0, None)
      case Some(p) =>
        Health(if p.IsAlive() then "running" else "dead", Some(p.pid), p.restartCount, Some(MaxRestarts))
    }

    /** `start`: take the lock and run its body; a held lock is waited for, which for the only holder means forever. */
    method Start(spawn: Option<nat>) returns (r: Outcome)
      modifies this
      ensures old(locked) ==> (r == Blocked && process == old(process) && locked
        && stderrTask == old(stderrTask) && healthTask == old(healthTask))
      ensures !old(locked) ==> !locked && r != Blocked
      ensures shutdown == old(shutdown)
      ensures !old(locked) && old(process).Some? && old(process).value.IsAlive()
        ==> r == Returned(old(process)) && process == old(process)
      ensures !old(locked) && !(old(process).Some? && old(process).value.IsAlive()) ==>
        if spawn.Some? then process == Some(ClangdProcess(spawn.value, None, 0)) && r == Returned(process)
        else r.Raised? && process == old(process)
    {
      if locked {
        return Blocked;
      }
      locked := true;
      r := StartHoldingLock(spawn);
      locked := false;
    }

    /**
     * The body of `start`, under the lock: an alive process is returned as
     * it is; otherwise a new one is spawned with restart count 0 and the
     * monitoring tasks are started, or the spawn failure is raised.
     */
    method StartHoldingLock(spawn: Option<nat>) returns (r: Outcome)
      modifies this
      ensures locked == old(locked) && shutdown == old(shutdown) && r != Blocked
      ensures old(process).Some? && old(process).value.IsAlive() ==>
        r == Returned(old(process)) && process == old(process)
        && stderrTask == old(stderrTask) && healthTask == old(healthTask)
      ensures !(old(process).Some? && old(process).value.IsAlive()) && spawn.Some? ==>
        process == Some(ClangdProcess(spawn.value, None, 0)) && r == Returned(process) && stderrTask && healthTask
      ensures !(old(process).Some? && old(process).value.IsAlive()) && spawn.None? ==>
        r == Raised("Failed to start clangd") && process == old(process)
        && stderrTask == old(stderrTask) && healthTask == old(healthTask)
    {
      if process.Some? && process.value.IsAlive() {
        return Returned(process);
      }
      if spawn.None? {
        return Raised("Failed to start clangd");
      }
      process := Some(ClangdProcess(spawn.value, None, 0));
      stderrTask := true;
      healthTask := true;
      r := Returned(process);
    }

    /**
     * `_stop_internal`: nothing without a process; otherwise the monitoring
     * tasks are cancelled, a live process is sent terminate and, if it has
     * not exited within the grace period, kill, and the process is dropped.
     */
    method StopInternal(exitsWithinGrace: bool) returns (signals: seq<Signal>)
      modifies this
      ensures old(process).None? ==> (signals == [] && process == None
        && stderrTask == old(stderrTask) && healthTask == old(healthTask))
      ensures old(process).Some? ==> process == None && !stderrTask && !healthTask
      ensures old(process).Some? && old(process).value.IsAlive() ==>
        signals == if exitsWithinGrace then [Terminate] else [Terminate, Kill]
      ensures old(process).Some? && !old(process).value.IsAlive() ==> signals == []
      ensures locked == old(locked) && shutdown == old(shutdown)
    {
      signals := [];
      if process.None? {
        return;
      }
      stderrTask := false;
      healthTask := false;
      if process.value.IsAlive() {
        signals := [Terminate];
        if !exitsWithinGrace {
          signals := signals + [Kill];
        }
      }
      process := None;
    }

    /** `stop`: signal shutdown, then stop under the lock. */
    method Stop(exitsWithinGrace: bool) returns (r: Outcome, signals: seq<Signal>)
      modifies this
      ensures shutdown
      ensures old(locked) ==> r == Blocked && signals == [] && process == old(process)
      ensures !old(locked) ==> r == Returned(None) && process == None && !locked
    {
      shutdown := true;
      signals := [];
      if locked {
        return Blocked, [];
      }
      locked := true;
      signals := StopInternal(exitsWithinGrace);
      locked := false;
      r := Returned(None);
    }

    /**
     * `restart` as written: it holds the lock while it awaits `start`, which
     * takes the same non-reentrant lock. Past the restart-limit check the
     * call never returns: the old process is gone, no new one is spawned and
     * the lock stays held.
     */
    method RestartAsWritten(spawn: Option<nat>, exitsWithinGrace: bool) returns (r: Outcome)
      modifies this
      ensures old(locked) ==> r == Blocked
      ensures !old(locked) && NextRestartCount(old(process)).Err? ==> r.Raised? && !locked && process == old(process)
      ensures !old(locked) && NextRestartCount(old(process)).Ok? ==> r == Blocked && locked && process == None
    {
      if locked {
        return Blocked;
      }
      locked := true;
      var next := NextRestartCount(process);
      if next.Err? {
        locked := false;
        return Raised(next.error);
      }
      if process.Some? {
        var _ := StopInternal(exitsWithinGrace);
      }
      // The lock is held here, so `start` waits on it for ever; the count
      // update and the lock release that follow it in the source never run.
      r := Start(spawn);
    }

    /**
     * `restart` with the evidently intended locking: the spawn runs as the
     * body of `start` under the lock `restart` already holds. The new
     * process carries the old count plus one (0 when there was none).
     */
    method Restart(spawn: Option<nat>, exitsWithinGrace: bool) returns (r: Outcome)
      modifies this
      ensures old(locked) ==> r == Blocked
      ensures !old(locked) ==> !locked && r != Blocked
      ensures !old(locked) && NextRestartCount(old(process)).Err? ==> r.Raised? && process == old(process)
      ensures !old(locked) && NextRestartCount(old(process)).Ok? ==>
        if spawn.Some? then
          process == Some(ClangdProcess(spawn.value, None, NextRestartCount(old(process)).value)) && r == Returned(process)
        else r.Raised? && process == None
      ensures shutdown == old(shutdown)
    {
      if locked {
        return Blocked;
      }
      locked := true;
      var next := NextRestartCount(process);
      if next.Err? {
        locked := false;
        return Raised(next.error);
      }
      if process.Some? {
        var _ := StopInternal(exitsWithinGrace);
      }
      r := StartHoldingLock(spawn);
      if process.Some? {
        process := Some(process.value.(restartCount := next.value));
        r := Returned(process);
      }
      locked := false;
    }

    /**
     * `_health_monitor`, one iteration per poll until shutdown: a process
     * that died is restarted (with the intended locking of `Restart`); once a
     * restart raises, monitoring stops. `log` records, poll by poll, whether
     * the process was found dead and what was done. It restarts at most
     * `MaxRestarts` times.
     */
    method HealthMonitor(polls: seq<Poll>) returns (restarts: nat, log: seq<Tick>, ghost states: seq<Option<ClangdProcess>>)
      requires !locked
      requires process.Some? ==> process.value.restartCount >= 0
      modifies this
      ensures restarts <= MaxRestarts
      ensures restarts > 0 ==> old(process).Some? && old(process).value.restartCount + restarts <= MaxRestarts
      ensures !locked && shutdown == old(shutdown)
      ensures restarts == Restarts(log)
      ensures |log| <= |polls| && (old(shutdown) ==> log == [])
      ensures forall k :: 0 <= k < |log| ==> (log[k].action != Waited <==> log[k].dead)
      ensures forall k :: 0 <= k < |log| && log[k].action == RestartFailed ==> k == |log| - 1
      ensures !old(shutdown) && |log| < |polls| ==> log != [] && log[|log| - 1].action == RestartFailed
      ensures Traced(states, polls, log) && states[0] == old(process) && states[|log|] == process
    {
      ghost var first := process;
      restarts, log, states := 0, [], [process];
      var i := 0;
      while i < |polls| && !shutdown
        invariant 0 <= i <= |polls| && !locked && shutdown == old(shutdown)
        invariant old(shutdown) ==> i == 0
        invariant MonitoredSoFar(first, polls, log, states, restarts)
        invariant |log| == i && |states| == i + 1 && states[i] == process
      {
        var t;
        t, restarts, log, states := MonitorPoll(first, polls, log, states, restarts);
        if t.action == RestartFailed {
          return;
        }
        i := i + 1;
      }
      MonitorDone(first, polls, log, states, restarts, i);
    }

    /**
     * One iteration of the monitor's loop: one poll, recorded. A poll that did
     * not fail a restart keeps the record going; a failed one closes it.
     */
    method MonitorPoll(ghost first: Option<ClangdProcess>, polls: seq<Poll>, log: seq<Tick>,
                       ghost states: seq<Option<ClangdProcess>>, restarts: nat)
      returns (t: Tick, restarts': nat, log': seq<Tick>, ghost states': seq<Option<ClangdProcess>>)
      requires !locked && MonitoredSoFar(first, polls, log, states, restarts)
      requires |log| < |polls| && states[|log|] == process
      modifies this
      ensures !locked && shutdown == old(shutdown)
      ensures log' == log + [t] && states' == states + [process]
      ensures t.action != RestartFailed ==> MonitoredSoFar(first, polls, log', states', restarts')
      ensures t.action == RestartFailed ==> (
        && restarts' == restarts == Restarts(log') && Traced(states', polls, log') && states'[0] == first
        && restarts <= MaxRestarts
        && (restarts > 0 ==> first.Some? && first.value.restartCount + restarts <= MaxRestarts)
        && (forall k :: 0 <= k < |log'| ==> (log'[k].action != Waited <==> log'[k].dead))
        && (forall k :: 0 <= k < |log'| && log'[k].action == RestartFailed ==> k == |log|))
    {
      t := Watch(polls[|log|]);
      restarts' := restarts;
      if t.action == RestartFailed {
        MonitorFails(first, polls, log, states, restarts, t, process);
        MonitorDone(first, polls, log + [t], states + [process], restarts, |log|);
      } else {
        MonitorStep(first, polls, log, states, restarts, t, process);
        if t.action == Restarted {
          restarts' := restarts + 1;
        }
      }
      log', states' := log + [t], states + [process];
    }

    /** One poll of `_health_monitor`: a live process or none is left alone; a dead one is restarted. */
    method Watch(poll: Poll) returns (t: Tick)
      requires !locked
      requires process.Some? ==> process.value.restartCount >= 0
      modifies this
      ensures !locked && shutdown == old(shutdown)
      ensures t.action != Waited <==> t.dead
      ensures process.Some? ==> process.value.restartCount >= 0
      ensures t.action == Waited ==> ((process.Some? <==> old(process).Some?)
        && (process.Some? ==> process.value.restartCount == old(process).value.restartCount))
      ensures t.action == Restarted ==> (old(process).Some? && process.Some?
        && process.value.restartCount == old(process).value.restartCount + 1 <= MaxRestarts)
      ensures Stepped(old(process), poll, t, process)
    {
      process := AfterPoll(process, poll);
      if process.None? || process.value.IsAlive() {
        return Tick(false, Waited);
      }
      var r := Restart(poll.spawn, poll.exitsWithinGrace);
      if r.Raised? {
        return Tick(true, RestartFailed);
      }
      return Tick(true, Restarted);
    }
  }

  /** A fresh manager, started, then restarted as written: the restart never returns and the lock stays held. */
  method RestartDeadlockExample() returns (r: Outcome, stillLocked: bool, stopped: bool)
    ensures r == Blocked && stillLocked && stopped
  {
    var m := new ClangdManager();
    var s := m.Start(Some(100));
    r := m.RestartAsWritten(Some(101), true);
    stillLocked := m.locked;
    stopped := m.process.None?;
  }

  /** The same sequence with the corrected restart: the new process runs with restart count 1 and the lock is free. */
  method RestartExample() returns (r: Outcome, locked: bool)
    ensures r == Returned(Some(ClangdProcess(101, None, 1))) && !locked
  {
    var m := new ClangdManager();
    var s := m.Start(Some(100));
    r := m.Restart(Some(101), true);
    locked := m.locked;
  }
}
