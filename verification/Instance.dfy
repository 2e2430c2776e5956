// The instance object: each method body is one lock section. A ghost log of the exits counted since
// the window was last cleared says what the restart window must hold.
module Instance {
  import opened Basics
  import opened RestartPolicy
  import opened Lifecycle
  import opened LifecycleProofs

  class ConnectorInstance {
    const policy: Policy
    var state: State
    var process: Option<Pid>
    var restartTimestamps: seq<Time>
    var lastRestartAt: Option<Time>
    var shutdownRequested: bool
    var pendingRestartTask: Option<Tid>
    var watcherTask: Option<Pid>
    ghost var trace: seq<State>
    ghost var log: seq<Crash>
    ghost var clock: Time

    ghost function View(): Inst
      reads this
    {
      Inst(state, process, restartTimestamps, lastRestartAt, shutdownRequested, pendingRestartTask, watcherTask, trace)
    }

    ghost function Past(): World
      reads this
    {
      World(View(), map[], map[], clock, log)
    }

    // Trimmed at any later time the window is the filter of the whole log, the last counted exit is on
    // record, and no stretch as long as the window was granted more restarts than the policy allows.
    ghost predicate Valid()
      reads this
    {
      Windowed(policy, Past())
    }

    constructor (policy: Policy, ghost clock: Time)
      ensures this.policy == policy && View() == Fresh(clock).inst
      ensures Valid() && log == [] && this.clock == clock
    {
      this.policy := policy;
      state, process, restartTimestamps, lastRestartAt := NotStarted, None, [], None;
      shutdownRequested, pendingRestartTask, watcherTask, trace := false, None, None, [NotStarted];
      log, this.clock := [], clock;
      new;
      FreshIsWindowed(policy, clock);
    }

    method SetState(st: State)
      modifies this`state, this`trace
      ensures View() == Assign(old(View()), st)
    {
      state := st;
      trace := trace + [st];
    }

    // False stands for InvalidStateTransitionError, which leaves everything as it was.
    method TransitionLocked(event: Event) returns (ok: bool)
      modifies this`state, this`trace
      ensures ok == Transition(old(View()), event).Some?
      ensures View() == if ok then Transition(old(View()), event).value else old(View())
    {
      var next := ApplyTransition(state, event);
      ok := next.Some?;
      if ok {
        SetState(next.value);
      }
    }

    method TrimRestartTimestamps(now: Time)
      modifies this`restartTimestamps
      ensures View() == TrimSection(policy, old(View()), now)
    {
      restartTimestamps := Since(restartTimestamps, now - policy.window);
    }

    // Reports how many of all the exits counted since the last clear lie in the window.
    method RestartAttemptsInWindow(now: Time) returns (n: nat)
      requires Valid() && now >= clock
      modifies this`restartTimestamps, this`clock
      ensures Valid() && clock == now && n == |Since(Ats(log), now - policy.window)|
      ensures View() == old(View()).(stamps := Since(Ats(log), now - policy.window))
    {
      TrimKeepsWindow(policy, Past(), now);
      TrimRestartTimestamps(now);
      n := |restartTimestamps|;
      clock := now;
    }

    method Start() returns (ok: bool)
      requires Valid()
      modifies this`state, this`trace, this`shutdownRequested
      ensures Valid()
      ensures ok <==> old(state) == NotStarted || old(state) == Dead
      ensures ok ==> View() == Assign(old(View()), Starting).(shutdownRequested := false)
      ensures !ok ==> View() == old(View())
    {
      if state != NotStarted && state != Dead {
        return false;
      }
      ok := TransitionLocked(StartInvoked);
      shutdownRequested := false;
    }

    // The first section of a fetch cycle.
    method RunFetchPlan() returns (plan: FetchPlan)
      ensures plan == PlanFetch(state)
      ensures plan == StartNow <==> state == NotStarted || state == Dead
      ensures plan == LeaveAlone <==> state == Fallen || state == CircuitBroken
    {
      if state == CircuitBroken {
        return LeaveAlone;
      }
      var needsShutdown := state == Ready || state == Running || state == Starting || state == Draining;
      var shouldStart := state == NotStarted || state == Dead;
      plan := if needsShutdown then ShutdownFirst else if shouldStart then StartNow else LeaveAlone;
    }

    // The section after `proc.start()` returned, then the watcher is created.
    method Spawned(up: bool, pid: Pid) returns (ok: bool)
      requires Valid()
      modifies this`state, this`trace, this`pendingRestartTask, this`watcherTask
      ensures Valid()
      ensures ok <==> old(state) == Starting
      ensures ok ==>
        View() == Assign(old(View()), if up then Ready else Fallen).(pendingRestart := None, watcher := Some(pid))
      ensures !ok ==> View() == old(View())
    {
      if up {
        ok := TransitionLocked(HelloSucceeded);
      } else {
        ok := TransitionLocked(StartFailure);
      }
      if ok {
        pendingRestartTask := None;
        watcherTask := Some(pid);
      }
    }

    method EmitSeen()
      requires Valid()
      modifies this`state, this`trace
      ensures Valid()
      ensures View() == if old(state) == Ready then Assign(old(View()), Running) else old(View())
    {
      if state == Ready {
        var _ := TransitionLocked(FirstOperationalMessage);
      }
    }

    // First part of the exit section: the state change, and whether a graceful exit ends the matter.
    method NoteExit(reason: ExitReason) returns (quiet: bool)
      modifies this`state, this`trace
      ensures View() == Noted(old(View()), reason) && quiet == ExitsQuietly(old(state), reason)
    {
      var graceful := reason == GracefulShutdown;
      quiet := false;
      if state == Draining {
        quiet := graceful;
        var _ := TransitionLocked(if graceful then GracefulProcessExit else CrashWhileDraining);
      } else if state == Ready || state == Running {
        quiet := graceful;
        var _ := TransitionLocked(if graceful then GracefulExitWithoutDrain else CrashWhileActive);
      } else if state == Starting {
        var _ := TransitionLocked(StartFailure);
      }
    }

    // Second part: the exit enters the rolling window.
    method CountExit(now: Time)
      modifies this`restartTimestamps, this`lastRestartAt
      ensures View() == Counted(policy, old(View()), now)
    {
      TrimRestartTimestamps(now);
      restartTimestamps := restartTimestamps + [now];
      lastRestartAt := Some(now);
      TrimRestartTimestamps(now);
    }

    // Third part: the decision is carried out.
    method CarryOut(verdict: Decision)
      modifies this`state, this`trace, this`restartTimestamps, this`process
      ensures View() == Decided(old(View()), verdict)
    {
      match verdict {
        case Stop =>
          var _ := TransitionLocked(PolicyStopToDead);
          if state != Dead {
            SetState(Dead);
          }
          restartTimestamps := [];
        case CircuitBreak =>
          var _ := TransitionLocked(CircuitBreakRecorded);
          if state != CircuitBroken {
            SetState(CircuitBroken);
          }
        case Restart(_) =>
      }
      process := None;
    }

    // The decision, None when a graceful exit ends the matter, follows from the log alone; the log then
    // holds this exit too, unless the decision is to stop, which clears it.
    method HandleProcessExit(reason: ExitReason, now: Time) returns (decision: Option<Decision>)
      requires Valid() && now >= clock
      modifies this
      ensures Valid() && clock == now && View() == ExitSection(policy, old(View()), reason, now)
      ensures decision.None? <==>
        reason == GracefulShutdown && (old(state) == Draining || old(state) == Ready || old(state) == Running)
      ensures decision.Some? ==> FollowsFromLog(policy, old(log), reason, now, decision.value)
      ensures log == match decision
                     case None => old(log)
                     case Some(v) => if v == Stop then [] else old(log) + [Crash(now, v.Restart?)]
      ensures process == None
      ensures state == match decision
                       case None => Dead
                       case Some(Stop) => Dead
                       case Some(CircuitBreak) => CircuitBroken
                       case Some(Restart(_)) => if Live(old(state)) then Fallen else old(state)
      ensures lastRestartAt == if decision.None? then old(lastRestartAt) else Some(now)
      ensures SameFlags(old(View()), View())
    {
      ExitKeepsRecord(policy, Past(), reason, now);
      ghost var was := Past();
      decision := ExitLocked(reason, now);
      clock := now;
      log := if decision.None? then log else LogAfter(log, now, decision.value);
      assert Past() == AfterExit(policy, was, reason, now);
    }

    method ExitLocked(reason: ExitReason, now: Time) returns (decision: Option<Decision>)
      modifies this`state, this`trace, this`restartTimestamps, this`lastRestartAt, this`process
      ensures View() == ExitSection(policy, old(View()), reason, now)
      ensures decision == ExitDecision(policy, old(View()), reason, now)
      ensures decision.None? <==>
        reason == GracefulShutdown && (old(state) == Draining || old(state) == Ready || old(state) == Running)
      ensures process == None
      ensures state == match decision
                       case None => Dead
                       case Some(Stop) => Dead
                       case Some(CircuitBreak) => CircuitBroken
                       case Some(Restart(_)) => if Live(old(state)) then Fallen else old(state)
      ensures lastRestartAt == if decision.None? then old(lastRestartAt) else Some(now)
      ensures SameFlags(old(View()), View())
    {
      ExitState(policy, View(), reason, now);
      ExitFlags(policy, View(), reason, now);
      var quiet := NoteExit(reason);
      if quiet {
        process := None;
        return None;
      }
      CountExit(now);
      var verdict := ShouldRestart(policy, reason, restartTimestamps, now);
      CarryOut(verdict);
      decision := Some(verdict);
    }

    // The section run when the backoff sleep is over; true means the process is to be spawned.
    method BackoffElapsed() returns (go: bool)
      requires Valid()
      modifies this`state, this`trace
      ensures Valid()
      ensures go <==> !shutdownRequested && old(state) == Fallen
      ensures View() == if go then Assign(old(View()), Starting) else old(View())
    {
      if shutdownRequested {
        return false;
      }
      if state == Dead || state == Draining || state == CircuitBroken {
        return false;
      }
      go := TransitionLocked(RestartBackoffElapsed);
    }

    // A crashed or broken instance is dead at once, a live one drains, and none is STARTING anew.
    method RequestShutdown()
      requires Valid()
      modifies this
      ensures Valid() && clock == old(clock) && View() == ShutdownSection(old(View()))
      ensures shutdownRequested && pendingRestartTask == None && NoNewStarting(old(View()), View())
      ensures process == if old(state) == Fallen || old(state) == CircuitBroken then None else old(process)
      ensures state == ShutDown(old(state))
      ensures log == if old(state) == Fallen then [] else old(log)
    {
      ShutdownKeepsRecord(policy, Past());
      log := if state == Fallen then [] else log;
      ShutDownLocked();
    }

    method ShutDownLocked()
      modifies this`state, this`trace, this`shutdownRequested, this`pendingRestartTask, this`restartTimestamps,
          this`process
      ensures View() == ShutdownSection(old(View()))
    {
      shutdownRequested := true;
      pendingRestartTask := None;
      if state == Fallen {
        var _ := TransitionLocked(RestartAbortToDead);
        SetState(Dead);
        restartTimestamps := [];
        process := None;
        return;
      }
      if state == CircuitBroken {
        var _ := TransitionLocked(ShutdownRequested);
        SetState(Dead);
        process := None;
        return;
      }
      if state == Starting || state == Ready || state == Running {
        var _ := TransitionLocked(ShutdownRequested);
      }
    }

    method ClearCircuitBreak() returns (ok: bool)
      requires Valid()
      modifies this
      ensures Valid() && clock == old(clock)
      ensures ok <==> old(state) == CircuitBroken
      ensures ok ==> log == [] && View() == Assign(old(View()), Starting).(stamps := [], shutdownRequested := false)
      ensures !ok ==> log == old(log) && View() == old(View())
    {
      if state != CircuitBroken {
        return false;
      }
      FreshIsWindowed(policy, clock);
      restartTimestamps, log := [], [];
      shutdownRequested := false;
      ok := TransitionLocked(CircuitClearRestart);
    }
  }

  function ShutDown(st: State): State {
    match st
    case Fallen => Dead
    case CircuitBroken => Dead
    case NotStarted => NotStarted
    case Dead => Dead
    case _ => Draining
  }

  lemma ShutdownKeepsRecord(p: Policy, w: World)
    requires Windowed(p, w)
    ensures var inst := ShutdownSection(w.inst);
      && Windowed(p, World(inst, map[], map[], w.clock, if w.inst.state == Fallen then [] else w.log))
      && inst.shutdownRequested && inst.pendingRestart == None
      && inst.process == (if w.inst.state == Fallen || w.inst.state == CircuitBroken then None else w.inst.process)
      && NoNewStarting(w.inst, inst) && inst.state == ShutDown(w.inst.state)
  {
    FreshIsWindowed(p, w.clock);
  }

  // What the policy must decide on an exit at `now`, given every exit counted before it.
  ghost predicate FollowsFromLog(p: Policy, log: seq<Crash>, reason: ExitReason, now: Time, v: Decision) {
    var n := InWindow(p, log, now);
    && (v == Stop <==> reason !in p.restartable)
    && (v == CircuitBreak <==> reason in p.restartable && n >= p.maxInWindow)
    && (v.Restart? ==> v.delay == Slot(p, Max(n - 1, 0)))
  }

  function LogAfter(log: seq<Crash>, now: Time, v: Decision): seq<Crash> {
    if v == Stop then [] else log + [Crash(now, v.Restart?)]
  }

  lemma ExitState(p: Policy, i: Inst, reason: ExitReason, now: Time)
    ensures ExitsQuietly(i.state, reason)
      <==> reason == GracefulShutdown && (i.state == Draining || i.state == Ready || i.state == Running)
    ensures
      var v, st := Verdict(p, i, reason, now), ExitSection(p, i, reason, now).state;
      if ExitsQuietly(i.state, reason) || v == Stop then st == Dead
      else if v == CircuitBreak then st == CircuitBroken
      else st == if Live(i.state) then Fallen else i.state
  {
  }

  // The sections of an exit leave alone what shutdown and restart are about.
  predicate SameFlags(i: Inst, j: Inst) {
    j.shutdownRequested == i.shutdownRequested && j.pendingRestart == i.pendingRestart && j.watcher == i.watcher
  }

  lemma NotedFlags(i: Inst, reason: ExitReason)
    ensures SameFlags(i, Noted(i, reason)) && Noted(i, reason).lastRestartAt == i.lastRestartAt
  {
  }

  lemma DecidedFlags(i: Inst, v: Decision)
    ensures SameFlags(i, Decided(i, v)) && Decided(i, v).lastRestartAt == i.lastRestartAt
    ensures Decided(i, v).process == None
  {
  }

  lemma ExitFlags(p: Policy, i: Inst, reason: ExitReason, now: Time)
    ensures
      var j := ExitSection(p, i, reason, now);
      && SameFlags(i, j) && j.process == None
      && j.lastRestartAt == if ExitsQuietly(i.state, reason) then i.lastRestartAt else Some(now)
  {
    NotedFlags(i, reason);
    DecidedFlags(Counted(p, Noted(i, reason), now), Verdict(p, i, reason, now));
  }

  function ExitDecision(p: Policy, i: Inst, reason: ExitReason, now: Time): Option<Decision> {
    if ExitsQuietly(i.state, reason) then None else Some(Verdict(p, i, reason, now))
  }

  function AfterExit(p: Policy, w: World, reason: ExitReason, now: Time): World {
    var v := ExitDecision(p, w.inst, reason, now);
    World(ExitSection(p, w.inst, reason, now), map[], map[], now, if v.None? then w.log
        else LogAfter(w.log, now, v.value))
  }

  lemma ExitKeepsRecord(p: Policy, w: World, reason: ExitReason, now: Time)
    requires Windowed(p, w) && now >= w.clock
    ensures FollowsFromLog(p, w.log, reason, now, Verdict(p, w.inst, reason, now))
    ensures Windowed(p, AfterExit(p, w, reason, now))
  {
    VerdictFromLog(p, w, reason, now);
    // A watched process is all the step system adds to the instance.
    var watched := w.(procs := map[0 := Watched(reason != HelloFailed && reason != SpawnFailed)], timers := map[]);
    WatchedExit(p, watched, reason, now);
    WindowedStep(p, watched, Exit(0, reason, now, 0));
    SameRecord(p, Step(p, watched, Exit(0, reason, now, 0)).value, ExitSection(p, w.inst, reason, now));
  }

  lemma WatchedExit(p: Policy, w: World, reason: ExitReason, now: Time)
    requires w.procs == map[0 := Watched(reason != HelloFailed && reason != SpawnFailed)] && w.timers == map[]
    requires now >= w.clock
    ensures var t, inst := Step(p, w, Exit(0, reason, now, 0)), ExitSection(p, w.inst, reason, now);
      && t.Some? && t.value.clock == now
      && t.value.inst.stamps == inst.stamps && t.value.inst.lastRestartAt == inst.lastRestartAt
      && t.value.log == if ExitsQuietly(w.inst.state, reason) then w.log
          else LogAfter(w.log, now, Verdict(p, w.inst, reason, now))
  {
  }

  // The record is about the window, the last counted exit, the clock and the log.
  lemma SameRecord(p: Policy, w: World, i: Inst)
    requires Windowed(p, w) && i.stamps == w.inst.stamps && i.lastRestartAt == w.inst.lastRestartAt
    ensures Windowed(p, World(i, map[], map[], w.clock, w.log))
  {
  }
}
