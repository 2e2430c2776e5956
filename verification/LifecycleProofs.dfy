// What every run of a supervised instance keeps.
module LifecycleProofs {
  import opened Basics
  import opened RestartPolicy
  import opened Lifecycle

  // ---- The restart window ----

  function Ats(log: seq<Crash>): seq<Time> { seq(|log|, i requires 0 <= i < |log| => log[i].at) }

  // Trimmed at any later moment, the list kept in place is the window filter of the full log.
  ghost predicate WindowIsFilter(p: Policy, w: World) {
    FilterFrom(w.inst.stamps, w.log, w.clock - p.window)
  }

  ghost predicate FilterFrom(stamps: seq<Time>, log: seq<Crash>, from: Time) {
    forall cut | cut >= from :: Since(stamps, cut) == Since(Ats(log), cut)
  }

  lemma CountedIsFilter(p: Policy, w: World, i: Inst, now: Time, granted: bool)
    requires WindowIsFilter(p, w) && now >= w.clock && i.stamps == w.inst.stamps
    ensures Counted(p, i, now).stamps == Since(Ats(w.log + [Crash(now, granted)]), now - p.window)
    ensures FilterFrom(Counted(p, i, now).stamps, w.log + [Crash(now, granted)], now - p.window)
  {
    var from := now - p.window;
    var kept := Since(i.stamps, from);
    assert Ats(w.log + [Crash(now, granted)]) == Ats(w.log) + [now];
    SinceAppend(kept, now, from);
    SinceAgain(i.stamps, from, from);
    SinceAppend(Ats(w.log), now, from);
    forall cut | cut >= from
      ensures Since(Counted(p, i, now).stamps, cut) == Since(Ats(w.log) + [now], cut)
    {
      SinceAgain(Ats(w.log) + [now], from, cut);
    }
  }

  lemma TrimKeepsWindow(p: Policy, w: World, now: Time)
    requires WindowIsFilter(p, w) && now >= w.clock
    ensures WindowIsFilter(p, w.(inst := TrimSection(p, w.inst, now), clock := now))
    ensures TrimSection(p, w.inst, now).stamps == Since(Ats(w.log), now - p.window)
  {
    forall cut | cut >= now - p.window
      ensures Since(TrimSection(p, w.inst, now).stamps, cut) == Since(Ats(w.log), cut)
    {
      SinceAgain(w.inst.stamps, now - p.window, cut);
    }
  }

  lemma ExitKeepsWindow(p: Policy, w: World, pid: Pid, reason: ExitReason, now: Time, timer: Tid)
    requires WindowIsFilter(p, w) && DoExit(p, w, pid, reason, now, timer).Some?
    ensures WindowIsFilter(p, DoExit(p, w, pid, reason, now, timer).value)
  {
    var noted := Noted(w.inst, reason);
    var counted := Counted(p, noted, now);
    CountedIsFilter(p, w, noted, now, false);
    CountedIsFilter(p, w, noted, now, true);
    if !ExitsQuietly(w.inst.state, reason) {
      match Verdict(p, w.inst, reason, now)
      case Stop =>
      case CircuitBreak => assert ExitSection(p, w.inst, reason, now).stamps == counted.stamps;
      case Restart(_) => assert ExitSection(p, w.inst, reason, now).stamps == counted.stamps;
    }
  }

  lemma WindowStep(p: Policy, w: World, a: Action)
    requires WindowIsFilter(p, w) && Step(p, w, a).Some?
    ensures WindowIsFilter(p, Step(p, w, a).value)
  {
    match a
    case Exit(pid, reason, now, timer) => ExitKeepsWindow(p, w, pid, reason, now, timer);
    case ReadAttempts(now) => TrimKeepsWindow(p, w, now);
    case _ => WindowLeftAlone(p, w, a);
  }

  lemma WindowLeftAlone(p: Policy, w: World, a: Action)
    requires Step(p, w, a).Some? && !a.Exit? && !a.ReadAttempts?
    ensures var t := Step(p, w, a).value;
      && t.clock == w.clock
      && ((t.inst.stamps == w.inst.stamps && t.log == w.log) || (t.inst.stamps == [] && t.log == []))
  {
  }

  ghost predicate LogIsPast(w: World) { forall i | 0 <= i < |w.log| :: w.log[i].at <= w.clock }

  lemma LogIsPastStep(p: Policy, w: World, a: Action)
    requires LogIsPast(w) && Step(p, w, a).Some?
    ensures LogIsPast(Step(p, w, a).value)
  {
  }

  lemma {:induction false} SinceNone(stamps: seq<Time>, cutoff: Time)
    requires forall i | 0 <= i < |stamps| :: stamps[i] < cutoff
    ensures Since(stamps, cutoff) == []
  {
    if stamps != [] {
      SinceNone(stamps[1..], cutoff);
    }
  }

  // ---- Automatic restarts granted ----

  function Grants(log: seq<Crash>, lo: Time, hi: Time): nat {
    if log == [] then 0
    else (if log[0].granted && lo <= log[0].at <= hi then 1 else 0) + Grants(log[1..], lo, hi)
  }

  lemma {:induction false} GrantsAppend(log: seq<Crash>, c: Crash, lo: Time, hi: Time)
    ensures Grants(log + [c], lo, hi) == Grants(log, lo, hi) + if c.granted && lo <= c.at <= hi then 1 else 0
  {
    if log == [] {
      assert log + [c] == [c];
    } else {
      assert (log + [c])[1..] == log[1..] + [c];
      GrantsAppend(log[1..], c, lo, hi);
    }
  }

  lemma {:induction false} GrantsWithinWindow(log: seq<Crash>, lo: Time, hi: Time, cutoff: Time)
    requires cutoff <= lo
    ensures Grants(log, lo, hi) <= |Since(Ats(log), cutoff)|
  {
    if log != [] {
      assert Ats(log)[1..] == Ats(log[1..]);
      GrantsWithinWindow(log[1..], lo, hi, cutoff);
    }
  }

  // No interval as long as the window holds more than one restart fewer than the breaker's limit.
  ghost predicate GrantsBounded(p: Policy, log: seq<Crash>) {
    forall lo, hi | hi <= lo + p.window :: Grants(log, lo, hi) <= Max(p.maxInWindow - 1, 0)
  }

  lemma AppendKeepsGrantsBounded(p: Policy, log: seq<Crash>, c: Crash)
    requires GrantsBounded(p, log)
    requires c.granted ==> |Since(Ats(log + [c]), c.at - p.window)| < p.maxInWindow
    ensures GrantsBounded(p, log + [c])
  {
    forall lo, hi | hi <= lo + p.window ensures Grants(log + [c], lo, hi) <= Max(p.maxInWindow - 1, 0) {
      GrantsAppend(log, c, lo, hi);
      if c.granted && lo <= c.at <= hi {
        GrantsWithinWindow(log + [c], lo, hi, c.at - p.window);
      }
    }
  }

  // The exits counted when process exit number |log| + 1 is handled at `now`.
  function InWindow(p: Policy, log: seq<Crash>, now: Time): nat {
    |Since(Ats(log) + [now], now - p.window)|
  }

  // Entry n of the backoff schedule, or the ceiling beyond its end.
  function Slot(p: Policy, n: nat): real { if n < |p.backoff| then p.backoff[n] else p.ceiling }

  // What an exit decides, read off the full log.
  lemma VerdictFromLog(p: Policy, w: World, reason: ExitReason, now: Time)
    requires WindowIsFilter(p, w) && now >= w.clock
    ensures var n, v := InWindow(p, w.log, now), Verdict(p, w.inst, reason, now);
      && (v == Stop <==> reason !in p.restartable)
      && (v == CircuitBreak <==> reason in p.restartable && n >= p.maxInWindow)
      && (v.Restart? ==> v.delay == Slot(p, Max(n - 1, 0)))
  {
    CountedIsFilter(p, w, Noted(w.inst, reason), now, true);
    assert Ats(w.log + [Crash(now, true)]) == Ats(w.log) + [now];
    SinceAgain(Ats(w.log) + [now], now - p.window, now - p.window);
  }

  // The exit being handled is itself in the window exactly when the window is not negative.
  lemma ExitCountsItself(p: Policy, w: World, now: Time)
    requires LogIsPast(w) && now >= w.clock
    ensures InWindow(p, w.log, now) >= 1 <==> p.window >= 0
  {
    SinceAppend(Ats(w.log), now, now - p.window);
    if p.window < 0 {
      SinceNone(Ats(w.log), now - p.window);
    }
  }

  lemma GrantsStep(p: Policy, w: World, a: Action)
    requires WindowIsFilter(p, w) && GrantsBounded(p, w.log) && Step(p, w, a).Some?
    ensures GrantsBounded(p, Step(p, w, a).value.log)
  {
    if a.Exit? {
      VerdictFromLog(p, w, a.reason, a.now);
      assert Ats(w.log + [Crash(a.now, true)]) == Ats(w.log) + [a.now];
      AppendKeepsGrantsBounded(p, w.log, Crash(a.now, false));
      if Verdict(p, w.inst, a.reason, a.now).Restart? {
        AppendKeepsGrantsBounded(p, w.log, Crash(a.now, true));
      }
    }
  }

  // ---- Tasks: who is still owed an exit ----

  // A process being spawned, or one whose exit its watcher waits for. Nobody waits for one that is lost.
  predicate Unhandled(w: World, pid: Pid) { pid in w.procs && (w.procs[pid].Spawning? || w.procs[pid].Watched?) }

  predicate Asleep(w: World, t: Tid) { t in w.timers && w.timers[t] == Sleeping }

  predicate Suits(phase: ProcPhase, st: State) {
    match phase
    case Spawning(_) => st == Starting || st == Draining
    case Watched(up) => if up then st == Ready || st == Running || st == Draining else st == Fallen || st == Dead
    case Lost => true
    case Finished => true
  }

  ghost predicate TasksAt(w: World, p: Pid, q: Pid, t: Tid) {
    && (Unhandled(w, p) ==> Suits(w.procs[p], w.inst.state))
    && (Unhandled(w, p) && Unhandled(w, q) ==> p == q)
    && (Asleep(w, t) ==> w.inst.pendingRestart == Some(t) && TimerSuits(w, p))
  }

  // A sleeping timer excludes a process that is owed an exit, unless a new start overtook the timer.
  ghost predicate TimerSuits(w: World, p: Pid) {
    w.inst.state == Starting || ((w.inst.state == Fallen || w.inst.state == Dead) && !Unhandled(w, p))
  }

  // At most one process is owed an exit, in a state that suits it; a sleeping backoff timer is the
  // pending one.
  ghost predicate Tasks(w: World) { forall p, q, t :: TasksAt(w, p, q, t) }

  // `start()` is not invoked, to effect, while some process's exit is still unhandled.
  ghost predicate Allowed(w: World, a: Action) {
    a.Start? && StartSection(w.inst).Some? ==> forall p :: !Unhandled(w, p)
  }

  lemma NewProcessAt(policy: Policy, w: World, a: Action, p: Pid, q: Pid, t: Tid)
    requires a.Start? || a.Clear? || a.TimerFires?
    requires Tasks(w) && Allowed(w, a) && Step(policy, w, a).Some?
    ensures TasksAt(Step(policy, w, a).value, p, q, t)
  {
    assert TasksAt(w, p, q, t) && TasksAt(w, q, p, t);
    if a.TimerFires? {
      assert TasksAt(w, p, q, a.timer) && TasksAt(w, q, p, a.timer);
    } else if a.Start? && StartSection(w.inst).Some? {
      assert !Unhandled(w, p) && !Unhandled(w, q);
    }
  }

  lemma SpawnEndsAt(policy: Policy, w: World, a: Action, p: Pid, q: Pid, t: Tid)
    requires a.SpawnDone? || a.SpawnRaises?
    requires Tasks(w) && Step(policy, w, a).Some?
    ensures TasksAt(Step(policy, w, a).value, p, q, t)
  {
    assert TasksAt(w, p, q, t) && TasksAt(w, a.pid, p, t) && TasksAt(w, a.pid, q, t);
  }

  lemma ExitAt(policy: Policy, w: World, a: Action, p: Pid, q: Pid, t: Tid)
    requires a.Exit?
    requires Tasks(w) && Step(policy, w, a).Some?
    ensures TasksAt(Step(policy, w, a).value, p, q, t)
  {
    assert TasksAt(w, a.pid, p, t) && TasksAt(w, a.pid, q, t);
    var next := Step(policy, w, a).value;
    assert !Unhandled(next, p) && !Unhandled(next, q);
  }

  lemma OtherAt(policy: Policy, w: World, a: Action, p: Pid, q: Pid, t: Tid)
    requires a.Shutdown? || a.EmitSeen? || a.ReadAttempts? || a.CancelBackground?
    requires Tasks(w) && Step(policy, w, a).Some?
    ensures TasksAt(Step(policy, w, a).value, p, q, t)
  {
    assert TasksAt(w, p, q, t) && TasksAt(w, q, p, t);
  }

  lemma TasksStep(policy: Policy, w: World, a: Action)
    requires Tasks(w) && Allowed(w, a) && Step(policy, w, a).Some?
    ensures Tasks(Step(policy, w, a).value)
  {
    forall p, q, t ensures TasksAt(Step(policy, w, a).value, p, q, t) {
      if a.Start? || a.Clear? || a.TimerFires? {
        NewProcessAt(policy, w, a, p, q, t);
      } else if a.SpawnDone? || a.SpawnRaises? {
        SpawnEndsAt(policy, w, a, p, q, t);
      } else if a.Exit? {
        ExitAt(policy, w, a, p, q, t);
      } else {
        OtherAt(policy, w, a, p, q, t);
      }
    }
  }

  // ---- The trace of state assignments ----

  ghost predicate TraceOk(i: Inst) {
    && |i.trace| > 0 && i.trace[|i.trace| - 1] == i.state
    && forall k | 0 < k < |i.trace| :: OnTable(i.trace[k - 1], i.trace[k])
  }

  // A self-loop or an edge of the table.
  ghost predicate OnTable(a: State, b: State) { a == b || Edge(a, b) }

  lemma AssignKeepsTrace(i: Inst, st: State)
    requires TraceOk(i) && OnTable(i.state, st)
    ensures TraceOk(Assign(i, st))
  {
  }

  lemma AttemptKeepsTrace(i: Inst, e: Event)
    requires TraceOk(i)
    ensures TraceOk(Attempt(i, e))
  {
    if ApplyTransition(i.state, e).Some? {
      AssignKeepsTrace(i, ApplyTransition(i.state, e).value);
    }
  }

  lemma NotedKeepsTrace(i: Inst, reason: ExitReason)
    requires TraceOk(i)
    ensures TraceOk(Noted(i, reason))
  {
    if ExitEvent(i.state, reason).Some? {
      AttemptKeepsTrace(i, ExitEvent(i.state, reason).value);
    }
  }

  lemma DecidedKeepsTrace(i: Inst, v: Decision)
    requires TraceOk(i) && (i.state == Fallen || (i.state == Dead && v != CircuitBreak))
    ensures TraceOk(Decided(i, v))
  {
    AttemptKeepsTrace(i, PolicyStopToDead);
    AttemptKeepsTrace(i, CircuitBreakRecorded);
  }

  // A failed start never trips the breaker by itself: either it is no reason to restart, or the one
  // exit it puts into an empty window is below the limit.
  predicate ToleratesFailedStart(p: Policy) {
    || (HelloFailed !in p.restartable && SpawnFailed !in p.restartable)
    || (if p.window >= 0 then 1 else 0) < p.maxInWindow
  }

  // The decision on the first exit counted in an empty window.
  lemma FirstExit(p: Policy, i: Inst, reason: ExitReason, now: Time)
    requires Noted(i, reason).stamps == []
    ensures Verdict(p, i, reason, now) == CircuitBreak
      <==> reason in p.restartable && (if p.window >= 0 then 1 else 0) >= p.maxInWindow
  {
    var from := now - p.window;
    assert [] + [now] == [now] && [now][1..] == [];
    assert Since([now], from) == if p.window >= 0 then [now] else [];
  }

  // What an exit leaves before the decision: a crash, except where a failed start was shut down.
  lemma NotedState(p: Policy, i: Inst, reason: ExitReason, now: Time, up: bool)
    requires ToleratesFailedStart(p) && (!up && i.state == Dead ==> i.stamps == [])
    requires Suits(Watched(up), i.state) && Possible(up, reason) && !ExitsQuietly(i.state, reason)
    ensures var noted := Noted(i, reason).state;
      noted == Fallen || (noted == Dead && Verdict(p, i, reason, now) != CircuitBreak)
  {
    if i.state == Dead {
      FirstExit(p, i, reason, now);
    }
  }

  lemma ExitKeepsTrace(p: Policy, i: Inst, reason: ExitReason, now: Time, up: bool)
    requires ToleratesFailedStart(p) && (!up && i.state == Dead ==> i.stamps == [])
    requires TraceOk(i) && Suits(Watched(up), i.state) && Possible(up, reason)
    ensures TraceOk(ExitSection(p, i, reason, now))
  {
    NotedKeepsTrace(i, reason);
    if !ExitsQuietly(i.state, reason) {
      NotedState(p, i, reason, now, up);
      DecidedKeepsTrace(Counted(p, Noted(i, reason), now), Verdict(p, i, reason, now));
    }
  }

  lemma ShutdownKeepsTrace(i: Inst)
    requires TraceOk(i)
    ensures TraceOk(ShutdownSection(i))
  {
    var asked := i.(shutdownRequested := true, pendingRestart := None);
    AttemptKeepsTrace(asked, RestartAbortToDead);
    AttemptKeepsTrace(asked, ShutdownRequested);
    if i.state == Fallen {
      AssignKeepsTrace(Attempt(asked, RestartAbortToDead), Dead);
    } else if i.state == CircuitBroken {
      AssignKeepsTrace(Attempt(asked, ShutdownRequested), Dead);
    }
  }

  // A failed start that is reaped only after a shutdown finds the window empty.
  ghost predicate ReapedAt(w: World, pid: Pid) {
    pid in w.procs && w.procs[pid] == Watched(false) && w.inst.state == Dead ==> w.inst.stamps == []
  }

  ghost predicate LateReaping(w: World) { forall pid :: ReapedAt(w, pid) }

  lemma LateReapingStep(p: Policy, w: World, a: Action)
    requires Tasks(w) && LateReaping(w) && Step(p, w, a).Some?
    ensures LateReaping(Step(p, w, a).value)
  {
    forall pid ensures ReapedAt(Step(p, w, a).value, pid) {
      assert ReapedAt(w, pid) && TasksAt(w, pid, pid, 0);
      if a.Exit? {
        assert TasksAt(w, a.pid, pid, 0);
      }
    }
  }

  lemma TraceStep(p: Policy, w: World, a: Action)
    requires ToleratesFailedStart(p)
    requires TraceOk(w.inst) && Tasks(w) && LateReaping(w) && Step(p, w, a).Some?
    ensures TraceOk(Step(p, w, a).value.inst)
  {
    if a.Exit? {
      assert TasksAt(w, a.pid, a.pid, a.timer) && ReapedAt(w, a.pid);
      ExitKeepsTrace(p, w.inst, a.reason, a.now, w.procs[a.pid].up);
    } else {
      OtherTraceStep(p, w, a);
    }
  }

  lemma OtherTraceStep(p: Policy, w: World, a: Action)
    requires TraceOk(w.inst) && Step(p, w, a).Some? && !a.Exit?
    ensures TraceOk(Step(p, w, a).value.inst)
  {
    match a
    case Start(pid) => AttemptKeepsTrace(w.inst, StartInvoked);
    case Clear(pid) => AttemptKeepsTrace(w.inst.(stamps := [], shutdownRequested := false), CircuitClearRestart);
    case SpawnDone(pid, up) => AttemptKeepsTrace(w.inst, if up then HelloSucceeded else StartFailure);
    case TimerFires(timer, pid) => AttemptKeepsTrace(w.inst, RestartBackoffElapsed);
    case Shutdown => ShutdownKeepsTrace(w.inst);
    case EmitSeen => AttemptKeepsTrace(w.inst, FirstOperationalMessage);
    case _ =>
  }

  // ---- Runs ----

  // Every action of the run respects the use assumption on `start()`.
  ghost predicate AllowedRun(p: Policy, w: World, actions: seq<Action>)
    decreases |actions|
  {
    actions == [] || (Allowed(w, actions[0])
      && (Step(p, w, actions[0]).Some? ==> AllowedRun(p, Step(p, w, actions[0]).value, actions[1..])))
  }

  // The part of the invariant that needs no assumption.
  ghost predicate Windowed(p: Policy, w: World) {
    WindowIsFilter(p, w) && LogIsPast(w) && GrantsBounded(p, w.log)
    && (w.log != [] ==> w.inst.lastRestartAt == Some(w.log[|w.log| - 1].at))
  }

  lemma WindowedStep(p: Policy, w: World, a: Action)
    requires Windowed(p, w) && Step(p, w, a).Some?
    ensures Windowed(p, Step(p, w, a).value)
  {
    WindowStep(p, w, a);
    LogIsPastStep(p, w, a);
    GrantsStep(p, w, a);
    LastRestartStep(p, w, a);
  }

  lemma LastRestartStep(p: Policy, w: World, a: Action)
    requires w.log != [] ==> w.inst.lastRestartAt == Some(w.log[|w.log| - 1].at)
    requires Step(p, w, a).Some?
    ensures var t := Step(p, w, a).value; t.log != [] ==> t.inst.lastRestartAt == Some(t.log[|t.log| - 1].at)
  {
  }

  lemma {:induction false} RunIsWindowed(p: Policy, w: World, actions: seq<Action>)
    requires Windowed(p, w) && Run(p, w, actions).Some?
    ensures Windowed(p, Run(p, w, actions).value)
    decreases |actions|
  {
    if actions != [] {
      WindowedStep(p, w, actions[0]);
      RunIsWindowed(p, Step(p, w, actions[0]).value, actions[1..]);
    }
  }

  lemma FreshIsWindowed(p: Policy, clock: Time)
    ensures Windowed(p, Fresh(clock))
  {
    assert Ats([]) == [];
  }

  lemma {:induction false} RunKeepsTasks(p: Policy, w: World, actions: seq<Action>)
    requires Tasks(w) && AllowedRun(p, w, actions) && Run(p, w, actions).Some?
    ensures Tasks(Run(p, w, actions).value)
    decreases |actions|
  {
    if actions != [] {
      TasksStep(p, w, actions[0]);
      RunKeepsTasks(p, Step(p, w, actions[0]).value, actions[1..]);
    }
  }

  lemma {:induction false} RunKeepsTrace(p: Policy, w: World, actions: seq<Action>)
    requires ToleratesFailedStart(p)
    requires Tasks(w) && LateReaping(w) && TraceOk(w.inst) && AllowedRun(p, w, actions) && Run(p, w, actions).Some?
    ensures TraceOk(Run(p, w, actions).value.inst)
    decreases |actions|
  {
    if actions != [] {
      TasksStep(p, w, actions[0]);
      LateReapingStep(p, w, actions[0]);
      TraceStep(p, w, actions[0]);
      RunKeepsTrace(p, Step(p, w, actions[0]).value, actions[1..]);
    }
  }

  lemma FreshTasks(clock: Time)
    ensures Tasks(Fresh(clock)) && LateReaping(Fresh(clock)) && TraceOk(Fresh(clock).inst)
  {
    forall p, q, t ensures TasksAt(Fresh(clock), p, q, t) {}
    forall pid ensures ReapedAt(Fresh(clock), pid) {}
  }

  lemma {:induction false} RunOneMore(p: Policy, w: World, actions: seq<Action>, a: Action)
    requires Run(p, w, actions).Some?
    ensures Run(p, w, actions + [a]) == Step(p, Run(p, w, actions).value, a)
    ensures AllowedRun(p, w, actions + [a]) <==> AllowedRun(p, w, actions) && Allowed(Run(p, w, actions).value, a)
    decreases |actions|
  {
    if actions == [] {
      assert actions + [a] == [a] && [a][1..] == [];
    } else {
      assert (actions + [a])[1..] == actions[1..] + [a];
      RunOneMore(p, Step(p, w, actions[0]).value, actions[1..], a);
    }
  }

  // ---- Theorems ----

  // Whatever the policy and the interleaving, the list trimmed in place is, when an exit is counted,
  // the window filter of every exit since the last clear; so is what `restart_attempts_in_window` reports.
  lemma WindowCountsAllRecentExits(p: Policy, clock: Time, actions: seq<Action>, w: World, reason: ExitReason,
                                   now: Time)
    requires Run(p, Fresh(clock), actions) == Some(w) && now >= w.clock
    ensures Counted(p, Noted(w.inst, reason), now).stamps == Since(Ats(w.log) + [now], now - p.window)
    ensures TrimSection(p, w.inst, now).stamps == Since(Ats(w.log), now - p.window)
    ensures w.log != [] ==> w.inst.lastRestartAt == Some(w.log[|w.log| - 1].at)
  {
    FreshIsWindowed(p, clock);
    RunIsWindowed(p, Fresh(clock), actions);
    CountedIsFilter(p, w, Noted(w.inst, reason), now, true);
    assert Ats(w.log + [Crash(now, true)]) == Ats(w.log) + [now];
    TrimKeepsWindow(p, w, now);
  }

  // The decision taken on an exit: stop, break or restart by the number n of exits in the window,
  // and a restart waits for backoff slot n - 1, which lies in 0 .. max - 2.
  lemma RestartDecision(p: Policy, clock: Time, actions: seq<Action>, w: World, reason: ExitReason, now: Time)
    requires Run(p, Fresh(clock), actions) == Some(w) && now >= w.clock
    ensures var n, v := InWindow(p, w.log, now), Verdict(p, w.inst, reason, now);
      && (v == Stop <==> reason !in p.restartable)
      && (v == CircuitBreak <==> reason in p.restartable && n >= p.maxInWindow)
      && (v.Restart? && p.window >= 0 ==> 0 <= n - 1 <= p.maxInWindow - 2)
      && (v.Restart? && p.window >= 0 ==> v.delay == Slot(p, n - 1))
      && (n >= 1 <==> p.window >= 0)
  {
    FreshIsWindowed(p, clock);
    RunIsWindowed(p, Fresh(clock), actions);
    VerdictFromLog(p, w, reason, now);
    ExitCountsItself(p, w, now);
  }

  // Between clears, no stretch of time as long as the window sees more than max - 1 restarts granted.
  lemma AutomaticRestartsAreBounded(p: Policy, clock: Time, actions: seq<Action>, w: World, lo: Time, hi: Time)
    requires Run(p, Fresh(clock), actions) == Some(w) && hi - lo <= p.window
    ensures Grants(w.log, lo, hi) <= Max(p.maxInWindow - 1, 0)
  {
    FreshIsWindowed(p, clock);
    RunIsWindowed(p, Fresh(clock), actions);
  }

  // With the default policy: at most two restarts in any five minutes, after one second, then two; the
  // later entries of the backoff schedule are never used.
  lemma DefaultPolicyBounds(clock: Time, actions: seq<Action>, w: World, reason: ExitReason, now: Time, lo: Time,
                            hi: Time)
    requires Run(DEFAULT_POLICY, Fresh(clock), actions) == Some(w) && now >= w.clock && hi - lo <= 300_000_000
    ensures Grants(w.log, lo, hi) <= 2
    ensures var v := Verdict(DEFAULT_POLICY, w.inst, reason, now);
      v.Restart? ==> v.delay == if InWindow(DEFAULT_POLICY, w.log, now) == 1 then 1.0 else 2.0
  {
    AutomaticRestartsAreBounded(DEFAULT_POLICY, clock, actions, w, lo, hi);
    RestartDecision(DEFAULT_POLICY, clock, actions, w, reason, now);
  }

  // At most one spawned process has an exit that is still to be handled, whatever the policy.
  lemma OneUnhandledExit(p: Policy, clock: Time, actions: seq<Action>, w: World, a: Pid, b: Pid)
    requires AllowedRun(p, Fresh(clock), actions) && Run(p, Fresh(clock), actions) == Some(w)
    requires Unhandled(w, a) && Unhandled(w, b)
    ensures a == b
  {
    FreshTasks(clock);
    RunKeepsTasks(p, Fresh(clock), actions);
    assert TasksAt(w, a, b, 0);
  }

  ghost predicate AtMostOneUnhandled(w: World) {
    forall a, b | Unhandled(w, a) && Unhandled(w, b) :: a == b
  }

  // At every point of the run.
  ghost predicate OneUnhandledAlong(p: Policy, w: World, actions: seq<Action>)
    decreases |actions|
  {
    && AtMostOneUnhandled(w)
    && (actions != [] && Step(p, w, actions[0]).Some? ==>
          OneUnhandledAlong(p, Step(p, w, actions[0]).value, actions[1..]))
  }

  // Each start that the assumption forbids leaves two processes owed an exit.
  lemma EarlyStartMakesTwo(w: World, pid: Pid, q: Pid)
    requires StartSection(w.inst).Some? && Unhandled(w, q) && DoStart(w, pid).Some?
    ensures var t := DoStart(w, pid).value; Unhandled(t, q) && Unhandled(t, pid) && q != pid
  {
  }

  lemma {:induction false} OneUnhandledFrom(p: Policy, w: World, actions: seq<Action>)
    requires Tasks(w) && Run(p, w, actions).Some?
    ensures OneUnhandledAlong(p, w, actions) <==> AllowedRun(p, w, actions)
    decreases |actions|
  {
    forall a, b | Unhandled(w, a) && Unhandled(w, b) ensures a == b {
      assert TasksAt(w, a, b, 0);
    }
    if actions != [] {
      var next := Step(p, w, actions[0]).value;
      if Allowed(w, actions[0]) {
        TasksStep(p, w, actions[0]);
        OneUnhandledFrom(p, next, actions[1..]);
      } else {
        var q :| Unhandled(w, q);
        EarlyStartMakesTwo(w, actions[0].pid, q);
        assert !AtMostOneUnhandled(next);
      }
    }
  }

  // Along a run at most one process is owed an exit at every point if and only if `start()` is never
  // invoked, to effect, while one is.
  lemma OneUnhandledExitIff(p: Policy, clock: Time, actions: seq<Action>)
    requires Run(p, Fresh(clock), actions).Some?
    ensures OneUnhandledAlong(p, Fresh(clock), actions) <==> AllowedRun(p, Fresh(clock), actions)
  {
    FreshTasks(clock);
    OneUnhandledFrom(p, Fresh(clock), actions);
  }

  // Every value written to the state, forced assignments included, follows its predecessor by a
  // self-loop or an edge of the table.
  lemma EveryStateWriteIsOnTable(p: Policy, clock: Time, actions: seq<Action>, w: World, k: nat)
    requires ToleratesFailedStart(p)
    requires AllowedRun(p, Fresh(clock), actions) && Run(p, Fresh(clock), actions) == Some(w)
    requires 0 < k < |w.inst.trace|
    ensures OnTable(w.inst.trace[k - 1], w.inst.trace[k])
    ensures w.inst.trace[|w.inst.trace| - 1] == w.inst.state
  {
    FreshTasks(clock);
    RunKeepsTrace(p, Fresh(clock), actions);
  }

  // A failed start whose process is reaped only after a shutdown: the state is DEAD, one exit unhandled.
  lemma FailedStartThenShutdown(p: Policy, clock: Time) returns (w: World)
    ensures Run(p, Fresh(clock), FAILED_START) == Some(w) && AllowedRun(p, Fresh(clock), FAILED_START)
    ensures w.inst.state == Dead && w.procs == map[0 := Watched(false)] && w.timers == map[] && w.clock == clock
    ensures w.inst.stamps == [] && w.inst.shutdownRequested
    ensures w.inst.trace == [NotStarted, Starting, Fallen, Dead, Dead]
  {
    var w1 := DoStart(Fresh(clock), 0).value;
    var w2 := DoSpawnDone(w1, 0, false).value;
    w := DoShutdown(w2);
    assert Run(p, w2, [Shutdown]) == Some(w);
    assert Run(p, w1, [SpawnDone(0, false), Shutdown]) == Some(w);
  }

  const FAILED_START: seq<Action> := [Start(0), SpawnDone(0, false), Shutdown]

  // Under any other policy, reaping such a process trips the breaker from DEAD, which is no edge.
  lemma LateReapingLeavesTable(p: Policy, clock: Time) returns (actions: seq<Action>, w: World)
    requires !ToleratesFailedStart(p)
    ensures AllowedRun(p, Fresh(clock), actions) && Run(p, Fresh(clock), actions) == Some(w)
    ensures w.inst.trace == [NotStarted, Starting, Fallen, Dead, Dead, CircuitBroken] && !OnTable(Dead, CircuitBroken)
  {
    var reason := if HelloFailed in p.restartable then HelloFailed else SpawnFailed;
    var dead := FailedStartThenShutdown(p, clock);
    FirstExit(p, dead.inst, reason, clock);
    RunOneMore(p, Fresh(clock), FAILED_START, Exit(0, reason, clock, 0));
    actions := FAILED_START + [Exit(0, reason, clock, 0)];
    w := DoExit(p, dead, 0, reason, clock, 0).value;
  }

  ghost predicate EveryWriteOnTable(trace: seq<State>) {
    forall k | 0 < k < |trace| :: OnTable(trace[k - 1], trace[k])
  }

  // All runs keep to the table if and only if the policy tolerates a failed start.
  lemma StateWritesStayOnTableIff(p: Policy, clock: Time)
    ensures (forall actions | AllowedRun(p, Fresh(clock), actions) && Run(p, Fresh(clock), actions).Some? ::
               EveryWriteOnTable(Run(p, Fresh(clock), actions).value.inst.trace))
      <==> ToleratesFailedStart(p)
  {
    if ToleratesFailedStart(p) {
      forall actions | AllowedRun(p, Fresh(clock), actions) && Run(p, Fresh(clock), actions).Some?
        ensures EveryWriteOnTable(Run(p, Fresh(clock), actions).value.inst.trace)
      {
        FreshTasks(clock);
        RunKeepsTrace(p, Fresh(clock), actions);
      }
    } else {
      var actions, w := LateReapingLeavesTable(p, clock);
      assert !OnTable(w.inst.trace[4], w.inst.trace[5]);
    }
  }

  // Only clearing the breaker or asking for shutdown leaves the circuit-broken state.
  lemma CircuitBrokenIsLeftOnDemand(p: Policy, clock: Time, actions: seq<Action>, w: World, a: Action)
    requires AllowedRun(p, Fresh(clock), actions) && Run(p, Fresh(clock), actions) == Some(w)
    requires w.inst.state == CircuitBroken && Step(p, w, a).Some?
    ensures Step(p, w, a).value.inst.state != CircuitBroken <==> a.Clear? || a.Shutdown?
  {
    FreshTasks(clock);
    RunKeepsTasks(p, Fresh(clock), actions);
    forall pid ensures !Unhandled(w, pid) {
      assert TasksAt(w, pid, pid, 0);
    }
    BrokenStep(p, w, a);
  }

  lemma BrokenStep(p: Policy, w: World, a: Action)
    requires w.inst.state == CircuitBroken && Step(p, w, a).Some? && forall pid :: !Unhandled(w, pid)
    ensures Step(p, w, a).value.inst.state != CircuitBroken <==> a.Clear? || a.Shutdown?
  {
    assert !a.Exit? && !a.SpawnDone? && !a.SpawnRaises? by {
      assert a.Exit? || a.SpawnDone? || a.SpawnRaises? ==> Unhandled(w, a.pid);
    }
  }

  // ---- A granted restart happens ----

  predicate Live(st: State) { st == Starting || st == Ready || st == Running || st == Draining || st == Fallen }

  // The instance has crashed and its pending backoff timer sleeps; nobody has asked for shutdown.
  predicate AwaitsRestart(w: World, timer: Tid) {
    && w.inst.state == Fallen && !w.inst.shutdownRequested
    && w.inst.pendingRestart == Some(timer) && Asleep(w, timer)
  }

  lemma GrantedRestartSleeps(p: Policy, w: World, pid: Pid, reason: ExitReason, now: Time, timer: Tid)
    requires DoExit(p, w, pid, reason, now, timer).Some? && Live(w.inst.state) && !w.inst.shutdownRequested
    requires !ExitsQuietly(w.inst.state, reason) && Verdict(p, w.inst, reason, now).Restart?
    ensures var t := DoExit(p, w, pid, reason, now, timer).value;
      AwaitsRestart(t, timer) && t.inst.process == None && t.log == w.log + [Crash(now, true)]
  {
  }

  // When the sleep is over the instance starts anew, with a process spawned by that timer.
  lemma SleepingTimerSpawns(p: Policy, w: World, timer: Tid, pid: Pid)
    requires AwaitsRestart(w, timer) && pid !in w.procs
    ensures var t := Step(p, w, TimerFires(timer, pid));
      && t.Some? && t.value.inst.state == Starting && t.value.inst.process == Some(pid)
      && t.value.procs == w.procs[pid := Spawning(Some(timer))] && t.value.timers == w.timers[timer := Working]
  {
  }

  predicate Withdraws(a: Action, timer: Tid) {
    a.Shutdown? || a.CancelBackground? || (a.TimerFires? && a.timer == timer)
  }

  // Only the timer itself is left to act.
  lemma NothingElseRuns(w: World, timer: Tid)
    requires Tasks(w) && AwaitsRestart(w, timer)
    ensures forall q | q in w.procs :: w.procs[q].Lost? || w.procs[q].Finished?
    ensures forall t | t in w.timers :: w.timers[t] == Sleeping ==> t == timer
  {
    forall q | q in w.procs ensures !Unhandled(w, q) {
      assert TasksAt(w, q, q, timer);
    }
    forall t | t in w.timers ensures Asleep(w, t) ==> t == timer {
      assert TasksAt(w, 0, 0, t);
    }
  }

  lemma RestartWaitsStep(p: Policy, w: World, a: Action, timer: Tid)
    requires Tasks(w) && AwaitsRestart(w, timer) && Step(p, w, a).Some? && !Withdraws(a, timer)
    ensures AwaitsRestart(Step(p, w, a).value, timer) && Allowed(w, a)
  {
    NothingElseRuns(w, timer);
  }

  lemma {:induction false} RestartWaits(p: Policy, w: World, actions: seq<Action>, timer: Tid)
    requires Tasks(w) && AwaitsRestart(w, timer) && Run(p, w, actions).Some?
    requires forall i | 0 <= i < |actions| :: !Withdraws(actions[i], timer)
    ensures AwaitsRestart(Run(p, w, actions).value, timer)
    decreases |actions|
  {
    if actions != [] {
      RestartWaitsStep(p, w, actions[0], timer);
      TasksStep(p, w, actions[0]);
      RestartWaits(p, Step(p, w, actions[0]).value, actions[1..], timer);
    }
  }

  // A crash for which the policy grants a restart is restarted: whatever else happens, short of a
  // shutdown or of cancelling the background tasks, the timer stays in place, and when it fires the
  // instance enters STARTING with a new process.
  lemma GrantedRestartHappens(p: Policy, clock: Time, before: seq<Action>, w: World, pid: Pid, reason: ExitReason,
                              now: Time, timer: Tid, after: seq<Action>, u: World, next: Pid)
    requires AllowedRun(p, Fresh(clock), before) && Run(p, Fresh(clock), before) == Some(w)
    requires DoExit(p, w, pid, reason, now, timer).Some? && w.inst.state != Dead && !w.inst.shutdownRequested
    requires reason in p.restartable && InWindow(p, w.log, now) < p.maxInWindow && !ExitsQuietly(w.inst.state, reason)
    requires Run(p, DoExit(p, w, pid, reason, now, timer).value, after) == Some(u) && next !in u.procs
    requires forall i | 0 <= i < |after| :: !Withdraws(after[i], timer)
    ensures AwaitsRestart(u, timer)
    ensures var t := Step(p, u, TimerFires(timer, next));
      t.Some? && t.value.inst.state == Starting && t.value.procs == u.procs[next := Spawning(Some(timer))]
  {
    RestartDecision(p, clock, before, w, reason, now);
    FreshTasks(clock);
    RunKeepsTasks(p, Fresh(clock), before);
    CrashAwaitsRestart(p, w, pid, reason, now, timer);
    RestartWaits(p, DoExit(p, w, pid, reason, now, timer).value, after, timer);
    SleepingTimerSpawns(p, u, timer, next);
  }

  lemma CrashAwaitsRestart(p: Policy, w: World, pid: Pid, reason: ExitReason, now: Time, timer: Tid)
    requires Tasks(w) && DoExit(p, w, pid, reason, now, timer).Some? && w.inst.state != Dead
        && !w.inst.shutdownRequested
    requires !ExitsQuietly(w.inst.state, reason) && Verdict(p, w.inst, reason, now).Restart?
    ensures var t := DoExit(p, w, pid, reason, now, timer).value; Tasks(t) && AwaitsRestart(t, timer)
  {
    assert TasksAt(w, pid, pid, timer);
    TasksStep(p, w, Exit(pid, reason, now, timer));
    GrantedRestartSleeps(p, w, pid, reason, now, timer);
  }

  // What the end of a spawn does: a watched process in the state its outcome calls for, or, if the
  // state has moved on meanwhile, a process nobody watches.
  lemma SpawnOutcome(p: Policy, w: World, pid: Pid, up: bool)
    requires pid in w.procs && w.procs[pid].Spawning?
    ensures var t := Step(p, w, SpawnDone(pid, up));
      && t.Some?
      && (w.inst.state == Starting ==>
            && t.value.inst.state == (if up then Ready else Fallen) && t.value.inst.watcher == Some(pid)
            && t.value.inst.pendingRestart == None)
      && (w.inst.state == Starting && w.inst.pendingRestart == None ==> t.value.procs == w.procs[pid := Watched(up)])
      && (w.inst.state != Starting ==> t.value.inst == w.inst && t.value.procs == w.procs[pid := Lost])
  {
  }

  // Starting from rest, or clearing the breaker, spawns a process that no timer is behind.
  lemma StartsAndClearsSpawn(p: Policy, w: World, pid: Pid)
    requires pid !in w.procs
    ensures w.inst.state == NotStarted || w.inst.state == Dead ==>
      var t := Step(p, w, Start(pid));
      && t.Some? && t.value.inst.state == Starting && t.value.inst.process == Some(pid)
          && !t.value.inst.shutdownRequested
      && t.value.procs == w.procs[pid := Spawning(None)] && t.value.log == w.log && t.value.timers == w.timers
    ensures w.inst.state == CircuitBroken ==>
      var t := Step(p, w, Clear(pid));
      && t.Some? && t.value.inst.state == Starting && t.value.inst.process == Some(pid)
          && !t.value.inst.shutdownRequested
      && t.value.procs == w.procs[pid := Spawning(None)] && t.value.log == [] && t.value.inst.stamps == []
  {
  }

  // Cancelling the background tasks leaves the watched process to itself.
  lemma CancelLosesWatched(p: Policy, w: World, pid: Pid)
    requires w.inst.watcher == Some(pid) && pid in w.procs && w.procs[pid].Watched? && w.inst.pendingRestart == None
    ensures var t := Step(p, w, CancelBackground);
      && t.Some? && t.value.procs == w.procs[pid := Lost] && t.value.timers == w.timers
      && t.value.inst == w.inst.(watcher := None)
  {
  }

  // A shutdown stops the pending timer, and abandons the process that timer may be spawning.
  lemma ShutdownStopsRestart(p: Policy, w: World, timer: Tid)
    requires w.inst.pendingRestart == Some(timer) && timer in w.timers
    ensures var t := Step(p, w, Shutdown);
      && t.Some? && t.value.timers == w.timers[timer := Over] && t.value.inst.pendingRestart == None
      && t.value.procs.Keys == w.procs.Keys
      && forall q | q in w.procs ::
           t.value.procs[q] == if w.procs[q] == Spawning(Some(timer)) then Lost else w.procs[q]
  {
  }

  // The state writes made from `i` to `j` do not enter STARTING.
  predicate NoNewStarting(i: Inst, j: Inst) {
    && i.trace <= j.trace
    && forall k | |i.trace| <= k < |j.trace| :: j.trace[k] != Starting
  }

  lemma DecidedBarsStarting(i: Inst, v: Decision)
    ensures NoNewStarting(i, Decided(i, v)) && Decided(i, v).shutdownRequested == i.shutdownRequested
  {
  }

  lemma ExitBarsStarting(p: Policy, i: Inst, reason: ExitReason, now: Time)
    ensures NoNewStarting(i, ExitSection(p, i, reason, now))
    ensures ExitSection(p, i, reason, now).shutdownRequested == i.shutdownRequested
  {
    var noted := Noted(i, reason);
    assert NoNewStarting(i, noted) && noted.shutdownRequested == i.shutdownRequested;
    DecidedBarsStarting(Counted(p, noted, now), Verdict(p, i, reason, now));
  }

  lemma ShutdownBarsStarting(p: Policy, w: World, a: Action)
    requires Step(p, w, a).Some? && !a.Start? && !a.Clear?
    requires w.inst.shutdownRequested || a.Shutdown?
    ensures NoNewStarting(w.inst, Step(p, w, a).value.inst)
    ensures Step(p, w, a).value.inst.shutdownRequested
  {
    if a.Exit? {
      ExitBarsStarting(p, w.inst, a.reason, a.now);
    }
  }

  lemma {:induction false} RunBarsStarting(p: Policy, w: World, actions: seq<Action>)
    requires w.inst.shutdownRequested && Run(p, w, actions).Some?
    requires forall i | 0 <= i < |actions| :: !actions[i].Start? && !actions[i].Clear?
    ensures NoNewStarting(w.inst, Run(p, w, actions).value.inst)
    decreases |actions|
  {
    if actions != [] {
      var next := Step(p, w, actions[0]).value;
      ShutdownBarsStarting(p, w, actions[0]);
      RunBarsStarting(p, next, actions[1..]);
      NoNewStartingJoins(w.inst, next.inst, Run(p, w, actions).value.inst);
    }
  }

  lemma NoNewStartingJoins(i: Inst, j: Inst, k: Inst)
    requires NoNewStarting(i, j) && NoNewStarting(j, k)
    ensures NoNewStarting(i, k)
  {
    forall n | |i.trace| <= n < |k.trace| ensures k.trace[n] != Starting {
      if n < |j.trace| { assert k.trace[n] == j.trace[n]; }
    }
  }

  // From a shutdown request until the next `start()` or `clear_circuit_break()`, no step enters
  // STARTING; this needs no assumption on the policy or on how `start()` was used before.
  lemma NoStartingAfterShutdown(p: Policy, w: World, actions: seq<Action>)
    requires Run(p, DoShutdown(w), actions).Some?
    requires forall i | 0 <= i < |actions| :: !actions[i].Start? && !actions[i].Clear?
    ensures NoNewStarting(w.inst, Run(p, DoShutdown(w), actions).value.inst)
  {
    ShutdownBarsStarting(p, w, Shutdown);
    RunBarsStarting(p, DoShutdown(w), actions);
    NoNewStartingJoins(w.inst, DoShutdown(w).inst, Run(p, DoShutdown(w), actions).value.inst);
  }

  // A fetch cycle that starts at once is within the assumption on `start()` unless a failed start's
  // process is still unhandled; a start only ever follows from rest.
  lemma FetchStartsAtRest(p: Policy, clock: Time, actions: seq<Action>, w: World, pid: Pid)
    requires AllowedRun(p, Fresh(clock), actions) && Run(p, Fresh(clock), actions) == Some(w)
    ensures PlanFetch(w.inst.state) == StartNow <==> StartSection(w.inst).Some?
    ensures PlanFetch(w.inst.state) == StartNow && Unhandled(w, pid) ==> w.procs[pid] == Watched(false)
  {
    FreshTasks(clock);
    RunKeepsTasks(p, Fresh(clock), actions);
    assert TasksAt(w, pid, pid, 0);
  }

  // There is such a use: after a failed start is shut down, a fetch cycle starts at once.
  lemma FetchCanStartEarly(p: Policy, clock: Time) returns (w: World, t: World)
    ensures Run(p, Fresh(clock), FAILED_START) == Some(w) && PlanFetch(w.inst.state) == StartNow
    ensures Step(p, w, Start(1)) == Some(t) && Unhandled(t, 0) && Unhandled(t, 1)
  {
    w := FailedStartThenShutdown(p, clock);
    t := DoStart(w, 1).value;
  }
}
