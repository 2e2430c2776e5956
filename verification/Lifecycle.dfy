// One supervised connector instance: transition table, lock sections, and the tasks around them.
module Lifecycle {
  import opened Basics
  import opened RestartPolicy

  datatype State = NotStarted | Starting | Ready | Running | Draining | Dead | Fallen | CircuitBroken

  datatype Event =
    | StartInvoked
    | HelloSucceeded
    | StartFailure
    | FirstOperationalMessage
    | ShutdownRequested
    | GracefulProcessExit
    | GracefulExitWithoutDrain
    | CrashWhileDraining
    | CrashWhileActive
    | RestartBackoffElapsed
    | CircuitBreakRecorded
    | PolicyStopToDead
    | CircuitClearRestart
    | RestartAbortToDead

  // The transition table: the successor of a state under an event, if the pair is defined.
  // `Fallen` is the state named "crashed".
  function ApplyTransition(current: State, event: Event): Option<State> {
    match (current, event)
    case (NotStarted, StartInvoked) => Some(Starting)
    case (Dead, StartInvoked) => Some(Starting)
    case (Starting, HelloSucceeded) => Some(Ready)
    case (Starting, StartFailure) => Some(Fallen)
    case (Starting, ShutdownRequested) => Some(Draining)
    case (Ready, FirstOperationalMessage) => Some(Running)
    case (Ready, ShutdownRequested) => Some(Draining)
    case (Running, ShutdownRequested) => Some(Draining)
    case (Ready, GracefulExitWithoutDrain) => Some(Dead)
    case (Running, GracefulExitWithoutDrain) => Some(Dead)
    case (Ready, CrashWhileActive) => Some(Fallen)
    case (Running, CrashWhileActive) => Some(Fallen)
    case (Draining, GracefulProcessExit) => Some(Dead)
    case (Draining, CrashWhileDraining) => Some(Fallen)
    case (Fallen, RestartBackoffElapsed) => Some(Starting)
    case (Fallen, CircuitBreakRecorded) => Some(CircuitBroken)
    case (Fallen, PolicyStopToDead) => Some(Dead)
    case (Fallen, RestartAbortToDead) => Some(Dead)
    case (CircuitBroken, CircuitClearRestart) => Some(Starting)
    case (CircuitBroken, ShutdownRequested) => Some(Dead)
    case _ => None
  }

  // Some event leads from `a` to `b`.
  ghost predicate Edge(a: State, b: State) { exists e :: ApplyTransition(a, e) == Some(b) }

  // ---- Why a process ended ----

  // The flags a connector process carries when its exit is awaited.
  datatype ProcessFlags = ProcessFlags(
    spawnFailed: bool, hasProcess: bool, helloFailed: bool, hasTransport: bool, fatal: bool, timeoutKill: bool,
    code: int)

  function Classify(f: ProcessFlags): ExitReason {
    if f.spawnFailed then SpawnFailed
    else if !f.hasProcess then SpawnFailed
    else if f.helloFailed then HelloFailed
    else if f.hasTransport && f.fatal then ProtocolViolation
    else if f.timeoutKill then TimeoutKilled
    else if f.code == 0 then GracefulShutdown
    else Crashed
  }

  // How `start` leaves the flags: it either reaches the transport or records which step failed.
  predicate Started(f: ProcessFlags) {
    f.hasTransport <==> !f.spawnFailed && f.hasProcess && !f.helloFailed
  }

  predicate Possible(up: bool, reason: ExitReason) {
    if up then reason != HelloFailed && reason != SpawnFailed else reason == HelloFailed || reason == SpawnFailed
  }

  // A process that never reached its transport exits for a reason the default policy does not restart.
  lemma ExitReasonsBySpawnOutcome(f: ProcessFlags)
    requires Started(f)
    ensures Possible(f.hasTransport, Classify(f))
    ensures !f.hasTransport ==> Classify(f) !in DEFAULT_RESTARTABLE
    ensures f.hasTransport && Classify(f) != GracefulShutdown ==> Classify(f) in DEFAULT_RESTARTABLE
    ensures Classify(f) == HelloFailed <==> f.helloFailed && f.hasProcess && !f.spawnFailed
    ensures Classify(f) == ProtocolViolation <==> f.hasTransport && f.fatal
    ensures Classify(f) == TimeoutKilled <==> f.hasTransport && !f.fatal && f.timeoutKill
    ensures Classify(f) == GracefulShutdown <==> f.hasTransport && !f.fatal && !f.timeoutKill && f.code == 0
  {
  }

  // ---- The instance and its lock sections ----

  type Pid = nat
  type Tid = nat

  // `trace` records every value ever assigned to `state`, in order.
  datatype Inst = Inst(
    state: State, process: Option<Pid>, stamps: seq<Time>, lastRestartAt: Option<Time>,
    shutdownRequested: bool, pendingRestart: Option<Tid>, watcher: Option<Pid>, trace: seq<State>)

  function Assign(i: Inst, st: State): Inst { i.(state := st, trace := i.trace + [st]) }

  // Invalid pairs raise; nothing is assigned then.
  function Transition(i: Inst, e: Event): Option<Inst> {
    match ApplyTransition(i.state, e)
    case None => None
    case Some(st) => Some(Assign(i, st))
  }

  // A transition whose error is suppressed.
  function Attempt(i: Inst, e: Event): Inst {
    match Transition(i, e) case None => i case Some(j) => j
  }

  function AssignIfOther(i: Inst, st: State): Inst { if i.state != st then Assign(i, st) else i }

  function StartSection(i: Inst): Option<Inst> {
    if i.state != NotStarted && i.state != Dead then None
    else match Transition(i, StartInvoked)
      case None => None
      case Some(j) => Some(j.(shutdownRequested := false))
  }

  // What a fetch cycle does first: nothing, start at once, or shut down, join and then start.
  datatype FetchPlan = LeaveAlone | StartNow | ShutdownFirst

  function PlanFetch(st: State): FetchPlan {
    match st
    case NotStarted => StartNow
    case Dead => StartNow
    case Starting => ShutdownFirst
    case Ready => ShutdownFirst
    case Running => ShutdownFirst
    case Draining => ShutdownFirst
    case Fallen => LeaveAlone
    case CircuitBroken => LeaveAlone
  }

  function ClearSection(i: Inst): Option<Inst> {
    if i.state != CircuitBroken then None
    else Transition(i.(stamps := [], shutdownRequested := false), CircuitClearRestart)
  }

  function SpawnedSection(i: Inst, up: bool): Option<Inst> {
    Transition(i, if up then HelloSucceeded else StartFailure)
  }

  function EmitSection(i: Inst): Inst {
    if i.state == Ready then Attempt(i, FirstOperationalMessage) else i
  }

  function TrimSection(p: Policy, i: Inst, now: Time): Inst {
    i.(stamps := Since(i.stamps, now - p.window))
  }

  // The state change an exit makes before any counting; a graceful exit stops there.
  function ExitEvent(st: State, reason: ExitReason): Option<Event> {
    match st
    case Draining => Some(if reason == GracefulShutdown then GracefulProcessExit else CrashWhileDraining)
    case Ready => Some(if reason == GracefulShutdown then GracefulExitWithoutDrain else CrashWhileActive)
    case Running => Some(if reason == GracefulShutdown then GracefulExitWithoutDrain else CrashWhileActive)
    case Starting => Some(StartFailure)
    case _ => None
  }

  predicate ExitsQuietly(st: State, reason: ExitReason) {
    reason == GracefulShutdown && (st == Draining || st == Ready || st == Running)
  }

  function Noted(i: Inst, reason: ExitReason): Inst {
    match ExitEvent(i.state, reason) case None => i case Some(e) => Attempt(i, e)
  }

  function Counted(p: Policy, i: Inst, now: Time): Inst {
    var trimmed := TrimSection(p, i, now);
    TrimSection(p, trimmed.(stamps := trimmed.stamps + [now], lastRestartAt := Some(now)), now)
  }

  function Verdict(p: Policy, i: Inst, reason: ExitReason, now: Time): Decision {
    ShouldRestart(p, reason, Counted(p, Noted(i, reason), now).stamps, now)
  }

  // The policy's decision carried out on the counted instance.
  function Decided(counted: Inst, v: Decision): Inst {
    match v
    case Stop => AssignIfOther(Attempt(counted, PolicyStopToDead), Dead).(stamps := [], process := None)
    case CircuitBreak => AssignIfOther(Attempt(counted, CircuitBreakRecorded), CircuitBroken).(process := None)
    case Restart(_) => counted.(process := None)
  }

  function ExitSection(p: Policy, i: Inst, reason: ExitReason, now: Time): Inst {
    if ExitsQuietly(i.state, reason) then Noted(i, reason).(process := None)
    else Decided(Counted(p, Noted(i, reason), now), Verdict(p, i, reason, now))
  }

  // The section the backoff timer runs once it has slept.
  function TimerSection(i: Inst): Option<Inst> {
    if i.shutdownRequested || i.state == Dead || i.state == Draining || i.state == CircuitBroken then None
    else Transition(i, RestartBackoffElapsed)
  }

  function ShutdownSection(i: Inst): Inst {
    var asked := i.(shutdownRequested := true, pendingRestart := None);
    match i.state
    case Fallen => Assign(Attempt(asked, RestartAbortToDead), Dead).(stamps := [], process := None)
    case CircuitBroken => Assign(Attempt(asked, ShutdownRequested), Dead).(process := None)
    case Starting => Attempt(asked, ShutdownRequested)
    case Ready => Attempt(asked, ShutdownRequested)
    case Running => Attempt(asked, ShutdownRequested)
    case _ => asked
  }

  // ---- The instance among its tasks ----

  datatype ProcPhase = Spawning(task: Option<Tid>) | Watched(up: bool) | Lost | Finished

  datatype TimerPhase = Sleeping | Working | Over

  datatype Crash = Crash(at: Time, granted: bool)

  // `log` is every exit counted since the window was last cleared.
  datatype World = World(
    inst: Inst, procs: map<Pid, ProcPhase>, timers: map<Tid, TimerPhase>, clock: Time, log: seq<Crash>)

  function Fresh(clock: Time): World {
    World(Inst(NotStarted, None, [], None, false, None, None, [NotStarted]), map[], map[], clock, [])
  }

  datatype Action =
    | Start(pid: Pid)
    | Clear(pid: Pid)
    | SpawnDone(pid: Pid, up: bool)
    | SpawnRaises(pid: Pid)
    | Exit(pid: Pid, reason: ExitReason, now: Time, timer: Tid)
    | TimerFires(timer: Tid, pid: Pid)
    | Shutdown
    | EmitSeen
    | ReadAttempts(now: Time)
    | CancelBackground

  // Cancelling a backoff task: asleep it ends; while spawning it abandons its process.
  function CancelTimer(w: World, t: Option<Tid>): World {
    match t
    case None => w
    case Some(tid) =>
      if tid !in w.timers then w
      else w.(timers := w.timers[tid := Over],
              procs := map p | p in w.procs :: if w.procs[p] == Spawning(Some(tid)) then Lost else w.procs[p])
  }

  function BeginSpawn(w: World, i: Inst, pid: Pid, task: Option<Tid>): World {
    w.(inst := i.(process := Some(pid)), procs := w.procs[pid := Spawning(task)])
  }

  function EndTimer(timers: map<Tid, TimerPhase>, task: Option<Tid>): map<Tid, TimerPhase> {
    if task.Some? then timers[task.value := Over] else timers
  }

  function DoStart(w: World, pid: Pid): Option<World> {
    if pid in w.procs then None
    else match StartSection(w.inst)
      case None => Some(w)
      case Some(i) => Some(BeginSpawn(w, i, pid, None))
  }

  function DoClear(w: World, pid: Pid): Option<World> {
    if pid in w.procs then None
    else match ClearSection(w.inst)
      case None => Some(w)
      case Some(i) => Some(BeginSpawn(w.(log := []), i, pid, None))
  }

  function DoSpawnDone(w: World, pid: Pid, up: bool): Option<World> {
    if pid !in w.procs || !w.procs[pid].Spawning? then None
    else
      var task := w.procs[pid].task;
      match SpawnedSection(w.inst, up)
      case None => Some(w.(procs := w.procs[pid := Lost], timers := EndTimer(w.timers, task)))
      case Some(i) =>
        var calmed := CancelTimer(w.(procs := w.procs[pid := Watched(up)], timers := EndTimer(w.timers, task)),
            i.pendingRestart);
        Some(calmed.(inst := i.(pendingRestart := None, watcher := Some(pid))))
  }

  function DoSpawnRaises(w: World, pid: Pid): Option<World> {
    if pid !in w.procs || !w.procs[pid].Spawning? then None
    else Some(w.(procs := w.procs[pid := Lost], timers := EndTimer(w.timers, w.procs[pid].task)))
  }

  function DoExit(p: Policy, w: World, pid: Pid, reason: ExitReason, now: Time, timer: Tid): Option<World> {
    if pid !in w.procs || !w.procs[pid].Watched? || !Possible(w.procs[pid].up, reason) || now < w.clock
        || timer in w.timers
    then None
    else
      var after := w.(inst := ExitSection(p, w.inst, reason, now), procs := w.procs[pid := Finished], clock := now);
      if ExitsQuietly(w.inst.state, reason) then Some(after)
      else match Verdict(p, w.inst, reason, now)
        case Stop => Some(after.(log := []))
        case CircuitBreak => Some(after.(log := w.log + [Crash(now, false)]))
        case Restart(_) =>
          Some(after.(log := w.log + [Crash(now, true)], timers := w.timers[timer := Sleeping],
                      inst := after.inst.(pendingRestart := Some(timer))))
  }

  function DoTimerFires(w: World, timer: Tid, pid: Pid): Option<World> {
    if timer !in w.timers || w.timers[timer] != Sleeping || pid in w.procs then None
    else match TimerSection(w.inst)
      case None => Some(w.(timers := w.timers[timer := Over]))
      case Some(i) => Some(BeginSpawn(w.(timers := w.timers[timer := Working]), i, pid, Some(timer)))
  }

  function DoShutdown(w: World): World {
    CancelTimer(w, w.inst.pendingRestart)
      .(inst := ShutdownSection(w.inst), log := if w.inst.state == Fallen then [] else w.log)
  }

  function DoReadAttempts(p: Policy, w: World, now: Time): Option<World> {
    if now < w.clock then None else Some(w.(inst := TrimSection(p, w.inst, now), clock := now))
  }

  // The backoff task and the latest watcher are cancelled; a watched process is then never handled.
  function DoCancelBackground(w: World): World {
    var calmed := CancelTimer(w, w.inst.pendingRestart);
    var i := w.inst.(pendingRestart := None, watcher := None);
    if w.inst.watcher.Some? && w.inst.watcher.value in w.procs && w.procs[w.inst.watcher.value].Watched?
    then calmed.(inst := i, procs := calmed.procs[w.inst.watcher.value := Lost])
    else calmed.(inst := i)
  }

  function Step(p: Policy, w: World, a: Action): Option<World> {
    match a
    case Start(pid) => DoStart(w, pid)
    case Clear(pid) => DoClear(w, pid)
    case SpawnDone(pid, up) => DoSpawnDone(w, pid, up)
    case SpawnRaises(pid) => DoSpawnRaises(w, pid)
    case Exit(pid, reason, now, timer) => DoExit(p, w, pid, reason, now, timer)
    case TimerFires(timer, pid) => DoTimerFires(w, timer, pid)
    case Shutdown => Some(DoShutdown(w))
    case EmitSeen => Some(w.(inst := EmitSection(w.inst)))
    case ReadAttempts(now) => DoReadAttempts(p, w, now)
    case CancelBackground => Some(DoCancelBackground(w))
  }

  function Run(p: Policy, w: World, actions: seq<Action>): Option<World>
    decreases |actions|
  {
    if actions == [] then Some(w)
    else match Step(p, w, actions[0])
      case None => None
      case Some(next) => Run(p, next, actions[1..])
  }
}
