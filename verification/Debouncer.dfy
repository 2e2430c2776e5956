// The development watcher's debouncer: file events of one burst are delivered as one batch.
module Debouncer {
  import opened Basics

  type Path = string

  // What the event loop still has to run for the debouncer.
  datatype Agenda = Agenda(
    inbox: seq<Path>,       // pushed from the observer thread, not yet enqueued
    live: set<nat>,         // timers neither fired nor cancelled
    nextTimer: nat,
    queuedEmits: nat)       // emit tasks created, not yet started

  datatype State = State(paths: set<Path>, handle: Option<nat>, agenda: Agenda)

  // ---- One step each ----

  function Pushed(s: State, p: Path): State {
    s.(agenda := s.agenda.(inbox := s.agenda.inbox + [p]))
  }

  function Armed(a: Agenda, superseded: Option<nat>): Agenda {
    a.(live := (if superseded.Some? then a.live - {superseded.value} else a.live) + {a.nextTimer},
       nextTimer := a.nextTimer + 1)
  }

  function Enqueued(s: State, p: Path): State {
    State(s.paths + {p}, Some(s.agenda.nextTimer), Armed(s.agenda, s.handle))
  }

  function TimerFired(s: State): State {
    s.(agenda := s.agenda.(queuedEmits := s.agenda.queuedEmits + 1))
  }

  // The reference to the timer is dropped even when a newer timer is running.
  function Emitted(s: State): State {
    s.(paths := {}, handle := None)
  }

  function Batch(s: State): Option<set<Path>> {
    if s.paths == {} then None else Some(s.paths)
  }

  class EventLoop {
    var inbox: seq<Path>
    var live: set<nat>
    var nextTimer: nat
    var queuedEmits: nat

    constructor ()
      ensures View() == Agenda([], {}, 0, 0)
    {
      inbox, live, nextTimer, queuedEmits := [], {}, 0, 0;
    }

    ghost function View(): Agenda
      reads this
    {
      Agenda(inbox, live, nextTimer, queuedEmits)
    }

    method CallSoon(p: Path)
      modifies this
      ensures View() == old(View()).(inbox := old(inbox) + [p])
    {
      inbox := inbox + [p];
    }

    // Cancelling a timer that has fired already has no effect.
    method Cancel(timer: nat)
      modifies this
      ensures View() == old(View()).(live := old(live) - {timer})
    {
      live := live - {timer};
    }

    method CallLater() returns (timer: nat)
      modifies this
      ensures timer == old(nextTimer)
      ensures View() == Armed(old(View()), None)
    {
      timer := nextTimer;
      live := live + {timer};
      nextTimer := nextTimer + 1;
    }

    method CreateEmitTask()
      modifies this
      ensures View() == old(View()).(queuedEmits := old(queuedEmits) + 1)
    {
      queuedEmits := queuedEmits + 1;
    }
  }

  class DebouncedAsyncCallback {
    const loop: EventLoop
    var paths: set<Path>
    var handle: Option<nat>

    constructor (loop: EventLoop)
      ensures this.loop == loop && View() == State({}, None, loop.View())
    {
      this.loop, paths, handle := loop, {}, None;
    }

    ghost function View(): State
      reads this, loop
    {
      State(paths, handle, loop.View())
    }

    method Push(p: Path)
      modifies loop
      ensures View() == Pushed(old(View()), p)
      ensures loop.inbox == old(loop.inbox) + [p] && loop.live == old(loop.live)
      ensures loop.queuedEmits == old(loop.queuedEmits)
    {
      loop.CallSoon(p);
    }

    // The timer on record is cancelled and a new one takes its place; every other timer stays as it is.
    method Enqueue(p: Path)
      modifies this, loop
      ensures View() == Enqueued(old(View()), p)
      ensures paths == old(paths) + {p}
      ensures handle == Some(old(loop.nextTimer)) && loop.nextTimer == old(loop.nextTimer) + 1
      ensures old(handle).Some? && old(handle).value != old(loop.nextTimer) ==> old(handle).value !in loop.live
      ensures forall t ::
        t in loop.live <==> t == old(loop.nextTimer) || (t in old(loop.live) && Some(t) != old(handle))
      ensures loop.inbox == old(loop.inbox) && loop.queuedEmits == old(loop.queuedEmits)
    {
      paths := paths + {p};
      if handle.Some? {
        loop.Cancel(handle.value);
      }
      var timer := loop.CallLater();
      handle := Some(timer);
    }

    method OnTimer()
      modifies loop
      ensures View() == TimerFired(old(View()))
      ensures loop.queuedEmits == old(loop.queuedEmits) + 1 && loop.inbox == old(loop.inbox)
          && loop.live == old(loop.live)
    {
      loop.CreateEmitTask();
    }

    // The batch handed to the change callback, if it is called.
    method Emit() returns (batch: Option<set<Path>>)
      modifies this
      ensures batch == Batch(old(View())) && View() == Emitted(old(View()))
      ensures batch == if old(paths) == {} then None else Some(old(paths))
      ensures paths == {} && handle == None
    {
      handle := None;
      if paths == {} {
        return None;
      }
      batch := Some(paths);
      paths := {};
    }
  }

  // ---- Runs ----

  // What has happened: every path pushed, in order; the paths enqueued between deliveries,
  // burst by burst; those enqueued since the last delivery; and what the callback received.
  // `epoch` counts the timers armed when the reference was last dropped.
  datatype History = History(
    pushed: seq<Path>, bursts: seq<seq<Path>>, open: seq<Path>, delivered: seq<set<Path>>, epoch: nat)

  datatype World = World(s: State, h: History)

  datatype Action = Push(path: Path) | RunCallback | FireTimer(timer: nat) | RunEmit

  function Start(): World { World(State({}, None, Agenda([], {}, 0, 0)), History([], [], [], [], 0)) }

  predicate Enabled(w: World, a: Action) {
    match a
    case Push(_) => true
    case RunCallback => w.s.agenda.inbox != []
    case FireTimer(t) => t in w.s.agenda.live
    case RunEmit => w.s.agenda.queuedEmits > 0
  }

  function Step(w: World, a: Action): World
    requires Enabled(w, a)
  {
    var agenda := w.s.agenda;
    match a
    case Push(p) => World(Pushed(w.s, p), w.h.(pushed := w.h.pushed + [p]))
    case RunCallback =>
      var p := agenda.inbox[0];
      World(Enqueued(w.s.(agenda := agenda.(inbox := agenda.inbox[1..])), p), w.h.(open := w.h.open + [p]))
    case FireTimer(t) => World(TimerFired(w.s.(agenda := agenda.(live := agenda.live - {t}))), w.h)
    case RunEmit =>
      var before := w.s.(agenda := agenda.(queuedEmits := agenda.queuedEmits - 1));
      match Batch(before)
      case None => World(Emitted(before), w.h.(epoch := agenda.nextTimer))
      case Some(batch) =>
        World(Emitted(before),
              w.h.(bursts := w.h.bursts + [w.h.open], open := [], delivered := w.h.delivered + [batch],
                   epoch := agenda.nextTimer))
  }

  // A run takes the actions in order and skips those that cannot happen.
  function Run(w: World, actions: seq<Action>): World
    decreases |actions|
  {
    if actions == [] then w
    else Run(if Enabled(w, actions[0]) then Step(w, actions[0]) else w, actions[1..])
  }

  function Flat(bursts: seq<seq<Path>>): seq<Path> {
    if bursts == [] then [] else Flat(bursts[..|bursts| - 1]) + bursts[|bursts| - 1]
  }

  function Members(path: seq<Path>): set<Path> { set p | p in path }

  // Nothing is lost, reordered or delivered twice: what was pushed is the delivered bursts one after
  // the other, then the paths waiting for delivery, then those not yet enqueued.
  ghost predicate Conserved(w: World) {
    && w.h.pushed == Flat(w.h.bursts) + w.h.open + w.s.agenda.inbox
    && w.s.paths == Members(w.h.open)
    && |w.h.delivered| == |w.h.bursts|
    && forall i | 0 <= i < |w.h.bursts| :: w.h.bursts[i] != [] && w.h.delivered[i] == Members(w.h.bursts[i])
  }

  // A path waiting for delivery has a timer or an emit coming.
  ghost predicate Covered(w: World) {
    && (w.s.paths != {} ==> w.s.agenda.live != {} || w.s.agenda.queuedEmits > 0)
    && (forall t | t in w.s.agenda.live :: t < w.s.agenda.nextTimer)
  }

  lemma MembersEmpty(s: seq<Path>)
    ensures Members(s) == {} <==> s == []
  {
    if s != [] { assert s[0] in Members(s); }
  }

  lemma StepConserves(w: World, a: Action)
    requires Conserved(w) && Enabled(w, a)
    ensures Conserved(Step(w, a))
  {
    var n := Step(w, a);
    match a
    case Push(p) =>
      assert n.h.pushed == Flat(n.h.bursts) + n.h.open + n.s.agenda.inbox;
    case RunCallback =>
      assert w.s.agenda.inbox == [w.s.agenda.inbox[0]] + n.s.agenda.inbox;
      assert n.h.pushed == Flat(n.h.bursts) + n.h.open + n.s.agenda.inbox;
    case FireTimer(_) =>
    case RunEmit =>
      MembersEmpty(w.h.open);
      if w.s.paths != {} {
        assert n.h.bursts[..|n.h.bursts| - 1] == w.h.bursts;
        assert Flat(n.h.bursts) == Flat(w.h.bursts) + w.h.open;
      }
  }

  lemma {:induction false} RunConserves(w: World, actions: seq<Action>)
    requires Conserved(w) && Covered(w)
    ensures Conserved(Run(w, actions)) && Covered(Run(w, actions))
    decreases |actions|
  {
    if actions != [] {
      if Enabled(w, actions[0]) {
        StepConserves(w, actions[0]);
        RunConserves(Step(w, actions[0]), actions[1..]);
      } else {
        RunConserves(w, actions[1..]);
      }
    }
  }

  // In every interleaving of pushes, loop callbacks, timers and emits: no path is lost, each batch is
  // the non-empty set of the paths enqueued since the batch before, and what waits will be looked at.
  lemma NoPathIsLost(actions: seq<Action>)
    ensures var w := Run(Start(), actions);
      && w.h.pushed == Flat(w.h.bursts) + w.h.open + w.s.agenda.inbox
      && |w.h.delivered| == |w.h.bursts|
      && (forall i | 0 <= i < |w.h.bursts| ::
            w.h.delivered[i] == Members(w.h.bursts[i]) && w.h.delivered[i] != {})
      && w.s.paths == Members(w.h.open)
      && (w.s.paths != {} ==> w.s.agenda.live != {} || w.s.agenda.queuedEmits > 0)
  {
    RunConserves(Start(), actions);
    var w := Run(Start(), actions);
    forall i | 0 <= i < |w.h.bursts| ensures w.h.delivered[i] != {} {
      MembersEmpty(w.h.bursts[i]);
    }
  }

  lemma {:induction false} RunAppend(w: World, first: seq<Action>, rest: seq<Action>)
    ensures Run(w, first + rest) == Run(Run(w, first), rest)
    decreases |first|
  {
    if first == [] {
      assert first + rest == rest;
    } else {
      assert (first + rest)[1..] == first[1..] + rest;
      RunAppend(if Enabled(w, first[0]) then Step(w, first[0]) else w, first[1..], rest);
    }
  }

  // ---- A burst is one batch: each enqueue takes over from the timer before it ----

  // The timer on record is the one last armed, after the reference was last dropped; any other timer
  // still running was armed before that. Each enqueue has armed one timer.
  ghost predicate OneTimerSince(w: World) {
    && (forall t | t in w.s.agenda.live :: t < w.h.epoch || w.s.handle == Some(t))
    && (w.s.handle.Some? ==> w.h.epoch <= w.s.handle.value && w.s.handle.value + 1 == w.s.agenda.nextTimer)
    && w.h.epoch <= w.s.agenda.nextTimer
    && w.s.agenda.nextTimer == |Flat(w.h.bursts)| + |w.h.open|
  }

  lemma StepKeepsOneTimer(w: World, a: Action)
    requires OneTimerSince(w) && Covered(w) && Conserved(w) && Enabled(w, a)
    ensures OneTimerSince(Step(w, a))
  {
    var n := Step(w, a);
    if a.RunEmit? && w.s.paths != {} {
      assert n.h.bursts[..|n.h.bursts| - 1] == w.h.bursts;
    }
    MembersEmpty(w.h.open);
  }

  lemma {:induction false} RunKeepsOneTimer(w: World, actions: seq<Action>)
    requires OneTimerSince(w) && Covered(w) && Conserved(w)
    ensures OneTimerSince(Run(w, actions))
    decreases |actions|
  {
    if actions != [] {
      var next := w;
      if Enabled(w, actions[0]) {
        next := Step(w, actions[0]);
        StepKeepsOneTimer(w, actions[0]);
      }
      assert next == Run(w, [actions[0]]);
      RunConserves(w, [actions[0]]);
      RunKeepsOneTimer(next, actions[1..]);
    }
  }

  // The timer with number t was armed by enqueue number t. One that can fire is that of the latest
  // enqueue, unless it was armed before an emit dropped the reference.
  lemma OnlyTheLatestTimerRuns(actions: seq<Action>, t: nat)
    ensures var w := Run(Start(), actions);
      && w.s.agenda.nextTimer == |Flat(w.h.bursts)| + |w.h.open|
      && (Enabled(w, FireTimer(t)) ==> t < w.h.epoch || t + 1 == w.s.agenda.nextTimer)
  {
    RunConserves(Start(), actions);
    RunKeepsOneTimer(Start(), actions);
  }

  predicate NoEmit(actions: seq<Action>) {
    forall i | 0 <= i < |actions| :: actions[i] != RunEmit
  }

  lemma {:induction false} NoEmitNoEpoch(w: World, actions: seq<Action>)
    requires NoEmit(actions) && w.h.epoch == 0 && w.h.bursts == []
    ensures Run(w, actions).h.epoch == 0 && Run(w, actions).h.bursts == []
    decreases |actions|
  {
    if actions != [] {
      NoEmitNoEpoch(if Enabled(w, actions[0]) then Step(w, actions[0]) else w, actions[1..]);
    }
  }

  // As long as no emit has run, the only timer that can fire is that of the very last enqueue, however
  // many there were; and the first emit to run delivers them all as one batch.
  lemma BurstIsOneBatch(actions: seq<Action>, t: nat)
    requires NoEmit(actions)
    ensures var w := Run(Start(), actions);
      && (Enabled(w, FireTimer(t)) ==> t + 1 == |w.h.open|)
      && (Enabled(w, RunEmit) && w.h.open != [] ==> Step(w, RunEmit).h.delivered == [Members(w.h.open)])
  {
    RunConserves(Start(), actions);
    OnlyTheLatestTimerRuns(actions, t);
    NoEmitNoEpoch(Start(), actions);
    MembersEmpty(Run(Start(), actions).h.open);
  }

  function Work(w: World): nat {
    3 * |w.s.agenda.inbox| + 2 * |w.s.agenda.live| + w.s.agenda.queuedEmits
  }

  // Every callback, timer and emit is work done.
  lemma StepWorks(w: World, a: Action)
    requires Covered(w) && Enabled(w, a) && !a.Push?
    ensures Covered(Step(w, a)) && Work(Step(w, a)) < Work(w)
  {
    if a.RunCallback? {
      ArmingAddsOne(w.s.agenda, w.s.handle);
      assert Step(w, a).s.agenda.live == Armed(w.s.agenda, w.s.handle).live;
    }
  }

  lemma ArmingAddsOne(a: Agenda, superseded: Option<nat>)
    ensures |Armed(a, superseded).live| <= |a.live| + 1
  {
    var kept := if superseded.Some? then a.live - {superseded.value} else a.live;
    assert |kept| <= |a.live| && Armed(a, superseded).live == kept + {a.nextTimer};
  }

  lemma {:induction false} Drain(w: World) returns (actions: seq<Action>)
    requires Conserved(w) && Covered(w)
    ensures var end := Run(w, actions); end.h.pushed == w.h.pushed == Flat(end.h.bursts) && Conserved(end)
    ensures forall a <- actions :: !a.Push?
    decreases Work(w)
  {
    var next := RunEmit;
    if w.s.agenda.inbox != [] {
      next := RunCallback;
    } else if w.s.agenda.live != {} {
      var t :| t in w.s.agenda.live;
      next := FireTimer(t);
    } else if w.s.agenda.queuedEmits == 0 {
      MembersEmpty(w.h.open);
      return [];
    }
    StepConserves(w, next);
    StepWorks(w, next);
    var rest := Drain(Step(w, next));
    actions := [next] + rest;
    assert Run(w, actions) == Run(Step(w, next), rest);
  }

  // However the loop has been scheduled so far, letting it finish its agenda delivers every push.
  lemma EveryPushIsDeliverable(actions: seq<Action>) returns (more: seq<Action>)
    ensures forall a <- more :: !a.Push?
    ensures var end := Run(Start(), actions + more);
      && end.h.pushed == Run(Start(), actions).h.pushed
      && forall p | p in end.h.pushed :: exists i :: 0 <= i < |end.h.delivered| && p in end.h.delivered[i]
  {
    RunConserves(Start(), actions);
    more := Drain(Run(Start(), actions));
    RunAppend(Start(), actions, more);
    var end := Run(Start(), actions + more);
    forall p | p in end.h.pushed ensures exists i :: 0 <= i < |end.h.delivered| && p in end.h.delivered[i] {
      var i := BurstOf(end.h.bursts, p);
      assert p in Members(end.h.bursts[i]);
    }
  }

  lemma {:induction false} BurstOf(bursts: seq<seq<Path>>, p: Path) returns (i: nat)
    requires p in Flat(bursts)
    ensures i < |bursts| && p in bursts[i]
  {
    i := |bursts| - 1;
    if p !in bursts[i] {
      i := BurstOf(bursts[..i], p);
    }
  }
}
