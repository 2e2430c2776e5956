// The composed protocol never gets stuck: while both loops live, every waiting caller can return.
module WireProgress {
  import opened Basics
  import opened Wire
  import opened WireIdentity
  import opened WireReplies
  import opened WireWaiting
  import opened WireTheorems
  import opened WireProbes

  // Nothing is under way and both loops wait for a frame.
  predicate Quiet(s: Sys) {
    s.c2r == [] && s.r2c == [] && s.rloop == RIdle && s.cloop == CIdle
  }

  predicate BothLive(s: Sys) { ConnLive(s) && RtLive(s) }

  // ---- The work the loops still have: a request brings a reply, a reply brings nothing ----

  function OutboundCost(f: Envelope): nat { if IsClientOp(f.body) then 10 else 3 }

  function InboundCost(f: Envelope): nat { if f.idRef.Some? then 3 else 10 }

  function OutboundWork(q: seq<Envelope>): nat {
    if q == [] then 0 else OutboundCost(q[0]) + OutboundWork(q[1..])
  }

  function InboundWork(q: seq<Envelope>): nat {
    if q == [] then 0 else InboundCost(q[0]) + InboundWork(q[1..])
  }

  function RuntimeWork(l: RtLoop): nat {
    match l
    case RGot(env) => OutboundCost(env) - 1
    case RReply(_, _) => 4
    case _ => 0
  }

  function ConnectorWork(l: ConnLoop): nat {
    match l
    case CGot(env) => InboundCost(env) - 1
    case CReply(_) => 6
    case CAcked => 1
    case _ => 0
  }

  function Work(s: Sys): nat {
    OutboundWork(s.c2r) + InboundWork(s.r2c) + RuntimeWork(s.rloop) + ConnectorWork(s.cloop)
  }

  lemma {:induction false} OutboundAppend(q: seq<Envelope>, f: Envelope)
    ensures OutboundWork(q + [f]) == OutboundWork(q) + OutboundCost(f)
  {
    if q == [] {
      assert q + [f] == [f];
    } else {
      assert (q + [f])[1..] == q[1..] + [f];
      OutboundAppend(q[1..], f);
    }
  }

  lemma {:induction false} InboundAppend(q: seq<Envelope>, f: Envelope)
    ensures InboundWork(q + [f]) == InboundWork(q) + InboundCost(f)
  {
    if q == [] {
      assert q + [f] == [f];
    } else {
      assert (q + [f])[1..] == q[1..] + [f];
      InboundAppend(q[1..], f);
    }
  }

  // ---- One step of whichever loop has something to do ----

  function NextRt(s: Sys, k: MsgId): RtAction {
    if s.rloop.RReply? then RWriteReply(k) else if s.rloop.RGot? then RHandle(Null) else RRead
  }

  function NextConn(s: Sys, k: MsgId): ConnAction {
    if s.cloop.CReply? then CWriteReply(k, "healthy")
    else if s.cloop.CGot? then CHandle
    else if s.cloop.CAcked? then CRaiseCancelled
    else CRead
  }

  predicate RtIdle(s: Sys) { s.rloop == RIdle && s.c2r == [] }

  // Every future is as it was, or has been settled with a reply.
  ghost predicate Delivers(w: Waiters, w': Waiters) {
    && w'.futures.Keys == w.futures.Keys
    && forall id | id in w.futures ::
         w'.futures[id] == w.futures[id] || (IsUnsettled(w, id) && w'.futures[id].Value?)
  }

  // A loop step leaves the callers alone and settles futures only with replies.
  ghost predicate OnlyDelivers(s: Sys, t: Sys) {
    && t.calls == s.calls && t.probes == s.probes
    && Delivers(s.conn.waiters, t.conn.waiters) && Delivers(s.rt.waiters, t.rt.waiters)
  }

  lemma RtHandles(s: Sys)
    requires Identity(s) && Flow(s) && s.rloop.RGot?
    ensures Accepted(s.rloop.env.body)
    ensures IsClientOp(s.rloop.env.body) <==> Answer(s.store, s.rloop.env.body, Null).Some?
    ensures s.rloop.env.error == None
  {
    var i := |s.past.log|;
    assert s.past.sent[i] == s.rloop.env && Genuine(s.past.sent[i], s.calls, s.probes);
  }

  lemma RtGoesOn(s: Sys, k: MsgId)
    requires Identity(s) && Flow(s) && BothLive(s) && !RtIdle(s) && k !in s.used
    ensures var t := RtStep(s, NextRt(s, k));
      t.Some? && BothLive(t.value) && Work(t.value) < Work(s) && OnlyDelivers(s, t.value)
  {
    if s.rloop.RReply? {
      InboundAppend(s.r2c, Envelope(k, s.rloop.reply, Some(s.rloop.env.id), None));
    } else if s.rloop.RGot? {
      RtHandles(s);
    }
  }

  lemma ConnHandles(s: Sys)
    requires Replies(s) && s.cloop.CGot?
    ensures s.cloop.env.error == None && (s.cloop.env.idRef.Some? ==> !IsProbe(s.cloop.env.body))
  {
  }

  lemma ConnAcks(s: Sys, k: MsgId)
    requires BothLive(s) && s.cloop.CReply? && k !in s.used
    ensures var t := DoCWriteReply(s, k, "healthy");
      t.Some? && BothLive(t.value) && Work(t.value) < Work(s) && OnlyDelivers(s, t.value)
  {
    var ack := if s.cloop.env.body.Health? then HealthAck("healthy") else ShutdownAck;
    OutboundAppend(s.c2r, Envelope(k, ack, Some(s.cloop.env.id), None));
  }

  lemma ConnDelivers(s: Sys)
    requires Replies(s) && BothLive(s) && s.cloop.CGot?
    ensures var t := DoCHandle(s);
      t.Some? && BothLive(t.value) && Work(t.value) < Work(s) && OnlyDelivers(s, t.value)
  {
    ConnHandles(s);
  }

  lemma ConnGoesOn(s: Sys, k: MsgId)
    requires Replies(s) && BothLive(s) && !Quiet(s) && RtIdle(s) && k !in s.used
    ensures var t := ConnStep(s, NextConn(s, k));
      t.Some? && BothLive(t.value) && Work(t.value) < Work(s) && OnlyDelivers(s, t.value)
  {
    if s.cloop.CReply? {
      ConnAcks(s, k);
    } else if s.cloop.CGot? {
      ConnDelivers(s);
    }
  }

  lemma {:induction false} FreshId(used: set<MsgId>) returns (k: MsgId)
    ensures forall id | id in used :: id < k
    decreases used
  {
    k := 0;
    if used != {} {
      var top :| top in used;
      var rest := FreshId(used - {top});
      k := if top >= rest then top + 1 else rest;
      assert forall id | id in used :: id == top || id in used - {top};
    }
  }

  lemma LoopsGoOn(s: Sys) returns (a: Action)
    requires Inv(s) && BothLive(s) && !Quiet(s)
    ensures (a.ConnSide? || a.RtSide?) && Step(s, a).Some?
    ensures var t := Step(s, a).value; Inv(t) && BothLive(t) && Work(t) < Work(s) && OnlyDelivers(s, t)
  {
    var k := FreshId(s.used);
    if RtIdle(s) {
      ConnGoesOn(s, k);
      a := ConnSide(NextConn(s, k));
    } else {
      RtGoesOn(s, k);
      a := RtSide(NextRt(s, k));
    }
    StepKeepsInv(s, a);
  }

  // The loops can always finish what is under way.
  lemma {:induction false} LoopsCanFinish(s: Sys) returns (actions: seq<Action>)
    requires Inv(s) && BothLive(s)
    ensures Run(s, actions).Some?
    ensures var t := Run(s, actions).value; Inv(t) && BothLive(t) && Quiet(t) && OnlyDelivers(s, t)
    decreases Work(s)
  {
    if Quiet(s) {
      return [];
    }
    var a := LoopsGoOn(s);
    var next := Step(s, a).value;
    var rest := LoopsCanFinish(next);
    actions := [a] + rest;
    assert actions[0] == a && actions[1..] == rest;
    DeliversOn(s, next, Run(next, rest).value);
  }

  lemma DeliversOn(s: Sys, t: Sys, u: Sys)
    requires OnlyDelivers(s, t) && OnlyDelivers(t, u)
    ensures OnlyDelivers(s, u)
  {
  }

  // ---- The caller's own last steps ----

  lemma CallCanFinish(s: Sys, id: MsgId)
    requires InPhase(s.calls, id, Waiting) && id in s.conn.waiters.futures && !IsUnsettled(s.conn.waiters, id)
    ensures var t := Run(s, [Client(Collect(id)), Client(PopOwn(id)), Client(Release(id))]);
      && t.Some? && id in t.value.calls && t.value.calls[id].op == s.calls[id].op
      && t.value.calls[id].phase == Done(Collected(s.calls[id].op, s.conn.waiters.futures[id]))
  {
    var t1 := DoCollect(s, id).value;
    var t2 := DoPopOwn(t1, id).value;
    var t3 := DoRelease(t2, id).value;
    assert Run(t3, []) == Some(t3);
    assert Run(t2, [Client(Release(id))]) == Some(t3);
    assert Run(t1, [Client(PopOwn(id)), Client(Release(id))]) == Some(t3);
  }

  lemma ProbeCanFinish(s: Sys, id: MsgId)
    requires InPhase(s.probes, id, Waiting) && id in s.rt.waiters.futures && !IsUnsettled(s.rt.waiters, id)
    ensures var t := Run(s, [Probing(AskCollect(id)), Probing(AskPop(id))]);
      && t.Some? && id in t.value.probes && t.value.probes[id].op == s.probes[id].op
      && t.value.probes[id].phase == Done(Collected(s.probes[id].op, s.rt.waiters.futures[id]))
  {
    var t1 := DoAskCollect(s, id).value;
    var t2 := DoAskPop(t1, id).value;
    assert Run(t2, []) == Some(t2);
    assert Run(t1, [Probing(AskPop(id))]) == Some(t2);
  }

  // From every reachable state in which both loops live, a call that waits for its answer can go on to
  // return a reply of its own kind, without any step of another caller.
  lemma WaitingCallCanReturn(store: map<string, Json>, before: seq<Action>, s: Sys, id: MsgId)
    returns (after: seq<Action>, t: Sys)
    requires Run(Start(store), before) == Some(s) && BothLive(s) && Unanswered(s, id)
    ensures Run(s, after) == Some(t) && Returned(t, id) && Answers(s.calls[id].op, t.calls[id].phase.out.reply)
  {
    Reached(store, before, s);
    var loops := LoopsCanFinish(s);
    var u := Run(s, loops).value;
    var own := [Client(Collect(id)), Client(PopOwn(id)), Client(Release(id))];
    assert PlacedAt(u, id) && Places(u, id) == 0;
    CallCanFinish(u, id);
    RunJoins(s, loops, own);
    after := loops + own;
    t := Run(s, after).value;
    RunJoins(Start(store), before, after);
    CallReturnsItsOwnReply(store, before + after, t, id);
  }

  // The same for a health or shutdown request of the runtime.
  lemma WaitingProbeCanReturn(store: map<string, Json>, before: seq<Action>, s: Sys, id: MsgId)
    returns (after: seq<Action>, t: Sys)
    requires Run(Start(store), before) == Some(s) && BothLive(s) && Asking(s, id)
    ensures Run(s, after) == Some(t) && id in t.probes
    ensures t.probes[id].phase.Done? && t.probes[id].phase.out.Return?
    ensures Answers(s.probes[id].op, t.probes[id].phase.out.reply)
  {
    Reached(store, before, s);
    var loops := LoopsCanFinish(s);
    var u := Run(s, loops).value;
    var own := [Probing(AskCollect(id)), Probing(AskPop(id))];
    RunJoins(Start(store), before, loops);
    ReachedProbes(store, before + loops, u);
    assert ProbePlacedAt(u, id) && ProbePlaces(u, id) == 0;
    ProbeCanFinish(u, id);
    RunJoins(s, loops, own);
    after := loops + own;
    t := Run(s, after).value;
    RunJoins(Start(store), before, after);
    ProbeReturnsItsOwnAck(store, before + after, t, id);
  }

  // ---- Getting to wait ----

  // While the connector loop lives a call is refused exactly when 64 hold a slot, and then nothing is
  // written; otherwise it can go on to write its request and wait.
  lemma CallStartsOrIsRefused(store: map<string, Json>, before: seq<Action>, s: Sys, id: MsgId, op: Body)
    requires Run(Start(store), before) == Some(s) && ConnLive(s) && id !in s.used && IsClientOp(op)
    ensures |Holders(s.calls)| >= 64 ==>
      var t := DoBegin(s, id, op);
      t.Some? && InPhase(t.value.calls, id, Done(Raise(TooManyInFlight))) && t.value.c2r == s.c2r
    ensures |Holders(s.calls)| < 64 ==>
      var t := Run(s, [Client(Begin(id, op)), Client(Register(id)), Client(Write(id))]);
      t.Some? && Unanswered(t.value, id) && t.value.c2r == s.c2r + [Request(id, op)]
  {
    InFlightCountsHolders(store, before, s);
    if |Holders(s.calls)| < 64 {
      var t1 := DoBegin(s, id, op).value;
      CallWrites(t1, id, op);
      assert Run(s, [Client(Begin(id, op)), Client(Register(id)), Client(Write(id))])
          == Run(t1, [Client(Register(id)), Client(Write(id))]);
    }
  }

  lemma CallWrites(t1: Sys, id: MsgId, op: Body)
    requires id in t1.calls && t1.calls[id] == Call(op, HoldingSlot)
    ensures var t := Run(t1, [Client(Register(id)), Client(Write(id))]);
      t.Some? && Unanswered(t.value, id) && t.value.c2r == t1.c2r + [Request(id, op)]
  {
    var t2 := DoRegister(t1, id).value;
    var t3 := DoWrite(t2, id).value;
    assert Run(t3, []) == Some(t3);
    assert Run(t2, [Client(Write(id))]) == Some(t3);
  }

  // A log or metric record is one frame; a runtime request is one frame and then waits.
  lemma RecordsAndRequestsAreWritten(s: Sys, id: MsgId, op: Body)
    requires id !in s.used
    ensures op.Log? || op.Metric? ==>
      DoTell(s, id, op).Some? && DoTell(s, id, op).value.c2r == s.c2r + [Request(id, op)]
    ensures IsProbe(op) ==>
      var t := Run(s, [Probing(Ask(id, op)), Probing(AskWrite(id))]);
      t.Some? && Asking(t.value, id) && t.value.r2c == s.r2c + [Request(id, op)]
  {
    if IsProbe(op) {
      var t1 := DoAsk(s, id, op).value;
      var t2 := DoAskWrite(t1, id).value;
      assert Run(t2, []) == Some(t2);
      assert Run(t1, [Probing(AskWrite(id))]) == Some(t2);
    }
  }
}
