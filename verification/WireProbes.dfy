// Runtime requests: where an unanswered health or shutdown request is, and what its caller gets.
module WireProbes {
  import opened Basics
  import opened Wire
  import opened WireIdentity
  import opened WireReplies
  import opened WireWaiting
  import opened WireTheorems

  // ---- Where a waiting request is ----

  function InConnector(l: ConnLoop, id: MsgId): nat {
    if (l.CGot? || l.CReply?) && l.env.id == id then 1 else 0
  }

  function Returning(l: RtLoop, id: MsgId): nat {
    if l.RGot? then RefersTo(l.env, id) else 0
  }

  // Occurrences of a request: inbound channel, connector dispatch, outbound channel, runtime dispatch.
  function ProbePlaces(s: Sys, id: MsgId): nat {
    CountIds(s.r2c, id) + InConnector(s.cloop, id) + CountRefs(s.c2r, id) + Returning(s.rloop, id)
  }

  predicate Asking(s: Sys, id: MsgId) {
    InPhase(s.probes, id, Waiting) && IsUnsettled(s.rt.waiters, id)
  }

  // A frame for the connector carries an identifier drawn before; a reply does not carry a request's.
  predicate LabelledFrame(f: Envelope, used: set<MsgId>, probes: map<MsgId, Call>) {
    f.id in used && (f.idRef.Some? ==> f.id !in probes)
  }

  ghost predicate Labelled(s: Sys) {
    && (forall i | 0 <= i < |s.r2c| :: LabelledFrame(s.r2c[i], s.used, s.probes))
    && (s.cloop.CGot? || s.cloop.CReply? ==> LabelledFrame(s.cloop.env, s.used, s.probes))
  }

  ghost predicate ProbePlacedAt(s: Sys, id: MsgId) {
    && (id !in s.used ==> ProbePlaces(s, id) == 0)
    && (id in s.probes ==> ProbePlaces(s, id) <= 1)
    && (InPhase(s.probes, id, Registered) ==> ProbePlaces(s, id) == 0)
    && (ConnLive(s) && RtLive(s) && Asking(s, id) ==> ProbePlaces(s, id) == 1)
  }

  // ---- What its caller gets ----

  // The connector has written this answer to the request.
  ghost predicate Acked(sent: seq<Envelope>, id: MsgId, reply: Body) {
    exists i | 0 <= i < |sent| :: sent[i].idRef == Some(id) && sent[i].body == reply
  }

  ghost predicate RightAck(s: Sys, id: MsgId, reply: Body)
    requires id in s.probes
  {
    Acked(s.past.sent, id, reply) && Answers(s.probes[id].op, reply)
  }

  ghost predicate AnsweredAt(s: Sys, id: MsgId) {
    && (id in s.rt.waiters.futures && s.rt.waiters.futures[id].Value? ==>
          id in s.probes && RightAck(s, id, s.rt.waiters.futures[id].env.body))
    && (id in s.rt.waiters.futures && s.rt.waiters.futures[id].Exception? ==>
          s.rt.waiters.futures[id].cause != UnexpectedReply)
    && (id in s.probes && (s.probes[id].phase.Closing? || s.probes[id].phase.Releasing? || s.probes[id].phase.Done?) ==>
          match s.probes[id].phase.out
          case Return(v) => RightAck(s, id, v)
          case Raise(cause) => cause != UnexpectedReply)
  }

  ghost predicate ProbesOk(s: Sys) {
    Labelled(s) && (forall id :: ProbePlacedAt(s, id)) && (forall id :: AnsweredAt(s, id))
  }

  lemma AckedStays(sent: seq<Envelope>, f: Envelope, id: MsgId, reply: Body)
    requires Acked(sent, id, reply)
    ensures Acked(sent + [f], id, reply)
  {
    var i :| 0 <= i < |sent| && sent[i].idRef == Some(id) && sent[i].body == reply;
    assert (sent + [f])[i] == sent[i];
  }

  // ---- Client steps: one frame more on the outbound channel, referring to nothing ----

  lemma ClientFrame(s: Sys, a: ClientAction)
    requires Inv(s) && ClientStep(s, a).Some?
    ensures var t := ClientStep(s, a).value;
      && t.r2c == s.r2c && t.cloop == s.cloop && t.rloop == s.rloop && t.probes == s.probes && t.rt == s.rt
      && s.used <= t.used
      && ((t.c2r == s.c2r && t.past.sent == s.past.sent)
          || exists f: Envelope ::
               f.idRef == None && t.c2r == s.c2r + [f] && t.past.sent == s.past.sent + [f])
  {
    match a
    case Write(id) => assert Request(id, s.calls[id].op).idRef == None;
    case Tell(id, op) => assert Request(id, op).idRef == None;
    case _ =>
  }

  lemma ClientKeepsProbes(s: Sys, a: ClientAction)
    requires Inv(s) && ProbesOk(s) && ClientStep(s, a).Some?
    ensures ProbesOk(ClientStep(s, a).value)
  {
    ClientFrame(s, a);
    KeptByFrame(s, ClientStep(s, a).value);
  }

  lemma KeptByFrame(s: Sys, t: Sys)
    requires ProbesOk(s)
    requires t.r2c == s.r2c && t.cloop == s.cloop && t.rloop == s.rloop && t.probes == s.probes && t.rt == s.rt
    requires s.used <= t.used
    requires (t.c2r == s.c2r && t.past.sent == s.past.sent)
      || exists f: Envelope :: f.idRef == None && t.c2r == s.c2r + [f] && t.past.sent == s.past.sent + [f]
    ensures ProbesOk(t)
  {
    forall id ensures ProbePlacedAt(t, id) && AnsweredAt(t, id) {
      assert ProbePlacedAt(s, id) && AnsweredAt(s, id);
      if t.c2r != s.c2r {
        var f: Envelope :| f.idRef == None && t.c2r == s.c2r + [f] && t.past.sent == s.past.sent + [f];
        RefsAppend(s.c2r, f, id);
        AckKept(s, t, f, id);
      }
    }
  }

  // One more written frame keeps every answer.
  lemma AckKept(s: Sys, t: Sys, f: Envelope, id: MsgId)
    requires AnsweredAt(s, id) && t.probes == s.probes && t.rt.waiters == s.rt.waiters
    requires t.past.sent == s.past.sent + [f]
    ensures AnsweredAt(t, id)
  {
    forall reply | Acked(s.past.sent, id, reply) ensures Acked(t.past.sent, id, reply) {
      AckedStays(s.past.sent, f, id, reply);
    }
  }

  // ---- Connector steps: the request moves from the inbound channel to the acknowledgement ----

  // The frame in hand, if it carries a request's identifier, is that request.
  lemma RequestInHand(s: Sys, env: Envelope)
    requires Inv(s) && Labelled(s) && s.cloop == CGot(env) && env.id in s.probes
    ensures IsProbe(env.body) && env.error == None
  {
    assert ToConnector(env, s.calls, s.probes, s.past.log, s.past.at);
  }

  lemma AckPlaces(s: Sys, k: MsgId, status: string, id: MsgId)
    requires DoCWriteReply(s, k, status).Some?
    ensures ProbePlaces(DoCWriteReply(s, k, status).value, id) == ProbePlaces(s, id)
  {
    var ack := if s.cloop.env.body.Health? then HealthAck(status) else ShutdownAck;
    RefsAppend(s.c2r, Envelope(k, ack, Some(s.cloop.env.id), None), id);
  }

  lemma HandledPlaces(s: Sys, id: MsgId)
    requires DoCHandle(s).Some?
    requires s.cloop.env.id == id ==> (id in s.probes ==> IsProbe(s.cloop.env.body) && s.cloop.env.error == None)
    ensures var t := DoCHandle(s).value;
      && ProbePlaces(t, id) <= ProbePlaces(s, id)
      && (id in s.probes ==> ProbePlaces(t, id) == ProbePlaces(s, id))
  {
  }

  lemma OtherConnPlaces(s: Sys, a: ConnAction, id: MsgId)
    requires ConnStep(s, a).Some? && !a.CHandle? && !a.CWriteReply?
    ensures var t := ConnStep(s, a).value;
      && ProbePlaces(t, id) <= ProbePlaces(s, id)
      && (ConnLive(t) ==> ProbePlaces(t, id) == ProbePlaces(s, id))
  {
  }

  lemma ConnPlaces(s: Sys, a: ConnAction, id: MsgId)
    requires Inv(s) && Labelled(s) && ConnStep(s, a).Some?
    ensures var t := ConnStep(s, a).value;
      && ProbePlaces(t, id) <= ProbePlaces(s, id)
      && (id in s.probes && ConnLive(t) ==> ProbePlaces(t, id) == ProbePlaces(s, id))
  {
    if a.CHandle? {
      if s.cloop.env.id == id && id in s.probes {
        RequestInHand(s, s.cloop.env);
      }
      HandledPlaces(s, id);
    } else if a.CWriteReply? {
      AckPlaces(s, a.id, a.status, id);
    } else {
      OtherConnPlaces(s, a, id);
    }
  }

  lemma ConnLabels(s: Sys, a: ConnAction)
    requires Labelled(s) && ConnStep(s, a).Some?
    ensures var t := ConnStep(s, a).value;
      && Labelled(t) && t.probes == s.probes && t.rt == s.rt && s.used <= t.used && t.rloop == s.rloop
      && (!a.CWriteReply? ==> t.past.sent == s.past.sent)
      && (ConnLive(t) ==> ConnLive(s))
  {
  }

  lemma ConnKeepsProbes(s: Sys, a: ConnAction)
    requires Inv(s) && ProbesOk(s) && ConnStep(s, a).Some?
    ensures ProbesOk(ConnStep(s, a).value)
  {
    var t := ConnStep(s, a).value;
    ConnLabels(s, a);
    forall id ensures ProbePlacedAt(t, id) && AnsweredAt(t, id) {
      assert ProbePlacedAt(s, id) && AnsweredAt(s, id);
      ConnPlaces(s, a, id);
      ConnAnswers(s, a, id);
    }
  }

  lemma ConnAnswers(s: Sys, a: ConnAction, id: MsgId)
    requires AnsweredAt(s, id) && ConnStep(s, a).Some?
    ensures AnsweredAt(ConnStep(s, a).value, id)
  {
    if a.CWriteReply? {
      var ack := if s.cloop.env.body.Health? then HealthAck(a.status) else ShutdownAck;
      AckKept(s, ConnStep(s, a).value, Envelope(a.id, ack, Some(s.cloop.env.id), None), id);
    }
  }

  // ---- Runtime steps: the acknowledgement moves to the caller's future ----

  lemma ReplyPlaces(s: Sys, k: MsgId, id: MsgId)
    requires DoRWriteReply(s, k).Some?
    ensures ProbePlaces(DoRWriteReply(s, k).value, id) == ProbePlaces(s, id) + if k == id then 1 else 0
  {
    IdsAppend(s.r2c, Envelope(k, s.rloop.reply, Some(s.rloop.env.id), None), id);
  }

  lemma RtProbePlaces(s: Sys, a: RtAction, id: MsgId)
    requires RtStep(s, a).Some? && !a.RWriteReply?
    ensures var t := RtStep(s, a).value;
      && ProbePlaces(t, id) <= ProbePlaces(s, id)
      && (RtLive(t) && !(a.RHandle? && Returning(s.rloop, id) == 1) ==> ProbePlaces(t, id) == ProbePlaces(s, id))
  {
  }

  // A future changes only by being settled: with the frame in hand, or with a failure.
  lemma RtSettles(s: Sys, a: RtAction, id: MsgId)
    requires RtStep(s, a).Some?
    ensures var w, w' := s.rt.waiters, RtStep(s, a).value.rt.waiters;
      && (id in w'.futures ==> id in w.futures)
      && (id in w'.futures && w'.futures[id] != w.futures[id] ==>
            || (s.rloop.RGot? && s.rloop.env.idRef == Some(id) && w'.futures[id] == Settlement(s.rloop.env))
            || (Failing(s, a).Some? && w'.futures[id] == Exception(Failing(s, a).value)))
  {
    RtWaiters(s, a);
  }

  lemma FailingIsNoReply(s: Sys, a: RtAction)
    requires RtStep(s, a).Some? && Failing(s, a).Some?
    ensures Failing(s, a).value != UnexpectedReply
  {
  }

  // The acknowledgement in hand settles the request it refers to, if that still waits.
  lemma AckArrives(s: Sys, result: Json, id: MsgId)
    requires WaitersOk(s) && RtStep(s, RHandle(result)).Some? && s.rloop.env.idRef == Some(id)
    ensures !Asking(RtStep(s, RHandle(result)).value, id)
  {
    RtWaiters(s, RHandle(result));
  }

  lemma RtLabels(s: Sys, a: RtAction)
    requires s.probes.Keys <= s.used && Labelled(s) && RtStep(s, a).Some?
    ensures Labelled(RtStep(s, a).value)
  {
  }

  lemma RtUses(s: Sys, a: RtAction)
    requires s.probes.Keys <= s.used && RtStep(s, a).Some?
    ensures var t := RtStep(s, a).value;
      && t.probes == s.probes && s.used <= t.used && t.cloop == s.cloop && (RtLive(t) ==> RtLive(s))
      && (a.RWriteReply? ==> t.used == s.used + {a.id} && a.id !in s.used && a.id !in s.probes)
  {
  }

  lemma RtKeepsProbes(s: Sys, a: RtAction)
    requires Inv(s) && ProbesOk(s) && RtStep(s, a).Some?
    ensures ProbesOk(RtStep(s, a).value)
  {
    RtLabels(s, a);
    forall id ensures ProbePlacedAt(RtStep(s, a).value, id) && AnsweredAt(RtStep(s, a).value, id) {
      assert ProbePlacedAt(s, id) && AnsweredAt(s, id);
      RtAnswers(s, a, id);
      RtPlacedAt(s, a, id);
    }
  }

  lemma RtPlacedAt(s: Sys, a: RtAction, id: MsgId)
    requires s.probes.Keys <= s.used && ProbePlacedAt(s, id) && RtStep(s, a).Some?
    requires a.RHandle? && Returning(s.rloop, id) == 1 && Asking(s, id) ==> !Asking(RtStep(s, a).value, id)
    ensures ProbePlacedAt(RtStep(s, a).value, id)
  {
    var t := RtStep(s, a).value;
    RtUses(s, a);
    RtStaysAsked(s, a, id);
    if a.RWriteReply? {
      ReplyPlaces(s, a.id, id);
    } else {
      RtProbePlaces(s, a, id);
    }
    assert ProbePlaces(t, id) <= ProbePlaces(s, id) + if id in t.used && id !in s.used then 1 else 0;
  }

  lemma RtStaysAsked(s: Sys, a: RtAction, id: MsgId)
    requires RtStep(s, a).Some?
    ensures Asking(RtStep(s, a).value, id) ==> Asking(s, id)
  {
    RtWaiters(s, a);
  }

  lemma RtAnswers(s: Sys, a: RtAction, id: MsgId)
    requires Identity(s) && Flow(s) && WaitersOk(s) && AnsweredAt(s, id) && RtStep(s, a).Some?
    ensures AnsweredAt(RtStep(s, a).value, id)
    ensures a.RHandle? && Returning(s.rloop, id) == 1 && Asking(s, id) ==> !Asking(RtStep(s, a).value, id)
  {
    var t := RtStep(s, a).value;
    RtSettles(s, a, id);
    RtKeepsSent(s, a);
    if Failing(s, a).Some? {
      FailingIsNoReply(s, a);
    }
    if s.rloop.RGot? && s.rloop.env.idRef == Some(id) {
      AckInHand(s, id);
      if a.RHandle? {
        AckArrives(s, a.result, id);
      }
    }
  }

  lemma RtKeepsSent(s: Sys, a: RtAction)
    requires RtStep(s, a).Some?
    ensures RtStep(s, a).value.past.sent == s.past.sent && RtStep(s, a).value.probes == s.probes
  {
  }

  lemma AckInHand(s: Sys, id: MsgId)
    requires Identity(s) && Flow(s) && s.rloop.RGot? && s.rloop.env.idRef == Some(id)
    ensures Settlement(s.rloop.env) == Value(s.rloop.env) && id in s.probes && RightAck(s, id, s.rloop.env.body)
  {
    var i := |s.past.log|;
    assert s.past.sent[i] == s.rloop.env && Genuine(s.past.sent[i], s.calls, s.probes);
  }

  // ---- Request steps ----

  lemma ProbePlacesStep(s: Sys, a: ProbeAction, id: MsgId)
    requires ProbeStep(s, a).Some?
    ensures ProbePlaces(ProbeStep(s, a).value, id)
         == ProbePlaces(s, id) + if a.AskWrite? && a.id == id then 1 else 0
  {
    if a.AskWrite? {
      IdsAppend(s.r2c, Request(a.id, s.probes[a.id].op), id);
    }
  }

  lemma ProbeLabels(s: Sys, a: ProbeAction)
    requires s.probes.Keys <= s.used && Labelled(s) && ProbeStep(s, a).Some?
    ensures Labelled(ProbeStep(s, a).value)
  {
  }

  lemma ProbePlacedStep(s: Sys, a: ProbeAction, id: MsgId)
    requires s.probes.Keys <= s.used && ProbePlacedAt(s, id) && ProbeStep(s, a).Some?
    ensures ProbePlacedAt(ProbeStep(s, a).value, id)
  {
    ProbePlacesStep(s, a, id);
    ProbeTouchesOne(s, a);
  }

  lemma ProbeAnswersStep(s: Sys, a: ProbeAction, id: MsgId)
    requires AnsweredAt(s, id) && ProbeStep(s, a).Some?
    ensures AnsweredAt(ProbeStep(s, a).value, id)
  {
    ProbeTouchesOne(s, a);
    assert ProbeStep(s, a).value.past == s.past;
  }

  lemma ProbeKeepsProbes(s: Sys, a: ProbeAction)
    requires Inv(s) && ProbesOk(s) && ProbeStep(s, a).Some?
    ensures ProbesOk(ProbeStep(s, a).value)
  {
    ProbeLabels(s, a);
    forall id ensures ProbePlacedAt(ProbeStep(s, a).value, id) && AnsweredAt(ProbeStep(s, a).value, id) {
      assert ProbePlacedAt(s, id) && AnsweredAt(s, id);
      ProbePlacedStep(s, a, id);
      ProbeAnswersStep(s, a, id);
    }
  }

  // ---- Every run ----

  lemma {:induction false} RunKeepsProbes(s: Sys, actions: seq<Action>)
    requires Inv(s) && ProbesOk(s) && Run(s, actions).Some?
    ensures ProbesOk(Run(s, actions).value)
    decreases |actions|
  {
    if actions != [] {
      match actions[0] {
        case Client(c) => ClientKeepsProbes(s, c);
        case ConnSide(l) => ConnKeepsProbes(s, l);
        case RtSide(r) => RtKeepsProbes(s, r);
        case Probing(p) => ProbeKeepsProbes(s, p);
      }
      StepKeepsInv(s, actions[0]);
      RunKeepsProbes(Step(s, actions[0]).value, actions[1..]);
    }
  }

  lemma ReachedProbes(store: map<string, Json>, actions: seq<Action>, s: Sys)
    requires Run(Start(store), actions) == Some(s)
    ensures ProbesOk(s)
  {
    StartInv(store);
    forall id ensures ProbePlacedAt(Start(store), id) && AnsweredAt(Start(store), id) {}
    RunKeepsProbes(Start(store), actions);
  }

  // While both loops live, a health or shutdown request still waiting for its answer is in exactly one
  // place: on its way in, in the connector's hands, or its acknowledgement on the way back.
  lemma WaitingProbeIsInOnePlace(store: map<string, Json>, actions: seq<Action>, s: Sys, id: MsgId)
    requires Run(Start(store), actions) == Some(s)
    requires ConnLive(s) && RtLive(s) && Asking(s, id)
    ensures CountIds(s.r2c, id) + InConnector(s.cloop, id) + CountRefs(s.c2r, id) + Returning(s.rloop, id) == 1
  {
    ReachedProbes(store, actions, s);
    assert ProbePlacedAt(s, id);
  }

  // A health or shutdown request that returns got what the connector wrote in answer to it, of the kind
  // it insists on; it never sees a reply of the wrong kind.
  lemma ProbeReturnsItsOwnAck(store: map<string, Json>, actions: seq<Action>, s: Sys, id: MsgId)
    requires Run(Start(store), actions) == Some(s) && id in s.probes && s.probes[id].phase.Done?
    ensures s.probes[id].phase.out != Raise(UnexpectedReply)
    ensures s.probes[id].phase.out.Return? ==>
      var reply := s.probes[id].phase.out.reply;
      && (exists i | 0 <= i < |s.past.sent| :: s.past.sent[i].idRef == Some(id) && s.past.sent[i].body == reply)
      && (if s.probes[id].op == Health then reply.HealthAck? else s.probes[id].op == Shutdown && reply == ShutdownAck)
  {
    ReachedProbes(store, actions, s);
    Reached(store, actions, s);
    assert AnsweredAt(s, id);
  }

  // A caller leaves with what its future holds: the reply if it is of the right kind, or the failure.
  lemma CallersCollectTheirFutures(s: Sys, id: MsgId)
    ensures DoCollect(s, id).Some? ==>
      Gives(s.conn.waiters.futures[id], s.calls[id].op, DoCollect(s, id).value.calls[id].phase)
    ensures DoAskCollect(s, id).Some? ==>
      Gives(s.rt.waiters.futures[id], s.probes[id].op, DoAskCollect(s, id).value.probes[id].phase)
  {
  }

  // A caller that gives up leaves with the cause. Its future is withdrawn if it was waiting for it, or
  // stays as it was if it had not got that far.
  lemma AbandonedCallsGiveUp(s: Sys, id: MsgId, cause: Failure, withdraw: bool)
    ensures DoAbandon(s, id, cause, withdraw).Some? ==>
      var t := DoAbandon(s, id, cause, withdraw).value;
      && InPhase(t.calls, id, Closing(Raise(cause))) && t.conn.waiters.pending == s.conn.waiters.pending
      && t.conn.waiters.futures == Withdrawing(s.conn.waiters.futures, id, withdraw)
    ensures DoAskAbandon(s, id, cause).Some? ==>
      var t := DoAskAbandon(s, id, cause).value;
      && InPhase(t.probes, id, Closing(Raise(cause))) && t.rt.waiters.pending == s.rt.waiters.pending
      && t.rt.waiters.futures == Withdrawing(s.rt.waiters.futures, id, cause != WriteFailed)
  {
  }

  function Withdrawing(futures: map<MsgId, Future>, id: MsgId, withdraw: bool): map<MsgId, Future> {
    if withdraw && id in futures && futures[id].Unsettled? then futures[id := Withdrawn] else futures
  }

  predicate Gives(f: Future, op: Body, p: Phase) {
    match f
    case Unsettled => false
    case Value(env) => p == Closing(if Answers(op, env.body) then Return(env.body) else Raise(UnexpectedReply))
    case Exception(cause) => p == Closing(Raise(cause))
    case Withdrawn => p == Closing(Raise(Cancelled))
  }
}
