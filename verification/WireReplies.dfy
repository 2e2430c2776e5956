// Order of handling, and which reply reaches which caller.
module WireReplies {
  import opened Basics
  import opened Wire
  import opened WireIdentity

  // ---- Wire order ----

  function Current(l: RtLoop): seq<Envelope> {
    if l.RGot? then [l.env] else []
  }

  function Envelopes(log: seq<Handled>): seq<Envelope> {
    seq(|log|, i requires 0 <= i < |log| => log[i].env)
  }

  // The handled frames are a prefix of what was written, the unread ones a suffix, and while the
  // runtime loop lives nothing lies between them but the frame being dispatched.
  ghost predicate FlowOf(sent: seq<Envelope>, log: seq<Handled>, l: RtLoop, c2r: seq<Envelope>) {
    && |log| + |Current(l)| + |c2r| <= |sent|
    && (forall i | 0 <= i < |log| :: log[i].env == sent[i])
    && (forall i | 0 <= i < |c2r| :: c2r[i] == sent[|sent| - |c2r| + i])
    && (l.RGot? ==> l.env == sent[|log|])
    && (!l.RFailing? && !l.REnded? ==> |log| + |Current(l)| + |c2r| == |sent|)
    && (l.RReply? ==> |log| > 0 && log[|log| - 1].env == l.env && log[|log| - 1].reply == Some(l.reply))
  }

  ghost predicate Flow(s: Sys) { FlowOf(s.past.sent, s.past.log, s.rloop, s.c2r) }

  lemma FlowClient(s: Sys, a: ClientAction)
    requires Flow(s) && ClientStep(s, a).Some?
    ensures Flow(ClientStep(s, a).value)
  {
  }

  lemma FlowConn(s: Sys, a: ConnAction)
    requires Flow(s) && ConnStep(s, a).Some?
    ensures Flow(ConnStep(s, a).value)
  {
  }

  // The log entry of the frame now being dispatched.
  function Taken(s: Sys, result: Json): Handled
    requires s.rloop.RGot?
  {
    Handled(s.rloop.env, result, Answer(s.store, s.rloop.env.body, result))
  }

  lemma ReadKeepsFlow(sent: seq<Envelope>, log: seq<Handled>, c2r: seq<Envelope>)
    requires FlowOf(sent, log, RIdle, c2r) && c2r != []
    ensures FlowOf(sent, log, RGot(c2r[0]), c2r[1..])
  {
  }

  lemma HandleKeepsFlow(sent: seq<Envelope>, log: seq<Handled>, env: Envelope, c2r: seq<Envelope>, h: Handled,
                        l: RtLoop)
    requires FlowOf(sent, log, RGot(env), c2r) && h.env == env
    requires l == if h.reply.Some? then RReply(env, h.reply.value) else RIdle
    ensures FlowOf(sent, log + [h], l, c2r)
  {
  }

  lemma FlowRt(s: Sys, a: RtAction)
    requires Flow(s) && RtStep(s, a).Some?
    ensures Flow(RtStep(s, a).value)
  {
    if a.RRead? {
      ReadKeepsFlow(s.past.sent, s.past.log, s.c2r);
    } else if a.RHandle? && Accepted(s.rloop.env.body) {
      HandleKeepsFlow(s.past.sent, s.past.log, s.rloop.env, s.c2r, Taken(s, a.result), RtStep(s, a).value.rloop);
    }
  }

  lemma FlowProbe(s: Sys, a: ProbeAction)
    requires Flow(s) && ProbeStep(s, a).Some?
    ensures Flow(ProbeStep(s, a).value)
  {
  }

  // ---- Replies ----

  // `at` finds the log entry of every handled frame.
  ghost predicate Indexed(log: seq<Handled>, at: map<MsgId, nat>) {
    && (forall id | id in at :: at[id] < |log| && log[at[id]].env.id == id)
    && (forall i | 0 <= i < |log| :: log[i].env.id in at && at[log[i].env.id] == i)
  }

  // The handler ran for request `id` and `reply` is what it produced.
  ghost predicate Answered(id: MsgId, reply: Body, log: seq<Handled>, at: map<MsgId, nat>) {
    id in at && at[id] < |log| && log[at[id]].reply == Some(reply)
  }

  // A runtime-written frame is a probe, or the reply to one of the connector's calls.
  ghost predicate ToConnector(f: Envelope, calls: map<MsgId, Call>, probes: map<MsgId, Call>, log: seq<Handled>,
                              at: map<MsgId, nat>) {
    && f.error == None
    && match f.idRef
       case None => IsProbeFrame(f, probes)
       case Some(id) => id in calls && Answered(id, f.body, log, at) && !IsProbe(f.body)
  }

  ghost predicate InTransit(calls: map<MsgId, Call>, probes: map<MsgId, Call>, log: seq<Handled>, at: map<MsgId, nat>,
                            r2c: seq<Envelope>, cl: ConnLoop, rl: RtLoop)
  {
    && (forall i | 0 <= i < |r2c| :: ToConnector(r2c[i], calls, probes, log, at))
    && (cl.CGot? ==> ToConnector(cl.env, calls, probes, log, at))
    && (cl.CReply? ==> IsProbeFrame(cl.env, probes))
    && (rl.RReply? ==> rl.env.id in calls && Answered(rl.env.id, rl.reply, log, at) && Answers(rl.env.body, rl.reply))
  }

  // What a settled future may hold.
  ghost predicate Delivered(id: MsgId, f: Future, log: seq<Handled>, at: map<MsgId, nat>) {
    match f
    case Value(env) => Answered(id, env.body, log, at)
    case Exception(cause) => cause == StreamClosed || cause == MessageTooLarge || cause == Malformed
    case _ => true
  }

  // What a finished call may report.
  ghost predicate Reported(id: MsgId, c: Call, log: seq<Handled>, at: map<MsgId, nat>) {
    (c.phase.Closing? || c.phase.Releasing? || c.phase.Done?) ==>
      match c.phase.out
      case Return(v) => Answered(id, v, log, at) && Answers(c.op, v)
      case Raise(cause) => cause != UnexpectedReply
  }

  ghost predicate DeliveriesOf(calls: map<MsgId, Call>, futures: map<MsgId, Future>, log: seq<Handled>,
                               at: map<MsgId, nat>) {
    && futures.Keys <= calls.Keys
    && (forall id | id in futures :: Delivered(id, futures[id], log, at))
    && (forall id | id in calls :: Reported(id, calls[id], log, at))
  }

  ghost predicate Replies(s: Sys) {
    && Indexed(s.past.log, s.past.at)
    && (forall i | 0 <= i < |s.past.log| && s.past.log[i].reply.Some? ::
        Answers(s.past.log[i].env.body, s.past.log[i].reply.value))
    && InTransit(s.calls, s.probes, s.past.log, s.past.at, s.r2c, s.cloop, s.rloop)
    && DeliveriesOf(s.calls, s.conn.waiters.futures, s.past.log, s.past.at)
  }

  // A reply taken from the log of a call's own request is of the kind that call insists on.
  lemma OwnReplyFits(s: Sys, id: MsgId, reply: Body)
    requires Identity(s) && Flow(s) && Replies(s) && id in s.calls && Answered(id, reply, s.past.log, s.past.at)
    ensures s.past.log[s.past.at[id]].env == Request(id, s.calls[id].op)
    ensures Answers(s.calls[id].op, reply)
  {
    assert s.past.sent[s.past.at[id]] == s.past.log[s.past.at[id]].env;
    assert Genuine(s.past.sent[s.past.at[id]], s.calls, s.probes);
  }

  // Calls and probes may be added and may advance; what is in transit stays accounted for.
  lemma TransitFrame(calls: map<MsgId, Call>, probes: map<MsgId, Call>, log: seq<Handled>, at: map<MsgId, nat>,
                     r2c: seq<Envelope>, cl: ConnLoop, rl: RtLoop, calls': map<MsgId, Call>, probes': map<MsgId, Call>)
    requires InTransit(calls, probes, log, at, r2c, cl, rl)
    requires calls.Keys <= calls'.Keys
    requires forall id | id in probes :: id in probes' && probes'[id].op == probes[id].op
    ensures InTransit(calls', probes', log, at, r2c, cl, rl)
  {
  }

  // One call changes, and perhaps its future.
  lemma DeliveryFrame(calls: map<MsgId, Call>, futures: map<MsgId, Future>, log: seq<Handled>, at: map<MsgId, nat>,
                      id: MsgId, calls': map<MsgId, Call>, futures': map<MsgId, Future>)
    requires DeliveriesOf(calls, futures, log, at)
    requires forall k | k in calls' && k != id :: k in calls && calls'[k] == calls[k]
    requires calls.Keys <= calls'.Keys
    requires id in calls' ==> Reported(id, calls'[id], log, at)
    requires forall k | k in futures' && k != id :: k in futures && futures'[k] == futures[k]
    requires id in futures' ==> id in calls' && Delivered(id, futures'[id], log, at)
    ensures DeliveriesOf(calls', futures', log, at)
  {
  }

  // A client step touches one call, its future and what the connector sends; nothing else.
  ghost predicate OneCallChanged(s: Sys, t: Sys, id: MsgId) {
    && t.probes == s.probes && t.past.log == s.past.log && t.past.at == s.past.at && t.r2c == s.r2c
        && t.cloop == s.cloop && t.rloop == s.rloop
    && s.calls.Keys <= t.calls.Keys
    && (forall k | k in t.calls && k != id :: k in s.calls && t.calls[k] == s.calls[k])
    && (forall k | k != id :: (k in t.conn.waiters.futures <==> k in s.conn.waiters.futures)
                           && (k in t.conn.waiters.pending <==> k in s.conn.waiters.pending))
    && (forall k | k in s.conn.waiters.futures && k != id :: t.conn.waiters.futures[k] == s.conn.waiters.futures[k])
  }

  lemma ClientTouchesOneCall(s: Sys, a: ClientAction)
    requires ClientStep(s, a).Some?
    ensures OneCallChanged(s, ClientStep(s, a).value, a.id)
  {
    match a
    case Begin(id, op) =>
    case Register(id) =>
    case Write(id) =>
    case Abandon(id, cause, withdraw) =>
    case Collect(id) =>
    case PopOwn(id) =>
    case Release(id) =>
    case Tell(id, op) =>
  }

  ghost predicate CallInOrder(t: Sys, id: MsgId) {
    && (id in t.calls ==> Reported(id, t.calls[id], t.past.log, t.past.at))
    && (id in t.conn.waiters.futures ==>
          id in t.calls && Delivered(id, t.conn.waiters.futures[id], t.past.log, t.past.at))
  }

  lemma CollectInOrder(s: Sys, id: MsgId)
    requires Identity(s) && Flow(s) && Replies(s) && DoCollect(s, id).Some?
    ensures CallInOrder(DoCollect(s, id).value, id)
  {
    var f := s.conn.waiters.futures[id];
    assert Delivered(id, f, s.past.log, s.past.at);
    if f.Value? {
      OwnReplyFits(s, id, f.env.body);
    }
  }

  lemma QuietStepInOrder(s: Sys, a: ClientAction)
    requires ClientStep(s, a).Some? && !a.Collect? && CallInOrder(s, a.id)
    ensures CallInOrder(ClientStep(s, a).value, a.id)
  {
  }

  lemma ClientStepInOrder(s: Sys, a: ClientAction)
    requires Identity(s) && Flow(s) && Replies(s) && ClientStep(s, a).Some?
    ensures CallInOrder(ClientStep(s, a).value, a.id)
  {
    match a
    case Collect(id) => CollectInOrder(s, id);
    case _ => QuietStepInOrder(s, a);
  }

  lemma OneCallKeepsReplies(s: Sys, t: Sys, id: MsgId)
    requires Replies(s) && OneCallChanged(s, t, id) && CallInOrder(t, id)
    ensures Replies(t)
  {
    TransitFrame(s.calls, s.probes, s.past.log, s.past.at, s.r2c, s.cloop, s.rloop, t.calls, t.probes);
    DeliveryFrame(s.calls, s.conn.waiters.futures, s.past.log, s.past.at, id, t.calls, t.conn.waiters.futures);
  }

  lemma RepliesClient(s: Sys, a: ClientAction)
    requires Identity(s) && Flow(s) && Replies(s) && ClientStep(s, a).Some?
    ensures Replies(ClientStep(s, a).value)
  {
    ClientTouchesOneCall(s, a);
    ClientStepInOrder(s, a);
    OneCallKeepsReplies(s, ClientStep(s, a).value, a.id);
  }

  lemma RepliesConn(s: Sys, a: ConnAction)
    requires Identity(s) && Flow(s) && Replies(s) && ConnStep(s, a).Some?
    ensures Replies(ConnStep(s, a).value)
  {
    if a.CHandle? {
      ResolvingKeepsReplies(s);
    } else {
      OtherConnKeepsReplies(s, a);
    }
  }

  lemma ResolvingKeepsReplies(s: Sys)
    requires Replies(s) && DoCHandle(s).Some?
    ensures Replies(DoCHandle(s).value)
  {
  }

  lemma OtherConnKeepsReplies(s: Sys, a: ConnAction)
    requires Replies(s) && ConnStep(s, a).Some? && !a.CHandle?
    ensures Replies(ConnStep(s, a).value)
  {
  }

  lemma LogGrows(s: Sys, h: Handled)
    requires Identity(s) && Flow(s) && Replies(s)
    requires s.rloop == RGot(h.env)
    ensures h.env.id !in s.past.at
    ensures Indexed(s.past.log + [h], s.past.at[h.env.id := |s.past.log|])
    ensures InTransit(s.calls, s.probes, s.past.log + [h], s.past.at[h.env.id := |s.past.log|], s.r2c, s.cloop, RIdle)
    ensures DeliveriesOf(s.calls, s.conn.waiters.futures, s.past.log + [h], s.past.at[h.env.id := |s.past.log|])
  {
    assert s.past.sent[|s.past.log|] == h.env;
    assert forall i | 0 <= i < |s.past.log| :: s.past.log[i].env.id != h.env.id;
    var log, at := s.past.log + [h], s.past.at[h.env.id := |s.past.log|];
    assert forall i | 0 <= i < |s.past.log| :: log[i] == s.past.log[i];
    assert forall id, v | Answered(id, v, s.past.log, s.past.at) :: Answered(id, v, log, at);
  }

  lemma HandlingKeepsReplies(s: Sys, result: Json)
    requires Identity(s) && Flow(s) && Replies(s) && s.rloop.RGot? && Accepted(s.rloop.env.body)
    ensures Replies(DoRHandle(s, result).value)
  {
    var t := DoRHandle(s, result).value;
    var env := s.rloop.env;
    var h := Taken(s, result);
    LogGrows(s, h);
    assert Genuine(s.past.sent[|s.past.log|], s.calls, s.probes);
    assert forall i | 0 <= i < |s.past.log| :: t.past.log[i] == s.past.log[i];
  }

  lemma RepliesRt(s: Sys, a: RtAction)
    requires Identity(s) && Flow(s) && Replies(s) && RtStep(s, a).Some?
    ensures Replies(RtStep(s, a).value)
  {
    if a.RHandle? && Accepted(s.rloop.env.body) {
      HandlingKeepsReplies(s, a.result);
    } else if a.RWriteReply? {
      ReplyingKeepsReplies(s, a.id);
    }
  }

  lemma ReplyingKeepsReplies(s: Sys, id: MsgId)
    requires Identity(s) && Replies(s) && DoRWriteReply(s, id).Some?
    ensures Replies(DoRWriteReply(s, id).value)
  {
    var frame := Envelope(id, s.rloop.reply, Some(s.rloop.env.id), None);
    assert ToConnector(frame, s.calls, s.probes, s.past.log, s.past.at);
  }

  lemma RepliesProbe(s: Sys, a: ProbeAction)
    requires Identity(s) && Flow(s) && Replies(s) && ProbeStep(s, a).Some?
    ensures Replies(ProbeStep(s, a).value)
  {
    var t := ProbeStep(s, a).value;
    TransitFrame(s.calls, s.probes, s.past.log, s.past.at, s.r2c, s.cloop, s.rloop, t.calls, t.probes);
  }
}
