// What every run of the composed protocol keeps, and what a returning caller can rely on.
module WireTheorems {
  import opened Basics
  import opened Wire
  import opened WireIdentity
  import opened WireReplies
  import opened WireWaiting

  // ---- The store ----

  function Replay(store0: map<string, Json>, log: seq<Handled>): map<string, Json> {
    if log == [] then store0 else Effect(Replay(store0, log[..|log| - 1]), log[|log| - 1].env.body)
  }

  predicate Sets(h: Handled, key: string) { h.env.body.SetState? && h.env.body.key == key }

  // The value of `key` is the one given by the last set of it among `log`, else the initial one.
  ghost predicate IsCurrent(store0: map<string, Json>, log: seq<Handled>, key: string, found: Option<Json>) {
    || (exists i | 0 <= i < |log| :: Sets(log[i], key) && found == Some(log[i].env.body.value)
                                     && forall j | i < j < |log| :: !Sets(log[j], key))
    || ((forall j | 0 <= j < |log| :: !Sets(log[j], key)) && found == if key in store0 then Some(store0[key]) else None)
  }

  function Lookup(store: map<string, Json>, key: string): Option<Json> {
    if key in store then Some(store[key]) else None
  }

  lemma {:induction false} ReplayIsLastSet(store0: map<string, Json>, log: seq<Handled>, key: string)
    ensures IsCurrent(store0, log, key, Lookup(Replay(store0, log), key))
  {
    if log != [] {
      var n := |log| - 1;
      ReplayIsLastSet(store0, log[..n], key);
      if !Sets(log[n], key) && exists j | 0 <= j < n :: Sets(log[j], key) {
        var i :| 0 <= i < n && Sets(log[..n][i], key)
                 && Lookup(Replay(store0, log), key) == Some(log[..n][i].env.body.value)
                 && forall j | i < j < n :: !Sets(log[..n][j], key);
        assert forall j | i < j < |log| :: !Sets(log[j], key) by {
          forall j | i < j < |log| ensures !Sets(log[j], key) {
            if j < n { assert !Sets(log[..n][j], key); }
          }
        }
        assert Sets(log[i], key);
      }
    }
  }

  // Each logged reply is right for its request: the handler's own result for an emit, the store as
  // the earlier sets left it for a read.
  ghost predicate RightReply(store0: map<string, Json>, log: seq<Handled>, i: nat)
    requires i < |log|
  {
    log[i].reply == match log[i].env.body
      case Emit(_) => Some(EmitAck(log[i].result))
      case SetState(_, _) => Some(SetStateAck)
      case GetState(key) => Some(GetStateAck(Lookup(Replay(store0, log[..i]), key)))
      case _ => None
  }

  ghost predicate RightReplies(store0: map<string, Json>, log: seq<Handled>) {
    forall i | 0 <= i < |log| :: RightReply(store0, log, i)
  }

  ghost predicate StoreOk(s: Sys) {
    && (RtLive(s) ==> s.store == Replay(s.past.store0, s.past.log))
    && RightReplies(s.past.store0, s.past.log)
  }

  lemma StoreClient(s: Sys, a: ClientAction)
    requires StoreOk(s) && ClientStep(s, a).Some?
    ensures StoreOk(ClientStep(s, a).value)
  {
  }

  lemma StoreConn(s: Sys, a: ConnAction)
    requires StoreOk(s) && ConnStep(s, a).Some?
    ensures StoreOk(ConnStep(s, a).value)
  {
  }

  lemma StoreProbe(s: Sys, a: ProbeAction)
    requires StoreOk(s) && ProbeStep(s, a).Some?
    ensures StoreOk(ProbeStep(s, a).value)
  {
  }

  lemma HandlingKeepsStore(store0: map<string, Json>, log: seq<Handled>, store: map<string, Json>, h: Handled)
    requires store == Replay(store0, log) && RightReplies(store0, log)
    requires h.reply == Answer(store, h.env.body, h.result)
    ensures Replay(store0, log + [h]) == Effect(store, h.env.body) && RightReplies(store0, log + [h])
  {
    var after := log + [h];
    assert after[..|log|] == log;
    forall i | 0 <= i < |after| ensures RightReply(store0, after, i) {
      if i < |log| {
        assert after[..i] == log[..i] && after[i] == log[i];
        assert RightReply(store0, log, i);
      }
    }
  }

  lemma StoreRt(s: Sys, a: RtAction)
    requires StoreOk(s) && RtStep(s, a).Some?
    ensures StoreOk(RtStep(s, a).value)
  {
    if a.RHandle? && Accepted(s.rloop.env.body) {
      HandlingKeepsStore(s.past.store0, s.past.log, s.store, Taken(s, a.result));
    }
  }

  // ---- Shutdown order and the fatal marker ----

  ghost predicate HasShutdownAck(sent: seq<Envelope>) {
    exists i | 0 <= i < |sent| :: sent[i].body.ShutdownAck?
  }

  ghost predicate Endings(s: Sys) {
    && (s.conn.cancelled || s.cloop.CAcked? ==> HasShutdownAck(s.past.sent))
    && (ConnLive(s) && HasShutdownAck(s.past.sent) ==> s.conn.cancelled || s.cloop.CAcked?)
    && (RtLive(s) ==> s.rt.fatal == None)
    && (s.rt.fatal.Some? ==> s.rt.fatal.value != UnknownKind)
  }

  lemma AckStays(sent: seq<Envelope>, f: Envelope)
    ensures HasShutdownAck(sent) || f.body.ShutdownAck? <==> HasShutdownAck(sent + [f])
  {
    var after := sent + [f];
    if i :| 0 <= i < |sent| && sent[i].body.ShutdownAck? {
      assert after[i].body.ShutdownAck?;
    } else {
      assert after[|sent|] == f;
    }
  }

  lemma EndingsClient(s: Sys, a: ClientAction)
    requires Endings(s) && Identity(s) && ClientStep(s, a).Some?
    ensures Endings(ClientStep(s, a).value)
  {
    match a
    case Write(id) => AckStays(s.past.sent, Request(id, s.calls[id].op));
    case Tell(id, op) => AckStays(s.past.sent, Request(id, op));
    case _ =>
  }

  lemma EndingsConn(s: Sys, a: ConnAction)
    requires Endings(s) && ConnStep(s, a).Some?
    ensures Endings(ConnStep(s, a).value)
  {
    if a.CWriteReply? {
      var ack := if s.cloop.env.body.Health? then HealthAck(a.status) else ShutdownAck;
      AckStays(s.past.sent, Envelope(a.id, ack, Some(s.cloop.env.id), None));
    }
  }

  lemma EndingsRt(s: Sys, a: RtAction)
    requires Endings(s) && Identity(s) && Flow(s) && RtStep(s, a).Some?
    ensures Endings(RtStep(s, a).value)
  {
    if a.RHandle? {
      assert Genuine(s.past.sent[|s.past.log|], s.calls, s.probes);
    }
  }

  // ---- The invariant of every run ----

  ghost predicate Traffic(s: Sys) { Identity(s) && Flow(s) && Replies(s) }

  ghost predicate Custody(s: Sys) { WaitersOk(s) && Slots(s) && Placed(s) && StoreOk(s) && Endings(s) }

  ghost predicate Inv(s: Sys) { Traffic(s) && Custody(s) }

  lemma StartInv(store: map<string, Json>)
    ensures Inv(Start(store))
  {
  }

  lemma ClientKeepsInv(s: Sys, a: ClientAction)
    requires Inv(s) && ClientStep(s, a).Some?
    ensures Inv(ClientStep(s, a).value)
  {
    IdentityClient(s, a);
    FlowClient(s, a);
    RepliesClient(s, a);
    WaitersClient(s, a);
    SlotsClient(s, a);
    StoreClient(s, a);
    EndingsClient(s, a);
    forall id ensures PlacedAt(ClientStep(s, a).value, id) { PlacedClientAt(s, a, id); }
  }

  lemma ConnKeepsInv(s: Sys, a: ConnAction)
    requires Inv(s) && ConnStep(s, a).Some?
    ensures Inv(ConnStep(s, a).value)
  {
    IdentityConn(s, a);
    FlowConn(s, a);
    RepliesConn(s, a);
    WaitersConn(s, a);
    SlotsConn(s, a);
    StoreConn(s, a);
    EndingsConn(s, a);
    forall id ensures PlacedAt(ConnStep(s, a).value, id) { PlacedConnAt(s, a, id); }
  }

  lemma RtKeepsTraffic(s: Sys, a: RtAction)
    requires Traffic(s) && RtStep(s, a).Some?
    ensures Traffic(RtStep(s, a).value)
  {
    IdentityRt(s, a);
    FlowRt(s, a);
    RepliesRt(s, a);
  }

  lemma RtKeepsSlots(s: Sys, a: RtAction)
    requires Slots(s) && RtStep(s, a).Some?
    ensures Slots(RtStep(s, a).value)
  {
  }

  lemma RtKeepsInv(s: Sys, a: RtAction)
    requires Inv(s) && RtStep(s, a).Some?
    ensures Inv(RtStep(s, a).value)
  {
    RtKeepsTraffic(s, a);
    RtKeepsSlots(s, a);
    WaitersRt(s, a);
    StoreRt(s, a);
    EndingsRt(s, a);
    forall id ensures PlacedAt(RtStep(s, a).value, id) { PlacedRtAt(s, a, id); }
  }

  lemma ProbeKeepsInv(s: Sys, a: ProbeAction)
    requires Inv(s) && ProbeStep(s, a).Some?
    ensures Inv(ProbeStep(s, a).value)
  {
    IdentityProbe(s, a);
    FlowProbe(s, a);
    RepliesProbe(s, a);
    WaitersProbe(s, a);
    StoreProbe(s, a);
    forall id ensures PlacedAt(ProbeStep(s, a).value, id) { PlacedProbeAt(s, a, id); }
  }

  lemma StepKeepsInv(s: Sys, a: Action)
    requires Inv(s) && Step(s, a).Some?
    ensures Inv(Step(s, a).value)
  {
    match a
    case Client(c) => ClientKeepsInv(s, c);
    case ConnSide(l) => ConnKeepsInv(s, l);
    case RtSide(r) => RtKeepsInv(s, r);
    case Probing(p) => ProbeKeepsInv(s, p);
  }

  lemma {:induction false} RunKeepsInv(s: Sys, actions: seq<Action>)
    requires Inv(s) && Run(s, actions).Some?
    ensures Inv(Run(s, actions).value)
    decreases |actions|
  {
    if actions != [] {
      StepKeepsInv(s, actions[0]);
      RunKeepsInv(Step(s, actions[0]).value, actions[1..]);
    }
  }

  // A run only adds to the history.
  ghost predicate Extends(s: Sys, t: Sys) {
    s.past.store0 == t.past.store0 && s.past.sent <= t.past.sent && s.past.log <= t.past.log
  }

  lemma StepExtends(s: Sys, a: Action)
    requires Step(s, a).Some?
    ensures Extends(s, Step(s, a).value)
  {
    match a
    case Client(c) => ClientExtends(s, c);
    case ConnSide(l) => ConnExtends(s, l);
    case RtSide(r) => RtExtends(s, r);
    case Probing(p) => ProbeExtends(s, p);
  }

  lemma ClientExtends(s: Sys, a: ClientAction)
    requires ClientStep(s, a).Some?
    ensures Extends(s, ClientStep(s, a).value)
  {
  }

  lemma ConnExtends(s: Sys, a: ConnAction)
    requires ConnStep(s, a).Some?
    ensures Extends(s, ConnStep(s, a).value)
  {
  }

  lemma ProbeExtends(s: Sys, a: ProbeAction)
    requires ProbeStep(s, a).Some?
    ensures Extends(s, ProbeStep(s, a).value)
  {
  }

  lemma RtExtends(s: Sys, a: RtAction)
    requires RtStep(s, a).Some?
    ensures Extends(s, RtStep(s, a).value)
  {
  }

  lemma {:induction false} RunExtends(s: Sys, actions: seq<Action>)
    requires Run(s, actions).Some?
    ensures Extends(s, Run(s, actions).value)
    decreases |actions|
  {
    if actions != [] {
      StepExtends(s, actions[0]);
      RunExtends(Step(s, actions[0]).value, actions[1..]);
    }
  }

  lemma Reached(store: map<string, Json>, actions: seq<Action>, s: Sys)
    requires Run(Start(store), actions) == Some(s)
    ensures Inv(s) && s.past.store0 == store
  {
    StartInv(store);
    RunKeepsInv(Start(store), actions);
    RunExtends(Start(store), actions);
  }

  // ---- Theorems: `s` is any state reached from the start ----

  lemma FlowIsOrder(sent: seq<Envelope>, log: seq<Handled>, l: RtLoop, c2r: seq<Envelope>)
    requires FlowOf(sent, log, l, c2r)
    ensures Envelopes(log) <= sent
    ensures !l.RFailing? && !l.REnded? ==> sent == Envelopes(log) + Current(l) + c2r
  {
  }

  // The frames handled are, in order, an initial part of the frames written: none is handled twice,
  // skipped or overtaken. While the runtime loop lives nothing is lost either.
  lemma HandledOnceInWireOrder(store: map<string, Json>, actions: seq<Action>, s: Sys)
    requires Run(Start(store), actions) == Some(s)
    ensures Envelopes(s.past.log) <= s.past.sent
    ensures RtLive(s) ==> s.past.sent == Envelopes(s.past.log) + Current(s.rloop) + s.c2r
    ensures forall i, j | 0 <= i < j < |s.past.sent| :: s.past.sent[i].id != s.past.sent[j].id
  {
    Reached(store, actions, s);
    FlowIsOrder(s.past.sent, s.past.log, s.rloop, s.c2r);
  }

  // While both loops live, a request still waiting for its answer is in exactly one place.
  lemma WaitingRequestIsInOnePlace(store: map<string, Json>, actions: seq<Action>, s: Sys, id: MsgId)
    requires Run(Start(store), actions) == Some(s)
    requires ConnLive(s) && RtLive(s) && Unanswered(s, id)
    ensures CountIds(s.c2r, id) + InHand(s.rloop, id) + CountRefs(s.r2c, id) + Arriving(s.cloop, id) == 1
  {
    Reached(store, actions, s);
    assert PlacedAt(s, id);
  }

  predicate Returned(s: Sys, id: MsgId) {
    id in s.calls && s.calls[id].phase.Done? && s.calls[id].phase.out.Return?
  }

  // The log entry of a returned call is its own request, at the place it was written.
  ghost predicate HandledAs(s: Sys, id: MsgId) {
    && id in s.calls && id in s.past.at && s.past.at[id] < |s.past.log| <= |s.past.sent|
    && s.past.log[s.past.at[id]].env == Request(id, s.calls[id].op) == s.past.sent[s.past.at[id]]
  }

  lemma ReturnedCallWasHandled(s: Sys, id: MsgId)
    requires Traffic(s) && Returned(s, id)
    ensures HandledAs(s, id) && s.past.log[s.past.at[id]].reply == Some(s.calls[id].phase.out.reply)
    ensures Answers(s.calls[id].op, s.calls[id].phase.out.reply)
  {
    assert Reported(id, s.calls[id], s.past.log, s.past.at);
    OwnReplyFits(s, id, s.calls[id].phase.out.reply);
  }

  // A call that returns got the answer computed for its own request, at the request's own place in
  // wire order; a call never sees a reply of the wrong kind.
  lemma CallReturnsItsOwnReply(store: map<string, Json>, actions: seq<Action>, s: Sys, id: MsgId)
    requires Run(Start(store), actions) == Some(s)
    requires id in s.calls && s.calls[id].phase.Done?
    ensures s.calls[id].phase.out != Raise(UnexpectedReply)
    ensures Returned(s, id) ==>
      && HandledAs(s, id)
      && RightReply(store, s.past.log, s.past.at[id])
      && s.past.log[s.past.at[id]].reply == Some(s.calls[id].phase.out.reply)
  {
    Reached(store, actions, s);
    assert Reported(id, s.calls[id], s.past.log, s.past.at);
    if Returned(s, id) {
      ReturnedCallWasHandled(s, id);
    }
  }

  // Every read returns the last value set earlier in wire order.
  lemma ReadReturnsLastSet(store: map<string, Json>, actions: seq<Action>, s: Sys, id: MsgId)
    requires Run(Start(store), actions) == Some(s)
    requires Returned(s, id) && s.calls[id].op.GetState?
    ensures HandledAs(s, id) && s.calls[id].phase.out.reply.GetStateAck?
    ensures IsCurrent(store, s.past.log[..s.past.at[id]], s.calls[id].op.key, s.calls[id].phase.out.reply.found)
  {
    CallReturnsItsOwnReply(store, actions, s, id);
    ReplayIsLastSet(store, s.past.log[..s.past.at[id]], s.calls[id].op.key);
  }

  // A call begun after state `s` is handled after everything handled in `s`.
  lemma LaterCallIsHandledLater(s: Sys, t: Sys, b: MsgId)
    requires Traffic(s) && Extends(s, t) && HandledAs(t, b) && b !in s.calls && IsClientOp(t.calls[b].op)
    ensures t.past.at[b] >= |s.past.log|
  {
    forall k | 0 <= k < |s.past.sent| ensures t.past.sent[k] != Request(b, t.calls[b].op) {
      assert Genuine(s.past.sent[k], s.calls, s.probes);
      assert t.past.sent[k] == s.past.sent[k];
    }
  }

  // The order of handling respects real time: of any two calls that return, one begun after the other
  // returned is handled after it. As each returns the answer computed at its own place in that order,
  // the operations are linearizable.
  lemma HandlingRespectsRealTime(store: map<string, Json>, before: seq<Action>, s: Sys, after: seq<Action>, t: Sys,
                                 a: MsgId, b: MsgId)
    requires Run(Start(store), before) == Some(s) && Run(s, after) == Some(t)
    requires Returned(s, a) && b !in s.calls && Returned(t, b)
    ensures HandledAs(s, a) && HandledAs(t, b) && a in t.past.at
    ensures t.past.at[a] == s.past.at[a] < t.past.at[b]
    ensures RightReply(store, s.past.log, s.past.at[a]) && s.past.log <= t.past.log
        && RightReply(store, t.past.log, t.past.at[b])
  {
    Reached(store, before, s);
    RunKeepsInv(s, after);
    RunExtends(s, after);
    ReturnedCallWasHandled(s, a);
    ReturnedCallWasHandled(t, b);
    LaterCallIsHandledLater(s, t, b);
    assert t.past.log[s.past.at[a]] == s.past.log[s.past.at[a]];
  }

  // With a set of `key` at place `i`, a read at a later place `j` finds that value or a newer one.
  lemma SetIsVisible(store0: map<string, Json>, log: seq<Handled>, i: nat, j: nat, key: string) returns (m: nat)
    requires i < j <= |log| && Sets(log[i], key)
    ensures i <= m < j && Sets(log[m], key)
    ensures Lookup(Replay(store0, log[..j]), key) == Some(log[m].env.body.value)
  {
    var upto := log[..j];
    ReplayIsLastSet(store0, upto, key);
    assert Sets(upto[i], key);
    m :| 0 <= m < |upto| && Sets(upto[m], key) && Lookup(Replay(store0, upto), key) == Some(upto[m].env.body.value)
         && forall k | m < k < |upto| :: !Sets(upto[k], key);
  }

  // A read begun once a set was acknowledged sees that value or a newer one.
  lemma ReadAfterAcknowledgedSet(store: map<string, Json>, before: seq<Action>, s: Sys, after: seq<Action>, t: Sys,
                                 a: MsgId, b: MsgId)
    requires Run(Start(store), before) == Some(s) && Run(s, after) == Some(t)
    requires Returned(s, a) && s.calls[a].op.SetState?
    requires b !in s.calls && Returned(t, b) && t.calls[b].op == GetState(s.calls[a].op.key)
    ensures HandledAs(s, a) && HandledAs(t, b)
    ensures exists m | s.past.at[a] <= m < t.past.at[b] ::
      Sets(t.past.log[m], s.calls[a].op.key)
      && t.calls[b].phase.out.reply == GetStateAck(Some(t.past.log[m].env.body.value))
  {
    Reached(store, before, s);
    RunKeepsInv(s, after);
    RunExtends(s, after);
    SetThenReadLocal(s, t, a, b);
  }

  lemma SetThenReadLocal(s: Sys, t: Sys, a: MsgId, b: MsgId)
    requires Traffic(s) && Traffic(t) && StoreOk(t) && Extends(s, t)
    requires Returned(s, a) && s.calls[a].op.SetState?
    requires b !in s.calls && Returned(t, b) && t.calls[b].op == GetState(s.calls[a].op.key)
    ensures HandledAs(s, a) && HandledAs(t, b)
    ensures exists m | s.past.at[a] <= m < t.past.at[b] ::
      Sets(t.past.log[m], s.calls[a].op.key)
      && t.calls[b].phase.out.reply == GetStateAck(Some(t.past.log[m].env.body.value))
  {
    ReturnedCallWasHandled(s, a);
    ReturnedCallWasHandled(t, b);
    LaterCallIsHandledLater(s, t, b);
    var i, j := s.past.at[a], t.past.at[b];
    assert t.past.log[i] == s.past.log[i];
    assert RightReply(t.past.store0, t.past.log, j);
    var m := SetIsVisible(t.past.store0, t.past.log, i, j, s.calls[a].op.key);
  }

  // Until the connector loop ends the counter is exactly the number of calls holding a slot.
  // Afterwards it agrees with that number if and only if no call held one when it was reset.
  lemma InFlightCountsHolders(store: map<string, Json>, actions: seq<Action>, s: Sys)
    requires Run(Start(store), actions) == Some(s)
    ensures ConnLive(s) ==> s.conn.inFlight == |Holders(s.calls)| <= 64
    ensures s.conn.inFlight == |Holders(s.calls)| <==> s.past.debt == 0
    ensures |Holders(s.calls)| <= 64 + s.past.debt
  {
    Reached(store, actions, s);
  }

  lemma {:induction false} RunJoins(s: Sys, first: seq<Action>, second: seq<Action>)
    requires Run(s, first).Some?
    ensures Run(s, first + second) == Run(Run(s, first).value, second)
    decreases |first|
  {
    if first == [] {
      assert first + second == second;
    } else {
      assert (first + second)[1..] == first[1..] + second;
      RunJoins(Step(s, first[0]).value, first[1..], second);
    }
  }

  // One call in progress when the stream closes is enough to take the counter below zero.
  lemma ResetThenReleaseGoesNegative(store: map<string, Json>) returns (actions: seq<Action>)
    ensures Run(Start(store), actions).Some?
    ensures Run(Start(store), actions).value.conn.inFlight == -1
  {
    var first := [Client(Begin(0, GetState("k"))), Client(Register(0)), Client(Write(0))];
    var second := [ConnSide(CFinally), Client(Collect(0)), Client(PopOwn(0)), Client(Release(0))];
    var s3 := ReadRequestWritten(store);
    RunJoins(Start(store), first, second);
    CloseWhileWaiting(s3);
    actions := first + second;
  }

  lemma ReadRequestWritten(store: map<string, Json>) returns (s3: Sys)
    ensures Run(Start(store), [Client(Begin(0, GetState("k"))), Client(Register(0)), Client(Write(0))]) == Some(s3)
    ensures s3.cloop == CIdle && s3.conn.waiters == Waiters({0}, map[0 := Unsettled])
    ensures s3.calls == map[0 := Call(GetState("k"), Waiting)]
  {
    var s1 := DoBegin(Start(store), 0, GetState("k")).value;
    var s2 := DoRegister(s1, 0).value;
    s3 := DoWrite(s2, 0).value;
    assert Run(s3, []) == Some(s3);
    assert Run(s2, [Client(Write(0))]) == Some(s3);
    assert Run(s1, [Client(Register(0)), Client(Write(0))]) == Some(s3);
  }

  lemma CloseWhileWaiting(s3: Sys)
    requires s3.cloop == CIdle && s3.conn.waiters == Waiters({0}, map[0 := Unsettled])
    requires s3.calls == map[0 := Call(GetState("k"), Waiting)]
    ensures var r := Run(s3, [ConnSide(CFinally), Client(Collect(0)), Client(PopOwn(0)), Client(Release(0))]);
      r.Some? && r.value.conn.inFlight == -1
  {
    var s4 := DoCFinally(s3).value;
    var s5 := DoCollect(s4, 0).value;
    var finish := [Client(PopOwn(0)), Client(Release(0))];
    ReleaseAtZero(s5);
    assert [Client(Collect(0))] + finish == [Client(Collect(0)), Client(PopOwn(0)), Client(Release(0))];
    assert Run(s4, [Client(Collect(0))] + finish) == Run(s5, finish);
  }

  lemma ReleaseAtZero(s: Sys)
    requires s.conn.inFlight == 0 && 0 in s.calls && s.calls[0].phase.Closing?
    ensures var r := Run(s, [Client(PopOwn(0)), Client(Release(0))]); r.Some? && r.value.conn.inFlight == -1
  {
    var s6 := DoPopOwn(s, 0).value;
    var s7 := DoRelease(s6, 0).value;
    assert Run(s7, []) == Some(s7);
    assert Run(s6, [Client(Release(0))]) == Some(s7);
  }

  // When the connector loop fails or ends, it reads no more, and every call still waiting has its future
  // settled with the cause; a future stays unsettled if and only if it was left behind, and then by a
  // call that gave up and is past it.
  lemma ConnectorLoopEndSettlesPending(store: map<string, Json>, actions: seq<Action>, s: Sys, a: ConnAction)
    requires Run(Start(store), actions) == Some(s) && ConnStep(s, a).Some? && (a.CFail? || a.CFinally?)
    ensures var t := ConnStep(s, a).value;
      && !ConnLive(t) && t.conn.inFlight == 0
      && PendingSettled(s.conn.waiters, t.conn.waiters) && AllSettled(s.calls, t.conn.waiters)
      && FailedWith(s.conn.waiters, t.conn.waiters, if a.CFail? then a.cause else StreamClosed)
      && forall id | IsUnsettled(t.conn.waiters, id) :: id in s.calls && HoldsUnsettled(s.calls[id].phase, false)
  {
    Reached(store, actions, s);
    var cause := if a.CFail? then a.cause else StreamClosed;
    FailAllKeepsWaiters(s.calls, s.conn.waiters, cause);
    FailAllSettlesPending(s.conn.waiters, None, cause);
  }

  // The same for every runtime step that fails what is pending: the loop's end, a read error, a handler
  // that raises, and a kind that has no business here. A peer hangup leaves it to the loop's end.
  lemma RuntimeLoopEndSettlesPending(store: map<string, Json>, actions: seq<Action>, s: Sys, a: RtAction)
    requires Run(Start(store), actions) == Some(s) && RtStep(s, a).Some? && Failing(s, a).Some?
    ensures var t := RtStep(s, a).value;
      && !RtLive(t) && t.rt.fatal == (if a.RFinally? then s.rt.fatal else Failing(s, a))
      && PendingSettled(s.rt.waiters, t.rt.waiters) && AllSettled(s.probes, t.rt.waiters)
      && FailedWith(Resolved(s.rt.waiters, Resolving(s, a)), t.rt.waiters, Failing(s, a).value)
      && forall id | IsUnsettled(t.rt.waiters, id) :: id in s.probes && HoldsUnsettled(s.probes[id].phase, false)
  {
    Reached(store, actions, s);
    RtWaiters(s, a);
    var env, cause := Resolving(s, a), Failing(s, a).value;
    if env.Some? {
      ResolveKeepsWaiters(s.probes, s.rt.waiters, env.value);
    }
    FailAllKeepsWaiters(s.probes, Resolved(s.rt.waiters, env), cause);
    FailAllSettlesPending(s.rt.waiters, env, cause);
  }

  // An emit too large to encode leaves its future behind: no loop end settles it.
  lemma OversizedEmitIsNeverSettled(store: map<string, Json>) returns (actions: seq<Action>, t: Sys)
    ensures Run(Start(store), actions) == Some(t) && t.cloop == CFailing
    ensures t.conn.waiters.pending == {} && t.conn.waiters.futures == map[0 := Unsettled]
  {
    var s2 := EmitRegistered(store);
    var first := [Client(Begin(0, Emit(Null))), Client(Register(0))];
    var second := [Client(Abandon(0, MessageTooLarge, false)), Client(PopOwn(0)), ConnSide(CFail(Malformed))];
    RunJoins(Start(store), first, second);
    t := FutureLeftBehind(s2);
    actions := first + second;
  }

  lemma EmitRegistered(store: map<string, Json>) returns (s2: Sys)
    ensures Run(Start(store), [Client(Begin(0, Emit(Null))), Client(Register(0))]) == Some(s2)
    ensures s2.conn.waiters == Waiters({0}, map[0 := Unsettled]) && s2.cloop == CIdle
    ensures s2.calls == map[0 := Call(Emit(Null), Registered)]
  {
    var s1 := DoBegin(Start(store), 0, Emit(Null)).value;
    s2 := DoRegister(s1, 0).value;
    assert Run(s2, []) == Some(s2);
    assert Run(s1, [Client(Register(0))]) == Some(s2);
  }

  lemma FutureLeftBehind(s2: Sys) returns (t: Sys)
    requires s2.conn.waiters == Waiters({0}, map[0 := Unsettled]) && s2.cloop == CIdle
    requires s2.calls == map[0 := Call(Emit(Null), Registered)]
    ensures
      Run(s2, [Client(Abandon(0, MessageTooLarge, false)), Client(PopOwn(0)), ConnSide(CFail(Malformed))]) == Some(t)
    ensures t.cloop == CFailing && t.conn.waiters == Waiters({}, map[0 := Unsettled])
  {
    var s3 := DoAbandon(s2, 0, MessageTooLarge, false).value;
    var s4 := DoPopOwn(s3, 0).value;
    t := FailNothingPending(s4);
    assert Run(s3, [Client(PopOwn(0)), ConnSide(CFail(Malformed))]) == Some(t);
  }

  lemma FailNothingPending(s: Sys) returns (t: Sys)
    requires s.conn.waiters == Waiters({}, map[0 := Unsettled]) && s.cloop == CIdle
    ensures Run(s, [ConnSide(CFail(Malformed))]) == Some(t)
    ensures t.cloop == CFailing && t.conn.waiters == s.conn.waiters
  {
    t := DoCFail(s, Malformed).value;
    assert Run(t, []) == Some(t);
    assert t.conn.waiters.futures == s.conn.waiters.futures;
  }

  lemma StepSettlesOnce(s: Sys, a: Action)
    requires Inv(s) && Step(s, a).Some?
    ensures BothSettledOnce(s, Step(s, a).value)
  {
    match a {
      case Client(c) => WaitersClient(s, c);
      case ConnSide(l) => WaitersConn(s, l);
      case RtSide(r) => WaitersRt(s, r);
      case Probing(p) => WaitersProbe(s, p);
    }
  }

  lemma {:induction false} RunSettlesOnce(s: Sys, actions: seq<Action>)
    requires Inv(s) && Run(s, actions).Some?
    ensures BothSettledOnce(s, Run(s, actions).value)
    decreases |actions|
  {
    if actions != [] {
      StepSettlesOnce(s, actions[0]);
      StepKeepsInv(s, actions[0]);
      RunSettlesOnce(Step(s, actions[0]).value, actions[1..]);
    }
  }

  // No future is settled twice: once it has a value it keeps it however the run goes on.
  lemma FuturesSettleOnce(store: map<string, Json>, before: seq<Action>, s: Sys, after: seq<Action>, t: Sys)
    requires Run(Start(store), before) == Some(s) && Run(s, after) == Some(t)
    ensures SettledOnce(s.conn.waiters, t.conn.waiters)
    ensures SettledOnce(s.rt.waiters, t.rt.waiters)
  {
    Reached(store, before, s);
    RunSettlesOnce(s, after);
  }

  // While the connector loop lives and is not between the two, the shutdown-ack is on the wire if and
  // only if connector code has been told to stop.
  lemma ShutdownRaisesCancellation(store: map<string, Json>, actions: seq<Action>, s: Sys)
    requires Run(Start(store), actions) == Some(s) && ConnLive(s) && !s.cloop.CAcked?
    ensures HasShutdownAck(s.past.sent) <==> s.conn.cancelled
  {
    Reached(store, actions, s);
  }

  // Connector code is told to stop only after the shutdown-ack is on the wire, and these
  // operations never make the runtime loop stop over an unknown kind.
  lemma ShutdownAcknowledgedFirst(store: map<string, Json>, actions: seq<Action>, s: Sys)
    requires Run(Start(store), actions) == Some(s)
    ensures s.conn.cancelled ==> HasShutdownAck(s.past.sent)
    ensures s.rt.fatal != Some(UnknownKind)
    ensures RtLive(s) ==> s.rt.fatal == None
  {
    Reached(store, actions, s);
  }
}
