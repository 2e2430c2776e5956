// Futures, slots and the place of every waiting request.
module WireWaiting {
  import opened Basics
  import opened Wire
  import opened WireIdentity
  import opened WireReplies

  // ---- Futures ----

  predicate Awaits(c: Call) { c.phase.Registered? || c.phase.Waiting? }

  ghost predicate WaitersOf(calls: map<MsgId, Call>, w: Waiters) {
    && w.pending <= w.futures.Keys
    && w.futures.Keys <= calls.Keys
    && (forall id | id in calls && calls[id].phase.HoldingSlot? :: id !in w.futures)
    && (forall id | id in calls && Awaits(calls[id]) ::
          id in w.futures && (w.futures[id] == Unsettled ==> id in w.pending))
    && (forall id | id in calls && (calls[id].phase.Releasing? || calls[id].phase.Done?) :: id !in w.pending)
    && (forall id | IsUnsettled(w, id) :: HoldsUnsettled(calls[id].phase, id in w.pending))
  }

  // The call was abandoned before an answer came.
  predicate GaveUp(out: Outcome) { out.Raise? && Abandons(out.cause) }

  // The phase of a call whose future is unsettled: it waits, or it gave up; a call that gave up and
  // popped its entry leaves the future behind.
  predicate HoldsUnsettled(p: Phase, pending: bool) {
    if pending then p.Registered? || p.Waiting? || (p.Closing? && GaveUp(p.out))
    else (p.Releasing? || p.Done?) && GaveUp(p.out)
  }

  // Unsettled, and no longer where a loop's end could find it.
  predicate LeftBehind(w: Waiters, id: MsgId) { IsUnsettled(w, id) && id !in w.pending }

  // The pending entries are gone and exactly the futures left behind before stay unsettled.
  ghost predicate PendingSettled(before: Waiters, after: Waiters) {
    && after.pending == {} && after.futures.Keys == before.futures.Keys
    && forall id | id in before.futures :: IsUnsettled(after, id) <==> LeftBehind(before, id)
  }

  // Each future that was pending and unsettled now holds the failure; the others are as they were.
  ghost predicate FailedWith(before: Waiters, after: Waiters, cause: Failure) {
    && after.futures.Keys == before.futures.Keys
    && forall id | id in before.futures :: after.futures[id]
         == if id in before.pending && IsUnsettled(before, id) then Exception(cause) else before.futures[id]
  }

  lemma FailAllSettlesPending(w: Waiters, env: Option<Envelope>, cause: Failure)
    ensures PendingSettled(w, FailAll(Resolved(w, env), cause))
    ensures FailedWith(Resolved(w, env), FailAll(Resolved(w, env), cause), cause)
  {
  }

  // A future, once settled or withdrawn, keeps its value.
  ghost predicate SettledOnce(w: Waiters, w': Waiters) {
    forall id | id in w.futures && w.futures[id] != Unsettled :: id in w'.futures && w'.futures[id] == w.futures[id]
  }

  ghost predicate AllSettled(calls: map<MsgId, Call>, w: Waiters) {
    && w.pending == {}
    && forall id | id in calls && Awaits(calls[id]) :: id in w.futures && w.futures[id] != Unsettled
  }

  lemma ResolveKeepsWaiters(calls: map<MsgId, Call>, w: Waiters, env: Envelope)
    requires WaitersOf(calls, w)
    ensures WaitersOf(calls, Resolve(w, env)) && SettledOnce(w, Resolve(w, env))
  {
  }

  lemma FailAllKeepsWaiters(calls: map<MsgId, Call>, w: Waiters, cause: Failure)
    requires WaitersOf(calls, w)
    ensures WaitersOf(calls, FailAll(w, cause)) && SettledOnce(w, FailAll(w, cause))
    ensures AllSettled(calls, FailAll(w, cause))
  {
  }

  ghost predicate WaitersOk(s: Sys) {
    WaitersOf(s.calls, s.conn.waiters) && WaitersOf(s.probes, s.rt.waiters)
  }

  ghost predicate BothSettledOnce(s: Sys, t: Sys) {
    SettledOnce(s.conn.waiters, t.conn.waiters) && SettledOnce(s.rt.waiters, t.rt.waiters)
  }

  // One call and its entry change; the others are untouched.
  lemma WaitersFrame(calls: map<MsgId, Call>, w: Waiters, id: MsgId, calls': map<MsgId, Call>, w': Waiters)
    requires WaitersOf(calls, w)
    requires calls.Keys <= calls'.Keys
    requires forall k | k in calls' && k != id :: k in calls && calls'[k] == calls[k]
    requires forall k | k != id :: (k in w'.futures <==> k in w.futures) && (k in w'.pending <==> k in w.pending)
    requires forall k | k in w.futures && k != id :: w'.futures[k] == w.futures[k]
    requires id in calls' ==> EntryOk(calls'[id], id, w')
    requires id !in calls' ==> w' == w
    requires id in w.futures && w.futures[id] != Unsettled ==> id in w'.futures && w'.futures[id] == w.futures[id]
    ensures WaitersOf(calls', w') && SettledOnce(w, w')
  {
  }

  ghost predicate EntryOk(c: Call, id: MsgId, w: Waiters) {
    && (id in w.pending ==> id in w.futures)
    && (c.phase.HoldingSlot? ==> id !in w.futures)
    && (Awaits(c) ==> id in w.futures && (w.futures[id] == Unsettled ==> id in w.pending))
    && (c.phase.Releasing? || c.phase.Done? ==> id !in w.pending)
    && (IsUnsettled(w, id) ==> HoldsUnsettled(c.phase, id in w.pending))
  }

  lemma ClientEntryOk(s: Sys, a: ClientAction)
    requires WaitersOk(s) && s.calls.Keys <= s.used && ClientStep(s, a).Some?
    ensures var t := ClientStep(s, a).value; a.id in t.calls ==> EntryOk(t.calls[a.id], a.id, t.conn.waiters)
  {
  }

  lemma WaitersClient(s: Sys, a: ClientAction)
    requires WaitersOk(s) && s.calls.Keys <= s.used && ClientStep(s, a).Some?
    ensures WaitersOk(ClientStep(s, a).value) && BothSettledOnce(s, ClientStep(s, a).value)
  {
    var t := ClientStep(s, a).value;
    ClientTouchesOneCall(s, a);
    ClientEntryOk(s, a);
    WaitersFrame(s.calls, s.conn.waiters, a.id, t.calls, t.conn.waiters);
  }

  lemma WaitersConn(s: Sys, a: ConnAction)
    requires WaitersOk(s) && ConnStep(s, a).Some?
    ensures WaitersOk(ConnStep(s, a).value) && BothSettledOnce(s, ConnStep(s, a).value)
  {
    match a
    case CHandle => ResolveKeepsWaiters(s.calls, s.conn.waiters, s.cloop.env);
    case CFail(cause) => FailAllKeepsWaiters(s.calls, s.conn.waiters, cause);
    case CFinally => FailAllKeepsWaiters(s.calls, s.conn.waiters, StreamClosed);
    case _ =>
  }

  // The frame whose reference a runtime step resolves, and the failure it then gives all that is pending.
  function Resolving(s: Sys, a: RtAction): Option<Envelope> {
    if (a.RHandle? || a.RHandlerFails?) && s.rloop.RGot? then Some(s.rloop.env) else None
  }

  function Failing(s: Sys, a: RtAction): Option<Failure> {
    match a
    case RHandle(_) => if s.rloop.RGot? && !Accepted(s.rloop.env.body) then Some(Refusal(s.rloop.env.body)) else None
    case RHandlerFails(_) => Some(HandlerFailed)
    case RFail(cause) => if cause == Hangup then None else Some(cause)
    case RFinally => Some(StreamClosed)
    case _ => None
  }

  function Resolved(w: Waiters, env: Option<Envelope>): Waiters {
    if env.Some? then Resolve(w, env.value) else w
  }

  lemma RtWaiters(s: Sys, a: RtAction)
    requires RtStep(s, a).Some?
    ensures var t, w := RtStep(s, a).value, Resolved(s.rt.waiters, Resolving(s, a));
      && t.calls == s.calls && t.probes == s.probes && t.conn == s.conn
      && t.rt.waiters == if Failing(s, a).Some? then FailAll(w, Failing(s, a).value) else w
  {
  }

  lemma WaitersRt(s: Sys, a: RtAction)
    requires WaitersOk(s) && RtStep(s, a).Some?
    ensures WaitersOk(RtStep(s, a).value) && BothSettledOnce(s, RtStep(s, a).value)
  {
    RtWaiters(s, a);
    var w := Resolved(s.rt.waiters, Resolving(s, a));
    if Resolving(s, a).Some? {
      ResolveKeepsWaiters(s.probes, s.rt.waiters, s.rloop.env);
    }
    if Failing(s, a).Some? {
      FailAllKeepsWaiters(s.probes, w, Failing(s, a).value);
    }
  }

  lemma ProbeTouchesOne(s: Sys, a: ProbeAction)
    requires ProbeStep(s, a).Some?
    ensures var t, w, w' := ProbeStep(s, a).value, s.rt.waiters, ProbeStep(s, a).value.rt.waiters;
      && t.calls == s.calls && t.conn == s.conn && s.probes.Keys <= t.probes.Keys && a.id in t.probes
      && (forall k | k in t.probes && k != a.id :: k in s.probes && t.probes[k] == s.probes[k])
      && (forall k | k != a.id :: (k in w'.futures <==> k in w.futures) && (k in w'.pending <==> k in w.pending))
      && (forall k | k in w.futures && k != a.id :: w'.futures[k] == w.futures[k])
  {
  }

  lemma ProbeEntryOk(s: Sys, a: ProbeAction)
    requires WaitersOk(s) && s.probes.Keys <= s.used && ProbeStep(s, a).Some?
    ensures var t, w := ProbeStep(s, a).value, s.rt.waiters;
      && a.id in t.probes && EntryOk(t.probes[a.id], a.id, t.rt.waiters)
      && (a.id in w.futures && w.futures[a.id] != Unsettled ==>
            a.id in t.rt.waiters.futures && t.rt.waiters.futures[a.id] == w.futures[a.id])
  {
  }

  lemma WaitersProbe(s: Sys, a: ProbeAction)
    requires WaitersOk(s) && s.probes.Keys <= s.used && ProbeStep(s, a).Some?
    ensures WaitersOk(ProbeStep(s, a).value) && BothSettledOnce(s, ProbeStep(s, a).value)
  {
    var t := ProbeStep(s, a).value;
    ProbeTouchesOne(s, a);
    ProbeEntryOk(s, a);
    WaitersFrame(s.probes, s.rt.waiters, a.id, t.probes, t.rt.waiters);
  }

  // ---- Slots ----

  // The counter is the number of slot holders, less those that held one when it was last reset.
  ghost predicate Slots(s: Sys) {
    && s.conn.inFlight == |Holders(s.calls)| - s.past.debt
    && s.conn.inFlight <= MAX_IN_FLIGHT
    && (ConnLive(s) ==> s.past.debt == 0)
  }

  lemma HoldersAfter(calls: map<MsgId, Call>, id: MsgId, c: Call)
    ensures Holders(calls[id := c]) == if Holds(c.phase) then Holders(calls) + {id} else Holders(calls) - {id}
  {
  }

  lemma SlotsClient(s: Sys, a: ClientAction)
    requires Slots(s) && s.calls.Keys <= s.used && ClientStep(s, a).Some?
    ensures Slots(ClientStep(s, a).value)
  {
    var t := ClientStep(s, a).value;
    if !a.Tell? {
      SlotCounted(s, t, a.id);
    }
  }

  lemma SlotCounted(s: Sys, t: Sys, id: MsgId)
    requires Slots(s) && id in t.calls && t.calls == s.calls[id := t.calls[id]]
    requires t.cloop == s.cloop && t.past.debt == s.past.debt && t.conn.inFlight <= MAX_IN_FLIGHT
    requires t.conn.inFlight - s.conn.inFlight
          == (if Holds(t.calls[id].phase) then 1 else 0) - if id in s.calls && Holds(s.calls[id].phase) then 1 else 0
    ensures Slots(t)
  {
    HoldersAfter(s.calls, id, t.calls[id]);
  }

  lemma SlotsConn(s: Sys, a: ConnAction)
    requires Slots(s) && ConnStep(s, a).Some?
    ensures Slots(ConnStep(s, a).value)
  {
  }

  // ---- Where a waiting request is ----

  function CountIds(q: seq<Envelope>, id: MsgId): nat {
    if q == [] then 0 else (if q[0].id == id then 1 else 0) + CountIds(q[1..], id)
  }

  function RefersTo(f: Envelope, id: MsgId): nat { if f.idRef == Some(id) then 1 else 0 }

  function CountRefs(q: seq<Envelope>, id: MsgId): nat {
    if q == [] then 0 else RefersTo(q[0], id) + CountRefs(q[1..], id)
  }

  function InHand(l: RtLoop, id: MsgId): nat {
    if (l.RGot? || l.RReply?) && l.env.id == id then 1 else 0
  }

  function Arriving(l: ConnLoop, id: MsgId): nat {
    if l.CGot? then RefersTo(l.env, id) else 0
  }

  // Occurrences of an identifier: outbound channel, runtime dispatch, inbound channel, connector dispatch.
  function Places(s: Sys, id: MsgId): nat {
    CountIds(s.c2r, id) + InHand(s.rloop, id) + CountRefs(s.r2c, id) + Arriving(s.cloop, id)
  }

  lemma {:induction false} IdsAppend(q: seq<Envelope>, f: Envelope, id: MsgId)
    ensures CountIds(q + [f], id) == CountIds(q, id) + if f.id == id then 1 else 0
  {
    if q == [] {
      assert q + [f] == [f];
    } else {
      IdsAppend(q[1..], f, id);
      assert (q + [f])[1..] == q[1..] + [f];
    }
  }

  lemma {:induction false} RefsAppend(q: seq<Envelope>, f: Envelope, id: MsgId)
    ensures CountRefs(q + [f], id) == CountRefs(q, id) + RefersTo(f, id)
  {
    if q == [] {
      assert q + [f] == [f];
    } else {
      RefsAppend(q[1..], f, id);
      assert (q + [f])[1..] == q[1..] + [f];
    }
  }

  predicate Unanswered(s: Sys, id: MsgId) {
    InPhase(s.calls, id, Waiting) && IsUnsettled(s.conn.waiters, id)
  }

  predicate Unwritten(s: Sys, id: MsgId) {
    InPhase(s.calls, id, HoldingSlot) || InPhase(s.calls, id, Registered)
  }

  // No identifier is in two places; while both loops live an unanswered one is in exactly one.
  ghost predicate PlacedAt(s: Sys, id: MsgId) {
    && Places(s, id) <= 1
    && (Places(s, id) == 1 ==> id in s.used && !Unwritten(s, id))
    && (ConnLive(s) && RtLive(s) && Unanswered(s, id) ==> Places(s, id) == 1)
  }

  ghost predicate Placed(s: Sys) { forall id :: PlacedAt(s, id) }

  lemma ClientPlaces(s: Sys, a: ClientAction, id: MsgId)
    requires ClientStep(s, a).Some?
    ensures Places(ClientStep(s, a).value, id) == Places(s, id) + if (a.Write? || a.Tell?) && a.id == id then 1 else 0
  {
    match a
    case Write(k) => IdsAppend(s.c2r, Request(k, s.calls[k].op), id);
    case Tell(k, op) => IdsAppend(s.c2r, Request(k, op), id);
    case _ =>
  }

  lemma PlacedClientAt(s: Sys, a: ClientAction, id: MsgId)
    requires PlacedAt(s, id) && s.calls.Keys <= s.used && ClientStep(s, a).Some?
    ensures PlacedAt(ClientStep(s, a).value, id)
  {
    ClientPlaces(s, a, id);
    if id != a.id {
      ClientTouchesOneCall(s, a);
    }
  }

  lemma PlacedConnAt(s: Sys, a: ConnAction, id: MsgId)
    requires PlacedAt(s, id) && s.calls.Keys <= s.used && WaitersOk(s) && ConnStep(s, a).Some?
    ensures PlacedAt(ConnStep(s, a).value, id)
  {
    match a
    case CWriteReply(k, status) =>
      var ack := if s.cloop.env.body.Health? then HealthAck(status) else ShutdownAck;
      IdsAppend(s.c2r, Envelope(k, ack, Some(s.cloop.env.id), None), id);
    case _ =>
  }

  // The runtime only moves a request on, or is done with it.
  lemma RtPlaces(s: Sys, a: RtAction, id: MsgId)
    requires RtStep(s, a).Some?
    ensures var t := RtStep(s, a).value;
      && Places(t, id) <= Places(s, id)
      && (RtLive(t) && !(a.RHandle? && InHand(s.rloop, id) == 1) ==> Places(t, id) == Places(s, id))
      && (RtLive(t) && a.RHandle? && t.rloop.RReply? ==> Places(t, id) == Places(s, id))
  {
    if a.RWriteReply? {
      RefsAppend(s.r2c, Envelope(a.id, s.rloop.reply, Some(s.rloop.env.id), None), id);
    }
  }

  lemma PlacedRtAt(s: Sys, a: RtAction, id: MsgId)
    requires PlacedAt(s, id) && Identity(s) && Flow(s) && RtStep(s, a).Some?
    ensures PlacedAt(RtStep(s, a).value, id)
  {
    RtPlaces(s, a, id);
    if a.RHandle? {
      assert Genuine(s.past.sent[|s.past.log|], s.calls, s.probes);
    }
  }

  lemma PlacedProbeAt(s: Sys, a: ProbeAction, id: MsgId)
    requires PlacedAt(s, id) && ProbeStep(s, a).Some?
    ensures PlacedAt(ProbeStep(s, a).value, id)
  {
    match a
    case AskWrite(k) => RefsAppend(s.r2c, Request(k, s.probes[k].op), id);
    case _ =>
  }
}
