// The connector wire protocol as a two-party step system: the connector side (StdioTransport),
// the runtime side (ConnectorRuntimeTransport), and one FIFO channel each way.
module Wire {
  import opened Basics

  // uuid4 hex identifiers; only equality and freshness matter.
  type MsgId = nat

  const MAX_IN_FLIGHT: int := 64

  datatype Body =
    | Emit(bundle: Json)
    | SetState(key: string, value: Json)
    | GetState(key: string)
    | Log(record: Json)
    | Metric(sample: Json)
    | EmitAck(result: Json)
    | SetStateAck
    | GetStateAck(found: Option<Json>)
    | Health
    | HealthAck(status: string)
    | Shutdown
    | ShutdownAck
    | CancelAck
    | Hello                 // hello or hello-ack, out of place once versions are agreed
    | Other(kind: string)

  datatype Envelope = Envelope(id: MsgId, body: Body, idRef: Option<MsgId>, error: Option<string>)

  datatype Failure =
    | TooManyInFlight
    | StreamClosed
    | MessageTooLarge
    | Malformed
    | UnexpectedReply
    | UnknownKind
    | PeerError(code: string)
    | WriteFailed
    | Cancelled
    | TimedOut
    | HandlerFailed
    | Hangup

  // ---- Futures registered by message id (both sides) ----

  datatype Future = Unsettled | Value(env: Envelope) | Exception(cause: Failure) | Withdrawn

  // `pending` is the key set of the pending dictionary; the future created for an id stays
  // reachable by its caller after the dictionary has forgotten it.
  datatype Waiters = Waiters(pending: set<MsgId>, futures: map<MsgId, Future>)

  function RegisterFuture(w: Waiters, id: MsgId): Waiters {
    Waiters(w.pending + {id}, w.futures[id := Unsettled])
  }

  function PopFuture(w: Waiters, id: MsgId): Waiters {
    w.(pending := w.pending - {id})
  }

  predicate IsUnsettled(w: Waiters, id: MsgId) {
    id in w.futures && w.futures[id] == Unsettled
  }

  function Settlement(env: Envelope): Future {
    match env.error
    case Some(code) => Exception(PeerError(code))
    case None => Value(env)
  }

  // An incoming envelope with an `id_ref` pops that entry and settles its future unless done.
  function Resolve(w: Waiters, env: Envelope): Waiters {
    match env.idRef
    case None => w
    case Some(id) =>
      if id !in w.pending then w
      else if !IsUnsettled(w, id) then PopFuture(w, id)
      else Waiters(w.pending - {id}, w.futures[id := Settlement(env)])
  }

  function FailAll(w: Waiters, cause: Failure): Waiters {
    Waiters({}, map id | id in w.futures ::
      if id in w.pending && w.futures[id] == Unsettled then Exception(cause) else w.futures[id])
  }

  // A caller that stops waiting withdraws its future unless that is already settled.
  function WithdrawFuture(w: Waiters, id: MsgId): Waiters {
    if IsUnsettled(w, id) then w.(futures := w.futures[id := Withdrawn]) else w
  }

  // ---- Connector side ----

  datatype Conn = Conn(waiters: Waiters, inFlight: int, cancelled: bool)

  function AcquireSlot(c: Conn): Option<Conn> {
    if c.inFlight >= MAX_IN_FLIGHT then None else Some(c.(inFlight := c.inFlight + 1))
  }

  function ReleaseSlot(c: Conn): Conn {
    c.(inFlight := c.inFlight - 1)
  }

  function ConnFailAll(c: Conn, cause: Failure): Conn {
    c.(waiters := FailAll(c.waiters, cause), inFlight := 0)
  }

  datatype ConnLoop =
    | CIdle
    | CGot(env: Envelope)     // read, `id_ref` not yet resolved
    | CReply(env: Envelope)   // resolved, an ack is owed
    | CAcked                  // shutdown-ack written, cancellation not yet raised
    | CFailing
    | CEnded

  // ---- Runtime side ----

  datatype Rt = Rt(waiters: Waiters, fatal: Option<Failure>)

  datatype RtLoop =
    | RIdle
    | RGot(env: Envelope)
    | RReply(env: Envelope, reply: Body)
    | RFailing
    | REnded

  // ---- Calls in progress (local variables of the suspended coroutines) ----

  datatype Outcome = Return(reply: Body) | Raise(cause: Failure)

  datatype Phase =
    | HoldingSlot
    | Registered
    | Waiting
    | Closing(out: Outcome)     // future consumed or given up; entry not yet popped
    | Releasing(out: Outcome)   // entry popped; slot not yet released
    | Done(out: Outcome)

  datatype Call = Call(op: Body, phase: Phase)

  predicate IsClientOp(b: Body) { b.Emit? || b.SetState? || b.GetState? }

  predicate IsProbe(b: Body) { b.Health? || b.Shutdown? }

  // The reply kind a caller insists on.
  predicate Answers(op: Body, reply: Body) {
    match op
    case Emit(_) => reply.EmitAck?
    case SetState(_, _) => reply.SetStateAck?
    case GetState(_) => reply.GetStateAck?
    case Health => reply.HealthAck?
    case Shutdown => reply.ShutdownAck?
    case _ => false
  }

  function Collected(op: Body, f: Future): Outcome
    requires f != Unsettled
  {
    match f
    case Value(env) => if Answers(op, env.body) then Return(env.body) else Raise(UnexpectedReply)
    case Exception(cause) => Raise(cause)
    case Withdrawn => Raise(Cancelled)
  }

  // ---- The composed system ----

  // One frame taken by the runtime loop: what its handler returned and what was answered.
  datatype Handled = Handled(env: Envelope, result: Json, reply: Option<Body>)

  // What has happened so far; no step reads it to decide what to do.
  datatype History = History(
    sent: seq<Envelope>,       // frames written by the connector, in wire order
    log: seq<Handled>,         // frames whose handler has run, in order
    at: map<MsgId, nat>,       // request id -> its position in `log`
    debt: nat,                 // calls holding a slot when the counter was last reset
    store0: map<string, Json>)

  datatype Sys = Sys(
    conn: Conn, cloop: ConnLoop, calls: map<MsgId, Call>,
    rt: Rt, rloop: RtLoop, probes: map<MsgId, Call>,
    c2r: seq<Envelope>, r2c: seq<Envelope>,
    store: map<string, Json>,
    used: set<MsgId>,          // every identifier drawn so far
    past: History)

  function Start(store: map<string, Json>): Sys {
    Sys(Conn(Waiters({}, map[]), 0, false), CIdle, map[],
        Rt(Waiters({}, map[]), None), RIdle, map[],
        [], [], store, {}, History([], [], map[], 0, store))
  }

  // A client call (emit, set_state or get_state), or a log or metric record.
  datatype ClientAction =
    | Begin(id: MsgId, op: Body)
    | Register(id: MsgId)
    | Write(id: MsgId)
    | Abandon(id: MsgId, cause: Failure, withdraw: bool)
    | Collect(id: MsgId)
    | PopOwn(id: MsgId)
    | Release(id: MsgId)
    | Tell(id: MsgId, op: Body)

  // The connector dispatch loop.
  datatype ConnAction =
    | CRead
    | CHandle
    | CWriteReply(id: MsgId, status: string)
    | CRaiseCancelled
    | CFail(cause: Failure)
    | CFinally

  // The runtime dispatch loop.
  datatype RtAction =
    | RRead
    | RHandle(result: Json)
    | RHandlerFails(applied: bool)
    | RWriteReply(id: MsgId)
    | RFail(cause: Failure)
    | RFinally

  // A runtime request: health or shutdown.
  datatype ProbeAction =
    | Ask(id: MsgId, op: Body)
    | AskWrite(id: MsgId)
    | AskAbandon(id: MsgId, cause: Failure)
    | AskCollect(id: MsgId)
    | AskPop(id: MsgId)

  datatype Action = Client(c: ClientAction) | ConnSide(l: ConnAction) | RtSide(r: RtAction) | Probing(p: ProbeAction)

  predicate Holds(p: Phase) { !p.Done? }

  function Holders(calls: map<MsgId, Call>): set<MsgId> {
    set id | id in calls && Holds(calls[id].phase)
  }

  predicate ConnLive(s: Sys) { !s.cloop.CFailing? && !s.cloop.CEnded? }

  predicate RtLive(s: Sys) { !s.rloop.RFailing? && !s.rloop.REnded? }

  predicate InPhase(calls: map<MsgId, Call>, id: MsgId, p: Phase) {
    id in calls && calls[id].phase == p
  }

  function SetPhase(calls: map<MsgId, Call>, id: MsgId, p: Phase): map<MsgId, Call>
    requires id in calls
  {
    calls[id := calls[id].(phase := p)]
  }

  function Request(id: MsgId, op: Body): Envelope { Envelope(id, op, None, None) }

  // What the runtime answers to one request, given the store and what the emit handler returned.
  function Answer(store: map<string, Json>, op: Body, result: Json): Option<Body> {
    match op
    case Emit(_) => Some(EmitAck(result))
    case SetState(_, _) => Some(SetStateAck)
    case GetState(key) => Some(GetStateAck(if key in store then Some(store[key]) else None))
    case _ => None
  }

  function Effect(store: map<string, Json>, op: Body): map<string, Json> {
    if op.SetState? then store[op.key := op.value] else store
  }

  // Kinds the runtime loop accepts; anything else ends it.
  predicate Accepted(b: Body) { !b.Other? && !b.Hello? && !b.Health? && !b.Shutdown? }

  function Refusal(b: Body): Failure { if b.Hello? then Malformed else UnknownKind }

  // ---- Client call steps ----

  function DoBegin(s: Sys, id: MsgId, op: Body): Option<Sys> {
    if id in s.used || !IsClientOp(op) then None
    else match AcquireSlot(s.conn)
      case None => Some(s.(calls := s.calls[id := Call(op, Done(Raise(TooManyInFlight)))], used := s.used + {id}))
      case Some(c) => Some(s.(conn := c, calls := s.calls[id := Call(op, HoldingSlot)], used := s.used + {id}))
  }

  function DoRegister(s: Sys, id: MsgId): Option<Sys> {
    if !InPhase(s.calls, id, HoldingSlot) then None
    else Some(s.(conn := s.conn.(waiters := RegisterFuture(s.conn.waiters, id)),
                 calls := SetPhase(s.calls, id, Registered)))
  }

  function DoWrite(s: Sys, id: MsgId): Option<Sys> {
    if !InPhase(s.calls, id, Registered) then None
    else
      var frame := Request(id, s.calls[id].op);
      Some(s.(calls := SetPhase(s.calls, id, Waiting), c2r := s.c2r + [frame],
          past := s.past.(sent := s.past.sent + [frame])))
  }

  // Validation, encoding or the write fails, or the calling task is cancelled.
  predicate Abandons(cause: Failure) {
    cause == Malformed || cause == MessageTooLarge || cause == WriteFailed || cause == Cancelled || cause == TimedOut
  }

  function DoAbandon(s: Sys, id: MsgId, cause: Failure, withdraw: bool): Option<Sys> {
    if !Abandons(cause) || (!InPhase(s.calls, id, Registered) && !InPhase(s.calls, id, Waiting)) then None
    else
      var w := if withdraw then WithdrawFuture(s.conn.waiters, id) else s.conn.waiters;
      Some(s.(conn := s.conn.(waiters := w), calls := SetPhase(s.calls, id, Closing(Raise(cause)))))
  }

  function DoCollect(s: Sys, id: MsgId): Option<Sys> {
    if !InPhase(s.calls, id, Waiting) || id !in s.conn.waiters.futures || IsUnsettled(s.conn.waiters, id) then None
    else
      var out := Collected(s.calls[id].op, s.conn.waiters.futures[id]);
      Some(s.(calls := SetPhase(s.calls, id, Closing(out))))
  }

  function DoPopOwn(s: Sys, id: MsgId): Option<Sys> {
    if id !in s.calls || !s.calls[id].phase.Closing? then None
    else Some(s.(conn := s.conn.(waiters := PopFuture(s.conn.waiters, id)),
                 calls := SetPhase(s.calls, id, Releasing(s.calls[id].phase.out))))
  }

  function DoRelease(s: Sys, id: MsgId): Option<Sys> {
    if id !in s.calls || !s.calls[id].phase.Releasing? then None
    else Some(s.(conn := ReleaseSlot(s.conn), calls := SetPhase(s.calls, id, Done(s.calls[id].phase.out))))
  }

  function DoTell(s: Sys, id: MsgId, op: Body): Option<Sys> {
    if id in s.used || !(op.Log? || op.Metric?) then None
    else
      var frame := Request(id, op);
      Some(s.(c2r := s.c2r + [frame], used := s.used + {id}, past := s.past.(sent := s.past.sent + [frame])))
  }

  // ---- Connector dispatch loop steps ----

  function DoCRead(s: Sys): Option<Sys> {
    if s.cloop != CIdle || s.r2c == [] then None
    else Some(s.(cloop := CGot(s.r2c[0]), r2c := s.r2c[1..]))
  }

  function DoCHandle(s: Sys): Option<Sys> {
    match s.cloop
    case CGot(env) =>
      Some(s.(conn := s.conn.(waiters := Resolve(s.conn.waiters, env)),
              cloop := if IsProbe(env.body) && env.error == None then CReply(env) else CIdle))
    case _ => None
  }

  function DoCWriteReply(s: Sys, id: MsgId, status: string): Option<Sys> {
    match s.cloop
    case CReply(env) =>
      if id in s.used then None
      else
        var ack := if env.body.Health? then HealthAck(status) else ShutdownAck;
        var frame := Envelope(id, ack, Some(env.id), None);
        Some(s.(cloop := if env.body.Health? then CIdle else CAcked,
                c2r := s.c2r + [frame], used := s.used + {id},
                past := s.past.(sent := s.past.sent + [frame])))
    case _ => None
  }

  function DoCRaiseCancelled(s: Sys): Option<Sys> {
    if s.cloop != CAcked then None
    else Some(s.(cloop := CIdle, conn := s.conn.(cancelled := true)))
  }

  function DoCFail(s: Sys, cause: Failure): Option<Sys> {
    if !ConnLive(s) || !(cause == MessageTooLarge || cause == Malformed) then None
    else Some(s.(cloop := CFailing, conn := ConnFailAll(s.conn, cause), past := s.past.(debt := |Holders(s.calls)|)))
  }

  function DoCFinally(s: Sys): Option<Sys> {
    if s.cloop.CEnded? then None
    else Some(s.(cloop := CEnded, conn := ConnFailAll(s.conn, StreamClosed),
        past := s.past.(debt := |Holders(s.calls)|)))
  }

  // ---- Runtime dispatch loop steps ----

  function DoRRead(s: Sys): Option<Sys> {
    if s.rloop != RIdle || s.c2r == [] then None
    else Some(s.(rloop := RGot(s.c2r[0]), c2r := s.c2r[1..]))
  }

  function RtFailWith(rt: Rt, cause: Failure): Rt {
    Rt(FailAll(rt.waiters, cause), Some(cause))
  }

  function DoRHandle(s: Sys, result: Json): Option<Sys> {
    match s.rloop
    case RGot(env) =>
      var rt := s.rt.(waiters := Resolve(s.rt.waiters, env));
      if !Accepted(env.body) then Some(s.(rt := RtFailWith(rt, Refusal(env.body)), rloop := RFailing))
      else
        var reply := Answer(s.store, env.body, result);
        Some(s.(rt := rt, store := Effect(s.store, env.body),
                rloop := if reply.Some? then RReply(env, reply.value) else RIdle,
                past := s.past.(log := s.past.log + [Handled(env, result, reply)],
                    at := s.past.at[env.id := |s.past.log|])))
    case _ => None
  }

  // The handler raises, with or without its effect on the store.
  function DoRHandlerFails(s: Sys, applied: bool): Option<Sys> {
    match s.rloop
    case RGot(env) =>
      Some(s.(rt := RtFailWith(s.rt.(waiters := Resolve(s.rt.waiters, env)), HandlerFailed), rloop := RFailing,
              store := if applied then Effect(s.store, env.body) else s.store))
    case _ => None
  }

  function DoRWriteReply(s: Sys, id: MsgId): Option<Sys> {
    match s.rloop
    case RReply(env, reply) =>
      if id in s.used then None
      else Some(s.(rloop := RIdle, r2c := s.r2c + [Envelope(id, reply, Some(env.id), None)], used := s.used + {id}))
    case _ => None
  }

  // A read error, a write error or a peer hangup ends the loop.
  function DoRFail(s: Sys, cause: Failure): Option<Sys> {
    if !RtLive(s) || !(cause == MessageTooLarge || cause == Malformed || cause == Hangup) then None
    else Some(s.(rloop := RFailing, rt := if cause == Hangup then s.rt else RtFailWith(s.rt, cause)))
  }

  function DoRFinally(s: Sys): Option<Sys> {
    if s.rloop.REnded? then None
    else Some(s.(rloop := REnded, rt := s.rt.(waiters := FailAll(s.rt.waiters, StreamClosed))))
  }

  // ---- Runtime request steps ----

  function DoAsk(s: Sys, id: MsgId, op: Body): Option<Sys> {
    if id in s.used || !IsProbe(op) then None
    else Some(s.(rt := s.rt.(waiters := RegisterFuture(s.rt.waiters, id)),
                 probes := s.probes[id := Call(op, Registered)], used := s.used + {id}))
  }

  function DoAskWrite(s: Sys, id: MsgId): Option<Sys> {
    if !InPhase(s.probes, id, Registered) then None
    else Some(s.(probes := SetPhase(s.probes, id, Waiting), r2c := s.r2c + [Request(id, s.probes[id].op)]))
  }

  // A timeout or cancellation withdraws the future; a write failure leaves it to the final pop.
  function DoAskAbandon(s: Sys, id: MsgId, cause: Failure): Option<Sys> {
    if !Abandons(cause) || (!InPhase(s.probes, id, Registered) && !InPhase(s.probes, id, Waiting)) then None
    else
      var w := if cause == WriteFailed then s.rt.waiters else WithdrawFuture(s.rt.waiters, id);
      Some(s.(rt := s.rt.(waiters := w), probes := SetPhase(s.probes, id, Closing(Raise(cause)))))
  }

  function DoAskCollect(s: Sys, id: MsgId): Option<Sys> {
    if !InPhase(s.probes, id, Waiting) || id !in s.rt.waiters.futures || IsUnsettled(s.rt.waiters, id) then None
    else
      var out := Collected(s.probes[id].op, s.rt.waiters.futures[id]);
      Some(s.(probes := SetPhase(s.probes, id, Closing(out))))
  }

  function DoAskPop(s: Sys, id: MsgId): Option<Sys> {
    if id !in s.probes || !s.probes[id].phase.Closing? then None
    else Some(s.(rt := s.rt.(waiters := PopFuture(s.rt.waiters, id)),
                 probes := SetPhase(s.probes, id, Done(s.probes[id].phase.out))))
  }

  // One step of each party: `None` when the action is not enabled.
  function ClientStep(s: Sys, a: ClientAction): Option<Sys> {
    match a
    case Begin(id, op) => DoBegin(s, id, op)
    case Register(id) => DoRegister(s, id)
    case Write(id) => DoWrite(s, id)
    case Abandon(id, cause, withdraw) => DoAbandon(s, id, cause, withdraw)
    case Collect(id) => DoCollect(s, id)
    case PopOwn(id) => DoPopOwn(s, id)
    case Release(id) => DoRelease(s, id)
    case Tell(id, op) => DoTell(s, id, op)
  }

  function ConnStep(s: Sys, a: ConnAction): Option<Sys> {
    match a
    case CRead => DoCRead(s)
    case CHandle => DoCHandle(s)
    case CWriteReply(id, status) => DoCWriteReply(s, id, status)
    case CRaiseCancelled => DoCRaiseCancelled(s)
    case CFail(cause) => DoCFail(s, cause)
    case CFinally => DoCFinally(s)
  }

  function RtStep(s: Sys, a: RtAction): Option<Sys> {
    match a
    case RRead => DoRRead(s)
    case RHandle(result) => DoRHandle(s, result)
    case RHandlerFails(applied) => DoRHandlerFails(s, applied)
    case RWriteReply(id) => DoRWriteReply(s, id)
    case RFail(cause) => DoRFail(s, cause)
    case RFinally => DoRFinally(s)
  }

  function ProbeStep(s: Sys, a: ProbeAction): Option<Sys> {
    match a
    case Ask(id, op) => DoAsk(s, id, op)
    case AskWrite(id) => DoAskWrite(s, id)
    case AskAbandon(id, cause) => DoAskAbandon(s, id, cause)
    case AskCollect(id) => DoAskCollect(s, id)
    case AskPop(id) => DoAskPop(s, id)
  }

  function Step(s: Sys, a: Action): Option<Sys> {
    match a
    case Client(c) => ClientStep(s, c)
    case ConnSide(l) => ConnStep(s, l)
    case RtSide(r) => RtStep(s, r)
    case Probing(p) => ProbeStep(s, p)
  }

  // A whole run: every action must be enabled where it is taken.
  function Run(s: Sys, actions: seq<Action>): Option<Sys>
    decreases |actions|
  {
    if actions == [] then Some(s)
    else match Step(s, actions[0])
      case None => None
      case Some(next) => Run(next, actions[1..])
  }
}
