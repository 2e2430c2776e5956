// The two transport objects, each with a ghost record of its past that its fields must agree with,
// and the connection to the steps of the protocol model.
module Transports {
  import opened Basics
  import opened Wire
  import opened WireReplies
  import opened WireWaiting
  import opened WireTheorems

  // The pending dictionary of a transport and the futures it has handed out.
  class PendingFutures {
    var pending: set<MsgId>
    var futures: map<MsgId, Future>

    ghost predicate Valid() reads this { pending <= futures.Keys }

    ghost function View(): Waiters reads this { Waiters(pending, futures) }

    constructor ()
      ensures Valid() && View() == Waiters({}, map[])
    {
      pending, futures := {}, map[];
    }

    method Register(id: MsgId)
      requires Valid()
      modifies this
      ensures Valid() && View() == RegisterFuture(old(View()), id)
      ensures pending == old(pending) + {id} && futures == old(futures)[id := Unsettled]
    {
      futures := futures[id := Unsettled];
      pending := pending + {id};
    }

    method Pop(id: MsgId) returns (found: bool)
      requires Valid()
      modifies this
      ensures Valid() && View() == PopFuture(old(View()), id)
      ensures pending == old(pending) - {id} && futures == old(futures)
      ensures found <==> id in old(pending)
    {
      found := id in pending;
      pending := pending - {id};
    }

    method ResolveEnvelope(env: Envelope)
      requires Valid()
      modifies this
      ensures Valid() && View() == Resolve(old(View()), env) && SettledOnce(old(View()), View())
      ensures pending == if env.idRef.Some? then old(pending) - {env.idRef.value} else old(pending)
      ensures
        futures == if env.idRef.Some? && env.idRef.value in old(pending) && old(futures)[env.idRef.value] == Unsettled
                   then old(futures)[env.idRef.value := Delivery(env)]
                   else old(futures)
    {
      if env.idRef == None {
        return;
      }
      var id := env.idRef.value;
      var found := Pop(id);
      if !found || futures[id] != Unsettled {
        return;
      }
      match env.error {
        case Some(code) => futures := futures[id := Exception(PeerError(code))];
        case None => futures := futures[id := Value(env)];
      }
    }

    method FailAllPending(cause: Failure)
      requires Valid()
      modifies this
      ensures Valid() && View() == FailAll(old(View()), cause)
      ensures SettledOnce(old(View()), View()) && PendingSettled(old(View()), View())
      ensures FailedWith(old(View()), View(), cause)
    {
      var todo := pending;
      pending := {};
      while todo != {}
        invariant pending == {} && todo <= old(pending) && futures.Keys == old(futures).Keys
        invariant forall id | id in futures ::
          futures[id] == if id in old(pending) - todo && old(futures)[id] == Unsettled then Exception(cause)
              else old(futures)[id]
        decreases todo
      {
        var id :| id in todo;
        todo := todo - {id};
        if futures[id] == Unsettled {
          futures := futures[id := Exception(cause)];
        }
      }
      FailAllSettlesPending(old(View()), None, cause);
    }
  }

  // The envelope itself, or the error the peer put into it.
  function Delivery(env: Envelope): Future {
    if env.error.Some? then Exception(PeerError(env.error.value)) else Value(env)
  }

  // Connector side.
  class StdioTransport {
    const table: PendingFutures
    var inFlightAck: int
    var cancelledEvent: bool
    ghost var holders: set<MsgId>   // calls between acquiring and releasing a slot
    ghost var debt: nat             // calls that held a slot when the counter was last reset
    ghost var ended: bool           // the dispatch loop has failed its pending futures

    // Until the loop has ended the counter is the number of slots held.
    ghost predicate Valid()
      reads this, table
    {
      && table.Valid()
      && inFlightAck == |holders| - debt && inFlightAck <= MAX_IN_FLIGHT
      && (!ended ==> debt == 0)
    }

    ghost function View(): Conn
      reads this, table
    {
      Conn(table.View(), inFlightAck, cancelledEvent)
    }

    constructor ()
      ensures Valid() && fresh(table) && View() == Start(map[]).conn && holders == {} && !ended
    {
      table := new PendingFutures();
      inFlightAck, cancelledEvent, holders, debt, ended := 0, false, {}, 0, false;
    }

    method AcquireInFlightSlot(ghost id: MsgId) returns (ok: bool)
      requires Valid() && id !in holders
      modifies this`inFlightAck, this`holders
      ensures Valid() && holders == if ok then old(holders) + {id} else old(holders)
      ensures ok <==> |old(holders)| < MAX_IN_FLIGHT + debt
    {
      if inFlightAck >= 64 {
        return false;
      }
      inFlightAck := inFlightAck + 1;
      holders := holders + {id};
      ok := true;
    }

    method ReleaseInFlightSlot(ghost id: MsgId)
      requires Valid() && id in holders
      modifies this`inFlightAck, this`holders
      ensures Valid() && holders == old(holders) - {id}
    {
      inFlightAck := inFlightAck - 1;
      holders := holders - {id};
    }

    method FailAllPending(cause: Failure)
      requires Valid()
      modifies this`inFlightAck, this`debt, this`ended, table
      ensures Valid() && ended && debt == |holders|
      ensures View() == ConnFailAll(old(View()), cause) && PendingSettled(old(table.View()), table.View())
      ensures FailedWith(old(table.View()), table.View(), cause)
      ensures inFlightAck == 0 && cancelledEvent == old(cancelledEvent) && holders == old(holders)
    {
      table.FailAllPending(cause);
      inFlightAck := 0;
      debt, ended := |holders|, true;
    }

    // Resolves the envelope, writes the ack a probe is owed, and raises cancellation last.
    method HandleIncoming(env: Envelope, status: string, id: MsgId) returns (written: seq<Envelope>)
      requires Valid()
      modifies this`cancelledEvent, table
      ensures Valid() && (View(), written) == Incoming(old(View()), env, status, id)
      ensures SettledOnce(old(table.View()), table.View())
      ensures cancelledEvent <==> old(cancelledEvent) || (env.body.Shutdown? && env.error == None)
      ensures env.body.Health? && env.error == None ==> written == [Envelope(id, HealthAck(status), Some(env.id), None)]
      ensures env.body.Shutdown? && env.error == None ==> written == [Envelope(id, ShutdownAck, Some(env.id), None)]
      ensures (!env.body.Health? && !env.body.Shutdown?) || env.error.Some? ==> written == []
    {
      written := [];
      if env.idRef != None {
        table.ResolveEnvelope(env);
      }
      assert table.View() == Resolve(old(table.View()), env);
      if env.body.Health? && env.error == None {
        written := [Envelope(id, HealthAck(status), Some(env.id), None)];
      } else if env.body.Shutdown? && env.error == None {
        written := [Envelope(id, ShutdownAck, Some(env.id), None)];
        cancelledEvent := true;
      }
    }
  }

  // One incoming frame handled without interruption, and the ack written for it.
  function Incoming(c: Conn, env: Envelope, status: string, id: MsgId): (Conn, seq<Envelope>) {
    var resolved := c.(waiters := Resolve(c.waiters, env));
    if !IsProbe(env.body) || env.error != None then (resolved, [])
    else
      (resolved.(cancelled := c.cancelled || env.body.Shutdown?),
       [Envelope(id, if env.body.Health? then HealthAck(status) else ShutdownAck, Some(env.id), None)])
  }

  // The protocol model's steps for that frame, one after the other.
  function IncomingSteps(env: Envelope, status: string, id: MsgId): seq<Action> {
    if !IsProbe(env.body) || env.error != None then [ConnSide(CHandle)]
    else if env.body.Health? then [ConnSide(CHandle), ConnSide(CWriteReply(id, status))]
    else [ConnSide(CHandle), ConnSide(CWriteReply(id, status)), ConnSide(CRaiseCancelled)]
  }

  // Handling a frame is a run of the protocol model, which its invariants and theorems cover.
  lemma IncomingIsARun(s: Sys, env: Envelope, status: string, id: MsgId)
    requires s.cloop == CGot(env) && id !in s.used
    ensures var t, r := Run(s, IncomingSteps(env, status, id)), Incoming(s.conn, env, status, id);
      t.Some? && t.value.cloop == CIdle && (t.value.conn, t.value.c2r) == (r.0, s.c2r + r.1)
  {
    var t1 := DoCHandle(s).value;
    assert Run(t1, []) == Some(t1) && s.c2r + [] == s.c2r;
    if IsProbe(env.body) && env.error == None {
      var t2 := DoCWriteReply(t1, id, status).value;
      assert Run(t2, []) == Some(t2);
      assert Run(t1, [ConnSide(CWriteReply(id, status))]) == Some(t2);
      if env.body.Shutdown? {
        var t3 := DoCRaiseCancelled(t2).value;
        assert Run(t3, []) == Some(t3);
        assert Run(t2, [ConnSide(CRaiseCancelled)]) == Some(t3);
        assert Run(t1, [ConnSide(CWriteReply(id, status)), ConnSide(CRaiseCancelled)]) == Some(t3);
      }
    }
  }

  // Runtime side, with the state handlers' table.
  class ConnectorRuntimeTransport {
    const table: PendingFutures
    var fatalProtocolError: Option<Failure>
    var store: map<string, Json>
    ghost const store0: map<string, Json>
    ghost var log: seq<Handled>   // frames handled, with what was answered

    // The store is what the handled frames made of it, and each reply was right at its place.
    ghost predicate Valid()
      reads this, table
    {
      table.Valid() && store == Replay(store0, log) && RightReplies(store0, log)
    }

    ghost function View(): Rt
      reads this, table
    {
      Rt(table.View(), fatalProtocolError)
    }

    constructor (initial: map<string, Json>)
      ensures Valid() && fresh(table) && View() == Start(initial).rt && store0 == initial && log == []
    {
      table := new PendingFutures();
      fatalProtocolError, store, store0, log := None, initial, initial, [];
    }

    // The handler for one kind of frame.
    method Handle(op: Body, emitted: Json) returns (outcome: Result<Option<Body>, Failure>)
      modifies this`store
      ensures outcome == if Accepted(op) then Ok(Answer(old(store), op, emitted)) else Err(Refusal(op))
      ensures store == if Accepted(op) then Effect(old(store), op) else old(store)
    {
      match op {
        case Emit(_) => outcome := Ok(Some(EmitAck(emitted)));
        case SetState(key, value) =>
          store := store[key := value];
          outcome := Ok(Some(SetStateAck));
        case GetState(key) =>
          if key in store {
            outcome := Ok(Some(GetStateAck(Some(store[key]))));
          } else {
            outcome := Ok(Some(GetStateAck(None)));
          }
        case Hello => outcome := Err(Malformed);
        case Other(_) => outcome := Err(UnknownKind);
        case Health => outcome := Err(UnknownKind);
        case Shutdown => outcome := Err(UnknownKind);
        case _ => outcome := Ok(None);
      }
    }

    // One dispatched frame; `emitted` is what the emit handler returns for it. The outcome is the
    // reply to write, if any, or the failure that ends the loop.
    method DispatchOne(env: Envelope, emitted: Json) returns (outcome: Result<Option<Body>, Failure>)
      requires Valid()
      modifies this`store, this`log, table
      ensures Valid() && table.View() == Resolve(old(table.View()), env) && SettledOnce(old(table.View()), table.View())
      ensures outcome.Ok? ==> log == old(log) + [Handled(env, emitted, outcome.value)]
      ensures outcome.Err? ==> log == old(log) && store == old(store)
      ensures outcome.Ok? <==> !env.body.Hello? && !env.body.Other? && !env.body.Health? && !env.body.Shutdown?
      ensures outcome.Err? ==> outcome.error == if env.body.Hello? then Malformed else UnknownKind
    {
      if env.idRef != None {
        table.ResolveEnvelope(env);
      }
      ghost var before := store;
      outcome := Handle(env.body, emitted);
      if outcome.Ok? {
        HandlingKeepsStore(store0, log, before, Handled(env, emitted, outcome.value));
        log := log + [Handled(env, emitted, outcome.value)];
      }
    }

    // The `except` clauses of the dispatch loop: a peer hangup leaves no fatal error behind.
    method EndLoop(cause: Failure)
      requires Valid()
      modifies this`fatalProtocolError, table
      ensures Valid() && PendingSettled(old(table.View()), table.View())
      ensures fatalProtocolError == if cause == Hangup then old(fatalProtocolError) else Some(cause)
      ensures View() == EndedWith(old(View()), cause)
      ensures FailedWith(old(table.View()), table.View(), if cause == Hangup then StreamClosed else cause)
    {
      if cause != Hangup {
        table.FailAllPending(cause);
        fatalProtocolError := Some(cause);
      }
      table.FailAllPending(StreamClosed);
    }
  }

  function EndedWith(rt: Rt, cause: Failure): Rt {
    var failed := if cause == Hangup then rt else RtFailWith(rt, cause);
    failed.(waiters := FailAll(failed.waiters, StreamClosed))
  }

  // Dispatching a frame is the handling step of the protocol model, or the one that refuses its kind.
  lemma DispatchIsAStep(s: Sys, env: Envelope, emitted: Json)
    requires s.rloop == RGot(env)
    ensures var t := RtStep(s, RHandle(emitted));
      && t.Some?
      && (Accepted(env.body) ==>
            && t.value.rt.waiters == Resolve(s.rt.waiters, env)
            && t.value.past.log == s.past.log + [Taken(s, emitted)]
            && t.value.store == Effect(s.store, env.body)
            && t.value.rloop == match Taken(s, emitted).reply case Some(r) => RReply(env, r) case None => RIdle)
      && (!Accepted(env.body) ==>
            t.value.rloop == RFailing && t.value.rt == RtFailWith(s.rt.(waiters := Resolve(s.rt.waiters, env)),
                Refusal(env.body)))
  {
  }

  // Ending the loop after a read failure is a run of the protocol model.
  lemma EndingIsARun(s: Sys, cause: Failure)
    requires RtLive(s) && (cause == MessageTooLarge || cause == Malformed || cause == Hangup)
    ensures var t := Run(s, [RtSide(RFail(cause)), RtSide(RFinally)]);
      t.Some? && t.value.rloop == REnded && t.value.rt == EndedWith(s.rt, cause)
  {
    var t1 := DoRFail(s, cause).value;
    var t2 := DoRFinally(t1).value;
    assert Run(t2, []) == Some(t2);
    assert Run(t1, [RtSide(RFinally)]) == Some(t2);
  }
}
