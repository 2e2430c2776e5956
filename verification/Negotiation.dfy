// The hello exchange that settles the protocol version.
module Negotiation {
  import opened Basics

  datatype Code = UnsupportedVersion | OtherCode

  datatype Payload = Hello(versions: seq<int>, config: Json) | HelloAck(version: int) | OtherPayload

  datatype Kind = HelloKind | HelloAckKind | OtherKind

  datatype Envelope = Envelope(v: int, kind: Kind, payload: Payload, error: Option<Code>)

  // How a procedure ends: the agreed version, or what it raises. MAX of no versions raises ValueError.
  datatype Outcome = Agreed(version: int) | Unsupported | ProtocolError | TimedOut | ValueError

  // ---- Versions ----

  function Max(s: seq<int>): (m: int)
    requires s != []
    ensures m in s && forall x | x in s :: x <= m
  {
    if |s| == 1 then s[0]
    else
      var rest := Max(s[1..]);
      assert forall x | x in s :: x == s[0] || x in s[1..];
      if s[0] > rest then s[0] else rest
  }

  function Common(left: seq<int>, right: seq<int>): (r: seq<int>)
    ensures forall x :: x in r <==> x in left && x in right
  {
    if left == [] then []
    else
      assert left == [left[0]] + left[1..];
      (if left[0] in right then [left[0]] else []) + Common(left[1..], right)
  }

  // The highest version both lists hold, and none exactly when they share none.
  predicate IsHighest(v: int, left: seq<int>, right: seq<int>) {
    v in left && v in right && forall x | x in left && x in right :: x <= v
  }

  function HighestOverlap(left: seq<int>, right: seq<int>): (r: Option<int>)
    ensures match r
            case None => forall x | x in left :: x !in right
            case Some(v) => IsHighest(v, left, right)
  {
    var overlap := Common(left, right);
    if overlap == [] then
      assert forall x | x in left :: x in right ==> x in overlap;
      None
    else Some(Max(overlap))
  }

  // ---- The procedures, from one wait to the next ----

  predicate IsAck(e: Envelope) { e.kind == HelloAckKind && e.payload.HelloAck? }

  // What the runtime does with the reply: an outcome, and a message to write before it.
  function OnReply(supported: seq<int>, reply: Envelope): (Outcome, seq<Envelope>)
    requires supported != []
  {
    if reply.error.Some? then
      (if reply.error.value == UnsupportedVersion then Unsupported else ProtocolError, [])
    else if !IsAck(reply) then (ProtocolError, [])
    else
      match HighestOverlap(supported, [reply.payload.version])
      case Some(v) => (Agreed(v), [])
      case None =>
        (Unsupported, [Envelope(Max(supported), HelloAckKind, OtherPayload, Some(UnsupportedVersion))])
  }

  // The connector's next state: finished, or waiting for the runtime's refusal.
  datatype Connector = AwaitingHello | AwaitingRefusal | Finished(outcome: Outcome, config: Json)

  function OnHello(supported: seq<int>, hello: Envelope): (Connector, seq<Envelope>) {
    if hello.error.Some? || hello.kind != HelloKind || !hello.payload.Hello? then (Finished(ProtocolError, Null), [])
    else
      match HighestOverlap(hello.payload.versions, supported)
      case Some(v) =>
        (Finished(Agreed(v), hello.payload.config), [Envelope(hello.v, HelloAckKind, HelloAck(v), None)])
      case None =>
        if supported == [] then (Finished(ValueError, Null), [])
        else (AwaitingRefusal, [Envelope(hello.v, HelloAckKind, HelloAck(Max(supported)), None)])
  }

  class StreamWriter {
    var written: seq<Envelope>

    method Write(e: Envelope)
      modifies this
      ensures written == old(written) + [e]
    {
      written := written + [e];
    }
  }

  method SendHello(writer: StreamWriter, supported: seq<int>, config: Json) returns (raised: Option<Outcome>)
    modifies writer
    ensures raised == (if supported == [] then Some(ValueError) else None)
    ensures writer.written == old(writer.written)
         + if supported == [] then [] else [Envelope(Max(supported), HelloKind, Hello(supported, config), None)]
  {
    if supported == [] {
      return Some(ValueError);
    }
    writer.Write(Envelope(Max(supported), HelloKind, Hello(supported, config), None));
    raised := None;
  }

  method FinishRuntime(writer: StreamWriter, supported: seq<int>, reply: Envelope) returns (outcome: Outcome)
    requires supported != []
    modifies writer
    ensures outcome == OnReply(supported, reply).0
    ensures writer.written == old(writer.written) + OnReply(supported, reply).1
    ensures reply.error.Some? ==>
      outcome == (if reply.error.value == UnsupportedVersion then Unsupported else ProtocolError)
    ensures reply.error == None && !IsAck(reply) ==> outcome == ProtocolError
    ensures reply.error == None && IsAck(reply) ==>
      outcome == if reply.payload.version in supported then Agreed(reply.payload.version) else Unsupported
    ensures writer.written == old(writer.written) +
      if reply.error == None && IsAck(reply) && reply.payload.version !in supported
      then [Envelope(Max(supported), HelloAckKind, OtherPayload, Some(UnsupportedVersion))] else []
  {
    if reply.error.Some? {
      return if reply.error.value == UnsupportedVersion then Unsupported else ProtocolError;
    }
    if !IsAck(reply) {
      return ProtocolError;
    }
    var agreed := HighestOverlap(supported, [reply.payload.version]);
    if agreed.None? {
      writer.Write(Envelope(Max(supported), HelloAckKind, OtherPayload, Some(UnsupportedVersion)));
      return Unsupported;
    }
    outcome := Agreed(agreed.value);
  }

  method AnswerHello(writer: StreamWriter, supported: seq<int>, hello: Envelope) returns (next: Connector)
    modifies writer
    ensures next == OnHello(supported, hello).0
    ensures writer.written == old(writer.written) + OnHello(supported, hello).1
    ensures hello.error.Some? || hello.kind != HelloKind || !hello.payload.Hello? ==>
      next == Finished(ProtocolError, Null) && writer.written == old(writer.written)
    ensures hello.error == None && hello.kind == HelloKind && hello.payload.Hello? ==>
      var common := exists x :: x in hello.payload.versions && x in supported;
      && (!common && supported == [] ==> next == Finished(ValueError, Null) && writer.written == old(writer.written))
      && (!common && supported != [] ==>
            && next == AwaitingRefusal
            && writer.written == old(writer.written)
                 + [Envelope(hello.v, HelloAckKind, HelloAck(Max(supported)), None)])
      && (common ==>
            && next.Finished? && next.outcome.Agreed? && next.config == hello.payload.config
            && IsHighest(next.outcome.version, hello.payload.versions, supported)
            && writer.written == old(writer.written)
                 + [Envelope(hello.v, HelloAckKind, HelloAck(next.outcome.version), None)])
  {
    if hello.error.Some? || hello.kind != HelloKind || !hello.payload.Hello? {
      return Finished(ProtocolError, Null);
    }
    var agreed := HighestOverlap(hello.payload.versions, supported);
    if agreed.None? && supported == [] {
      return Finished(ValueError, Null);
    }
    var advertised := if agreed.Some? then agreed.value else Max(supported);
    writer.Write(Envelope(hello.v, HelloAckKind, HelloAck(advertised), None));
    if agreed.None? {
      return AwaitingRefusal;
    }
    next := Finished(Agreed(agreed.value), hello.payload.config);
  }

  // ---- The two run against each other ----

  datatype Runtime = Starting | AwaitingReply | Ended(outcome: Outcome)

  datatype World = World(rt: Runtime, conn: Connector, toConn: seq<Envelope>, toRt: seq<Envelope>)

  // The versions each side supports and the configuration handed over.
  datatype Setting = Setting(rv: seq<int>, cv: seq<int>, config: Json)

  // A read that times out, or meets the end of the stream once what was written has been read.
  datatype Break = TimeUp | StreamEnd

  datatype Action = RtSends | RtReads | ConnReads | RtBreaks(b: Break) | ConnBreaks(b: Break)

  function Start(): World { World(Starting, AwaitingHello, [], []) }

  predicate Enabled(w: World, a: Action) {
    match a
    case RtSends => w.rt.Starting?
    case RtReads => w.rt.AwaitingReply? && w.toRt != []
    case ConnReads => !w.conn.Finished? && w.toConn != []
    case RtBreaks(b) => w.rt.AwaitingReply? && (b == StreamEnd ==> w.toRt == [])
    case ConnBreaks(b) => !w.conn.Finished? && (b == StreamEnd ==> w.toConn == [])
  }

  function BreakOutcome(b: Break): Outcome { if b == TimeUp then TimedOut else ProtocolError }

  function Step(p: Setting, w: World, a: Action): World
    requires Enabled(w, a)
  {
    match a
    case RtSends =>
      if p.rv == [] then w.(rt := Ended(ValueError))
      else w.(rt := AwaitingReply, toConn := w.toConn + [Envelope(Max(p.rv), HelloKind, Hello(p.rv, p.config), None)])
    case RtReads =>
      if p.rv == [] then w
      else
        var (outcome, out) := OnReply(p.rv, w.toRt[0]);
        w.(rt := Ended(outcome), toRt := w.toRt[1..], toConn := w.toConn + out)
    case ConnReads =>
      if w.conn.AwaitingHello? then
        var (next, out) := OnHello(p.cv, w.toConn[0]);
        w.(conn := next, toConn := w.toConn[1..], toRt := w.toRt + out)
      else w.(conn := Finished(Unsupported, Null), toConn := w.toConn[1..])
    case RtBreaks(b) => w.(rt := Ended(BreakOutcome(b)))
    case ConnBreaks(b) => w.(conn := Finished(BreakOutcome(b), Null))
  }

  function Run(p: Setting, w: World, actions: seq<Action>): World
    decreases |actions|
  {
    if actions == [] then w
    else Run(p, if Enabled(w, actions[0]) then Step(p, w, actions[0]) else w, actions[1..])
  }

  predicate Breaking(a: Action) { a.RtBreaks? || a.ConnBreaks? }

  predicate Disjoint(p: Setting) { forall x | x in p.rv :: x !in p.cv }

  // What the runtime may have ended with.
  predicate RuntimeOk(p: Setting, r: Runtime) {
    r.Ended? ==>
      match r.outcome
      case Agreed(v) => IsHighest(v, p.rv, p.cv)
      case Unsupported => Disjoint(p)
      case ValueError => p.rv == []
      case TimedOut => true
      case ProtocolError => true
  }

  predicate ConnectorOk(p: Setting, c: Connector) {
    match c
    case AwaitingHello => true
    case AwaitingRefusal => Disjoint(p)
    case Finished(outcome, config) =>
      match outcome
      case Agreed(v) => IsHighest(v, p.rv, p.cv) && config == p.config
      case Unsupported => Disjoint(p)
      case ValueError => p.cv == []
      case TimedOut => true
      case ProtocolError => true
  }

  function HelloOf(p: Setting): Envelope
    requires p.rv != []
  {
    Envelope(Max(p.rv), HelloKind, Hello(p.rv, p.config), None)
  }

  function AckOf(p: Setting): seq<Envelope>
    requires p.rv != []
  {
    OnHello(p.cv, HelloOf(p)).1
  }

  // Which messages can be under way at each pair of positions; `clean` when no read has broken off.
  ghost predicate InFlight(p: Setting, w: World, clean: bool) {
    && (w.rt.Starting? ==> w.toConn == [] && w.toRt == [] && (clean ==> w.conn.AwaitingHello?))
    && (w.rt.AwaitingReply? ==> p.rv != [])
    && (w.conn.AwaitingHello? ==> w.toRt == [] && (w.toConn == [] || (p.rv != [] && w.toConn == [HelloOf(p)])))
    && (w.conn.AwaitingHello? && clean ==>
          w.rt.Starting? || w.rt == Ended(ValueError) || (w.rt.AwaitingReply? && w.toConn != []))
    && (!w.conn.AwaitingHello? ==> w.toRt == [] || (p.rv != [] && w.toRt == AckOf(p)))
    && (clean && w.rt.AwaitingReply? && !w.conn.AwaitingHello? ==>
          w.toConn == [] && w.toRt == AckOf(p) && w.conn == OnHello(p.cv, HelloOf(p)).0)
    && (clean && w.rt.Ended? && w.rt.outcome.Agreed? ==> w.conn.Finished? && w.conn.outcome.Agreed?)
    && (clean && w.rt == Ended(Unsupported) ==>
          if w.conn.AwaitingRefusal? then w.toConn != [] else w.conn.Finished? && w.conn.outcome == Unsupported)
    && (clean && w.rt == Ended(ValueError) ==> w.conn.AwaitingHello?)
    && (clean ==> w.rt != Ended(TimedOut) && w.rt != Ended(ProtocolError))
    && (clean && w.conn.Finished? ==> w.conn.outcome != TimedOut && w.conn.outcome != ProtocolError)
  }

  ghost predicate Inv(p: Setting, w: World, clean: bool) {
    RuntimeOk(p, w.rt) && ConnectorOk(p, w.conn) && InFlight(p, w, clean)
  }

  lemma AckDecides(p: Setting)
    requires p.rv != []
    ensures var (next, acks) := OnHello(p.cv, HelloOf(p)); ConnectorOk(p, next) && !next.AwaitingHello?
    ensures var acks := AckOf(p); |acks| <= 1 && (acks == [] <==> p.cv == [])
    ensures var acks := AckOf(p); acks != [] ==>
      var outcome := OnReply(p.rv, acks[0]).0;
      && RuntimeOk(p, Ended(outcome)) && (outcome.Agreed? || outcome == Unsupported)
      && (outcome.Agreed? <==> OnHello(p.cv, HelloOf(p)).0.Finished?)
      && (outcome == Unsupported <==> OnReply(p.rv, acks[0]).1 != [])
      && (outcome.Agreed? ==> OnHello(p.cv, HelloOf(p)).0 == Finished(outcome, p.config))
  {
  }

  lemma StepKeepsInv(p: Setting, w: World, a: Action, clean: bool)
    requires Inv(p, w, clean) && Enabled(w, a)
    ensures Inv(p, Step(p, w, a), clean && !Breaking(a))
  {
    if !Breaking(a) {
      ExchangeKeepsInv(p, w, a, clean);
    }
  }

  lemma ExchangeKeepsInv(p: Setting, w: World, a: Action, clean: bool)
    requires Inv(p, w, clean) && Enabled(w, a) && !Breaking(a)
    ensures Inv(p, Step(p, w, a), clean)
  {
    if p.rv != [] {
      AckDecides(p);
    }
  }

  predicate NoBreaks(actions: seq<Action>) {
    actions == [] || (!Breaking(actions[0]) && NoBreaks(actions[1..]))
  }

  lemma Weaken(p: Setting, w: World, clean: bool)
    requires Inv(p, w, clean)
    ensures Inv(p, w, false)
  {}

  lemma {:induction false} RunKeepsInv(p: Setting, w: World, actions: seq<Action>, clean: bool)
    requires Inv(p, w, clean)
    ensures Inv(p, Run(p, w, actions), clean && NoBreaks(actions))
    decreases |actions|
  {
    if actions != [] {
      var next := w;
      if Enabled(w, actions[0]) {
        next := Step(p, w, actions[0]);
        StepKeepsInv(p, w, actions[0], clean);
      } else {
        Weaken(p, w, clean);
      }
      RunKeepsInv(p, next, actions[1..], clean && !Breaking(actions[0]));
    }
  }

  // Whatever happens, time-outs and closed streams included: a version that either side returns is the
  // highest common one, the configuration arrives as sent, and the version is refused only if there is
  // none. Neither side times out or gets a protocol error unless a read broke off.
  lemma NegotiationIsSound(p: Setting, actions: seq<Action>)
    ensures var w := Run(p, Start(), actions);
      && (w.rt.Ended? && w.rt.outcome.Agreed? ==> IsHighest(w.rt.outcome.version, p.rv, p.cv))
      && (w.conn.Finished? && w.conn.outcome.Agreed? ==>
            IsHighest(w.conn.outcome.version, p.rv, p.cv) && w.conn.config == p.config)
      && (w.rt == Ended(Unsupported) || (w.conn.Finished? && w.conn.outcome == Unsupported) ==> Disjoint(p))
      && (NoBreaks(actions) ==> w.rt != Ended(ProtocolError) && w.rt != Ended(TimedOut))
      && (NoBreaks(actions) && w.conn.Finished? ==> w.conn.outcome != ProtocolError && w.conn.outcome != TimedOut)
  {
    RunKeepsInv(p, Start(), actions, true);
    Weaken(p, Run(p, Start(), actions), NoBreaks(actions));
  }

  ghost predicate Over(w: World) {
    forall a | Enabled(w, a) :: Breaking(a)
  }

  // With two non-empty lists and no read broken off the exchange does not get stuck, and it ends in one of two
  // ways: both return the highest common version, or, exactly when there is none, both refuse.
  lemma BothAgreeOrBothRefuse(p: Setting, actions: seq<Action>)
    requires p.rv != [] && p.cv != [] && NoBreaks(actions)
    requires Over(Run(p, Start(), actions))
    ensures var w := Run(p, Start(), actions);
      && w.rt.Ended? && w.conn.Finished? && w.rt.outcome == w.conn.outcome
      && (w.rt.outcome == Unsupported <==> Disjoint(p))
      && (w.rt.outcome != Unsupported ==>
            w.rt.outcome.Agreed? && IsHighest(w.rt.outcome.version, p.rv, p.cv) && w.conn.config == p.config)
  {
    var w := Run(p, Start(), actions);
    RunKeepsInv(p, Start(), actions, true);
    AckDecides(p);
    assert !Enabled(w, RtSends) && !Enabled(w, RtReads) && !Enabled(w, ConnReads);
    EndsTogether(p, w);
  }

  lemma EndsTogether(p: Setting, w: World)
    requires p.rv != [] && p.cv != [] && Inv(p, w, true)
    requires !Enabled(w, RtSends) && !Enabled(w, RtReads) && !Enabled(w, ConnReads)
    ensures w.rt.Ended? && w.conn.Finished? && w.rt.outcome == w.conn.outcome
    ensures w.rt.outcome == Unsupported <==> Disjoint(p)
    ensures w.rt.outcome == Unsupported || w.rt.outcome.Agreed?
  {
    AckDecides(p);
    if w.rt.Ended? && w.rt.outcome.Agreed? {
      assert w.rt.outcome.version in p.rv && w.rt.outcome.version in p.cv;
    }
  }

  // Every step but a skipped one uses up work, so a run can always be continued to its end.
  function Work(w: World): nat {
    (match w.rt case Starting => 5 case AwaitingReply => 2 case Ended(_) => 0)
    + (match w.conn case AwaitingHello => 3 case AwaitingRefusal => 1 case Finished(_, _) => 0)
  }

  lemma StepsRunOut(p: Setting, w: World, a: Action)
    requires Inv(p, w, false) && Enabled(w, a)
    ensures Work(Step(p, w, a)) < Work(w)
  {
    if p.rv != [] {
      AckDecides(p);
    }
  }
}
