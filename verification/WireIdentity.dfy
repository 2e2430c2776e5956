// Identity and order: who wrote which frame, and in which order the runtime handles them.
module WireIdentity {
  import opened Basics
  import opened Wire

  // A connector-written frame is a call's request, a log or metric record, or an ack of a probe.
  ghost predicate Genuine(f: Envelope, calls: map<MsgId, Call>, probes: map<MsgId, Call>) {
    && f.error == None
    && f.id !in probes
    && (f.id in calls ==>
          f == Request(f.id, calls[f.id].op)
          && calls[f.id].phase != HoldingSlot && calls[f.id].phase != Registered)
    && (f.id !in calls ==>
          ((f.body.Log? || f.body.Metric?) && f.idRef == None)
          || (f.idRef.Some? && f.idRef.value in probes && Answers(probes[f.idRef.value].op, f.body)))
  }

  // A frame the runtime sends on its own behalf.
  ghost predicate IsProbeFrame(f: Envelope, probes: map<MsgId, Call>) {
    f.idRef == None && f.error == None && f.id in probes && f.body == probes[f.id].op
  }

  ghost predicate IdentityOf(calls: map<MsgId, Call>, probes: map<MsgId, Call>, used: set<MsgId>, sent: seq<Envelope>) {
    && calls.Keys <= used
    && probes.Keys <= used
    && calls.Keys !! probes.Keys
    && (forall id | id in calls :: IsClientOp(calls[id].op))
    && (forall id | id in probes :: IsProbe(probes[id].op))
    && (forall i | 0 <= i < |sent| :: sent[i].id in used && Genuine(sent[i], calls, probes))
    && (forall i, j | 0 <= i < j < |sent| :: sent[i].id != sent[j].id)
  }

  ghost predicate Identity(s: Sys) { IdentityOf(s.calls, s.probes, s.used, s.past.sent) }

  // A call's request frame: no earlier frame carries its id, since the call was not yet waiting.
  lemma WriteKeepsIdentity(calls: map<MsgId, Call>, probes: map<MsgId, Call>, used: set<MsgId>, sent: seq<Envelope>,
                           id: MsgId)
    requires IdentityOf(calls, probes, used, sent) && InPhase(calls, id, Registered)
    ensures IdentityOf(SetPhase(calls, id, Waiting), probes, used, sent + [Request(id, calls[id].op)])
  {
  }

  // Any other frame: its identifier is drawn when it is written.
  lemma SendKeepsIdentity(calls: map<MsgId, Call>, probes: map<MsgId, Call>, used: set<MsgId>, sent: seq<Envelope>,
                          f: Envelope)
    requires IdentityOf(calls, probes, used, sent) && f.id !in used && f.error == None
    requires ((f.body.Log? || f.body.Metric?) && f.idRef == None)
          || (f.idRef.Some? && f.idRef.value in probes && Answers(probes[f.idRef.value].op, f.body))
    ensures IdentityOf(calls, probes, used + {f.id}, sent + [f])
  {
  }

  lemma PhaseKeepsIdentity(calls: map<MsgId, Call>, probes: map<MsgId, Call>, used: set<MsgId>, sent: seq<Envelope>,
                           id: MsgId, p: Phase)
    requires IdentityOf(calls, probes, used, sent) && id in calls
    requires p == Registered ==> calls[id].phase == HoldingSlot
    requires p != HoldingSlot
    ensures IdentityOf(SetPhase(calls, id, p), probes, used, sent)
  {
  }

  lemma NewCallKeepsIdentity(calls: map<MsgId, Call>, probes: map<MsgId, Call>, used: set<MsgId>, sent: seq<Envelope>,
                             id: MsgId, c: Call)
    requires IdentityOf(calls, probes, used, sent) && id !in used && IsClientOp(c.op)
    ensures IdentityOf(calls[id := c], probes, used + {id}, sent)
  {
  }

  lemma NewProbeKeepsIdentity(calls: map<MsgId, Call>, probes: map<MsgId, Call>, used: set<MsgId>, sent: seq<Envelope>,
                              id: MsgId, c: Call)
    requires IdentityOf(calls, probes, used, sent) && id !in used && IsProbe(c.op)
    ensures IdentityOf(calls, probes[id := c], used + {id}, sent)
  {
  }

  lemma NewIdKeepsIdentity(calls: map<MsgId, Call>, probes: map<MsgId, Call>, used: set<MsgId>, sent: seq<Envelope>,
                           id: MsgId)
    requires IdentityOf(calls, probes, used, sent)
    ensures IdentityOf(calls, probes, used + {id}, sent)
  {
  }

  lemma ProbePhaseKeepsIdentity(calls: map<MsgId, Call>, probes: map<MsgId, Call>, used: set<MsgId>,
                                sent: seq<Envelope>, id: MsgId, p: Phase)
    requires IdentityOf(calls, probes, used, sent) && id in probes
    ensures IdentityOf(calls, SetPhase(probes, id, p), used, sent)
  {
  }

  lemma IdentityClient(s: Sys, a: ClientAction)
    requires Identity(s) && ClientStep(s, a).Some?
    ensures Identity(ClientStep(s, a).value)
  {
    var t := ClientStep(s, a).value;
    match a
    case Begin(id, op) => NewCallKeepsIdentity(s.calls, s.probes, s.used, s.past.sent, id, t.calls[id]);
    case Write(id) => WriteKeepsIdentity(s.calls, s.probes, s.used, s.past.sent, id);
    case Tell(id, op) => SendKeepsIdentity(s.calls, s.probes, s.used, s.past.sent, Request(id, op));
    case _ => PhaseKeepsIdentity(s.calls, s.probes, s.used, s.past.sent, a.id, t.calls[a.id].phase);
  }

  lemma IdentityConn(s: Sys, a: ConnAction)
    requires Identity(s) && ConnStep(s, a).Some?
    requires s.cloop.CReply? ==> IsProbeFrame(s.cloop.env, s.probes)
    ensures Identity(ConnStep(s, a).value)
  {
    var t := ConnStep(s, a).value;
    if a.CWriteReply? {
      SendKeepsIdentity(s.calls, s.probes, s.used, s.past.sent, t.past.sent[|s.past.sent|]);
    }
  }

  lemma IdentityRt(s: Sys, a: RtAction)
    requires Identity(s) && RtStep(s, a).Some?
    ensures Identity(RtStep(s, a).value)
  {
    if a.RWriteReply? {
      NewIdKeepsIdentity(s.calls, s.probes, s.used, s.past.sent, a.id);
    }
  }

  lemma IdentityProbe(s: Sys, a: ProbeAction)
    requires Identity(s) && ProbeStep(s, a).Some?
    ensures Identity(ProbeStep(s, a).value)
  {
    var t := ProbeStep(s, a).value;
    if a.Ask? {
      NewProbeKeepsIdentity(s.calls, s.probes, s.used, s.past.sent, a.id, t.probes[a.id]);
    } else {
      ProbePhaseKeepsIdentity(s.calls, s.probes, s.used, s.past.sent, a.id, t.probes[a.id].phase);
    }
  }
}
