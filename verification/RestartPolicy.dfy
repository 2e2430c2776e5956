// The restart policy: a rolling window of exit times, a backoff schedule and a circuit breaker.
module RestartPolicy {

  // Clock readings and durations, in microseconds.
  type Time = int

  datatype ExitReason =
    | GracefulShutdown
    | Crashed
    | TimeoutKilled
    | ProtocolViolation
    | HelloFailed
    | SpawnFailed

  datatype Decision = Restart(delay: real) | CircuitBreak | Stop

  datatype Policy = Policy(
    backoff: seq<real>, ceiling: real, maxInWindow: int, window: int, restartable: set<ExitReason>)

  const DEFAULT_RESTARTABLE: set<ExitReason> := {Crashed, TimeoutKilled, ProtocolViolation}

  const DEFAULT_POLICY: Policy := Policy([1.0, 2.0, 4.0, 8.0, 30.0], 30.0, 3, 300_000_000, DEFAULT_RESTARTABLE)

  // The timestamps not older than `cutoff`, in order.
  function Since(stamps: seq<Time>, cutoff: Time): (r: seq<Time>)
    ensures |r| <= |stamps|
  {
    if stamps == [] then []
    else if stamps[0] >= cutoff then [stamps[0]] + Since(stamps[1..], cutoff)
    else Since(stamps[1..], cutoff)
  }

  function BackoffDelay(p: Policy, slot: nat): real {
    if slot < |p.backoff| then p.backoff[slot] else p.ceiling
  }

  function Max(a: int, b: int): int { if a >= b then a else b }

  function ShouldRestart(p: Policy, reason: ExitReason, stamps: seq<Time>, now: Time): Decision {
    if reason !in p.restartable then Stop
    else
      var inWindow := |Since(stamps, now - p.window)|;
      if inWindow >= p.maxInWindow then CircuitBreak
      else Restart(BackoffDelay(p, Max(inWindow - 1, 0)))
  }

  lemma {:induction false} SinceMembers(stamps: seq<Time>, cutoff: Time)
    ensures forall t :: t in Since(stamps, cutoff) <==> t in stamps && t >= cutoff
  {
    if stamps != [] {
      SinceMembers(stamps[1..], cutoff);
      assert stamps == [stamps[0]] + stamps[1..];
    }
  }

  lemma {:induction false} SinceAppend(stamps: seq<Time>, t: Time, cutoff: Time)
    ensures Since(stamps + [t], cutoff) == Since(stamps, cutoff) + if t >= cutoff then [t] else []
  {
    if stamps == [] {
      assert [t][1..] == [];
    } else {
      assert (stamps + [t])[1..] == stamps[1..] + [t];
      SinceAppend(stamps[1..], t, cutoff);
    }
  }

  // Trimming at a later cutoff forgets any earlier trimming.
  lemma {:induction false} SinceAgain(stamps: seq<Time>, early: Time, late: Time)
    requires early <= late
    ensures Since(Since(stamps, early), late) == Since(stamps, late)
  {
    if stamps != [] {
      SinceAgain(stamps[1..], early, late);
      if stamps[0] >= early {
        var kept := Since(stamps, early);
        assert kept[1..] == Since(stamps[1..], early);
      }
    }
  }
}
