# Verified model of the connector runtime, ingest store and supporting algorithms

This project models the parts of the repository whose behaviour is hardest to see from any one
function, and proves what they keep over every run and every input.

- **Wire protocol** (`Wire`, `WireIdentity`, `WireReplies`, `WireWaiting`, `WireTheorems`, `WireProbes`,
  `WireProgress`, `Transports`).
  The connector transport and the runtime transport are composed over two FIFO channels into one step
  system: concurrent `emit`, `set_state`, `get_state`, `log` and `metric` calls, runtime `health` and
  `shutdown` requests, both dispatch loops, and every way a loop can die. Each lock section is one step.
  `Transports` holds the two objects as classes that keep a ghost record of slot holders and handled frames,
  and shows that their methods are runs of the step system.
- **Framing** (`Framing`). Newline-delimited frames over a byte stream that arrives in arbitrary chunks.
- **Version negotiation** (`Negotiation`). The two hello procedures as a two-party step system with time-outs and
  closed streams.
- **Supervised instance** (`RestartPolicy`, `Lifecycle`, `LifecycleProofs`, `Instance`). Transition table,
  restart window, circuit breaker, backoff timers, and racing start, exit, emit, shutdown and clear steps.
  `Instance` is the object itself, answering from a ghost log of every exit counted since the last clear.
- **Ingest and store** (`Ingest`, `Store`, `StoreProofs`). Recursive bundle validation, partitioning,
  chunked `INSERT … ON CONFLICT DO NOTHING` under two partial unique indexes, purge, latest-version lookup.
- **Algorithms** (`Debouncer`, `Redaction`, `LogForwarder`, `StderrRing`, `CustomProperties`, `Bundles`,
  `StixPattern`). The development watcher's debouncer, schema-driven redaction of log fields, the stderr
  ring, lifting and flattening of custom STIX properties, and STIX pattern quoting.

Assumptions, each visible in the statements: message identifiers are globally fresh; the clock does not
go backwards; the JSON codec, the JSON Schema validators, the timestamp parser and the text helpers are
parameters, and so is how a STIX class dumps a field, an idempotent function of its value; one database
statement is a left fold over its rows.

## What turned out false, and when the code does meet it

- **The in-flight counter after the loop ends.** Resetting it to zero while calls still hold slots makes
  it go negative (`WireTheorems.ResetThenReleaseGoesNegative`). It equals the number of calls holding a
  slot if and only if no call held one at the last reset (`WireTheorems.InFlightCountsHolders`).
- **Frames between the stream limit and 1 MiB.** The writer accepts frames up to `MAX_MESSAGE_BYTES`, but
  every reader is created with asyncio's default stream limit of 64 KiB. A frame the writer accepts is
  read back if and only if its body is within the stream's limit (`Framing.WrittenFrameIsReadable`).
- **Futures at the end of a loop.** A future whose call gave up before it was answered, such as an emit
  too large to encode, is popped and never settled (`WireTheorems.OversizedEmitIsNeverSettled`). A future
  is unsettled after a loop end if and only if it was unsettled and no longer pending before
  (`WireTheorems.ConnectorLoopEndSettlesPending`, `WireTheorems.RuntimeLoopEndSettlesPending`).
- **Writes off the transition table.** In runs in which no `start()` takes effect while a process is owed an
  exit, all state writes keep to the table if and only if hello and spawn failures are not restartable, or
  the limit exceeds one exit (no exit, when the window is negative)
  (`LifecycleProofs.StateWritesStayOnTableIff`). The default policy does; so does any restartable set with
  the default limit of three. Without that assumption on `start()` nothing is claimed for any policy.
- **Two processes owed an exit.** At most one process is owed an exit at every point of a run if and only
  if no `start()` takes effect while one is (`LifecycleProofs.OneUnhandledExitIff`); a fetch cycle after
  shutting down a failed start makes such a start (`LifecycleProofs.FetchCanStartEarly`).
- **Redaction of keys with dots or empty names.** A dotted path text redacts its own path on every
  record if and only if no key holds a dot and the first of several keys is not empty
  (`Redaction.TextRedactsItsPathIffPlain`). A schema's records are redacted as marked if and only if that
  holds of every marked path without a marked ancestor, and every other text leads under a marked path
  (`Redaction.RedactsAsMarkedIff`).
- **Reading back a STIX model.** Dumping is part of writing: it cuts timestamps to milliseconds, for one. A
  model is read back, up to empty fields, if and only if dumping leaves its fields alone
  (`CustomProperties.ModelSurvivesIff`; `CustomProperties.MicrosecondsAreLost` is one that is not).
- **Rewriting a STIX object.** Reading and writing leaves an object alone if and only if it has no empty
  standard field and no custom key inside `extensions`, holds every literal of its class (such as
  `spec_version`), and each field is already the way the class dumps it
  (`CustomProperties.RewritingChangesNothingIff`). Of what reading accepts, only `extensions` is modelled.
- **Storing an accepted object.** Validation passes custom objects that make no row, such as one whose
  `modified` is a number; one of them fails the whole bundle (`Ingest.IngestStixBundle`).

## Model

| member | source | states |
|---|---|---|
| `WireTheorems.HandledOnceInWireOrder` | src/prow/connector/runtime_transport.py:150-193 | In every run the frames handled are an initial part of the frames written, in wire order, with distinct ids; while the runtime loop lives, the rest are exactly the frame in hand and those in the channel. |
| `WireTheorems.WaitingRequestIsInOnePlace` | src/prow/connector/transport_stdio.py:148-163 | While both loops live, an unanswered request is in exactly one place: outbound channel, being handled, inbound as `id_ref`, or being resolved. |
| `WireTheorems.CallReturnsItsOwnReply` | src/prow/connector/transport_stdio.py:304-390 | A call that returns got the answer the handler computed for its own request at that request's place in wire order; no call ever sees a reply of the wrong kind. |
| `WireProgress.CallStartsOrIsRefused` | src/prow/connector/transport_stdio.py:127-142 | While the connector loop lives a call is refused, with nothing written, exactly when 64 hold a slot; otherwise it can write its one request and wait. |
| `WireProgress.WaitingCallCanReturn` | src/prow/connector/runtime_transport.py:150-299 | From every reachable state in which both loops live, a call that waits can go on to return a reply of its own kind, without any step of another caller. |
| `WireProgress.LoopsCanFinish` | src/prow/connector/transport_stdio.py:165-264 | While both loops live they can always finish what is under way, settling futures only with replies. |
| `WireTheorems.ReadReturnsLastSet` | src/prow/connector/transport_stdio.py:362-390 | Every `get_state` returns the value of the last set of its key handled before it, or the initial value if there is none. |
| `WireTheorems.ReplayIsLastSet` | src/prow/connector/runtime_transport.py:268-299 | The store after any log of handled frames gives each key the value of its last set. |
| `WireTheorems.HandlingRespectsRealTime` | src/prow/connector/transport_stdio.py:304-390 | Of any two calls that return, one begun after the other returned is handled later, and each reply is right for its place: with `CallReturnsItsOwnReply` this makes the operations linearizable. |
| `WireTheorems.ReadAfterAcknowledgedSet` | src/prow/connector/transport_stdio.py:333-390 | A read begun after a set of the same key returned sees that value or one set later, never an older one. |
| `WireTheorems.InFlightCountsHolders` | src/prow/connector/transport_stdio.py:127-135 | Until the connector loop ends the counter is the number of calls holding a slot, within 0..64; in general it agrees if and only if no slot was held at the last reset. |
| `WireTheorems.ResetThenReleaseGoesNegative` | src/prow/connector/transport_stdio.py:203-211 | A concrete run: one call in progress when the stream closes leaves the counter at -1. |
| `WireTheorems.ConnectorLoopEndSettlesPending` | src/prow/connector/transport_stdio.py:165-211 | When the connector loop fails or ends, for any reason, it reads no more, the pending map is empty and each pending future holds the cause; a registered future stays unsettled if and only if it was unsettled and no longer pending before, and then its call gave up and popped it. |
| `WireTheorems.OversizedEmitIsNeverSettled` | src/prow/connector/transport_stdio.py:308-331 | A concrete run: an emit that fails to encode pops its own future, which no loop end then settles. |
| `WireTheorems.RuntimeLoopEndSettlesPending` | src/prow/connector/runtime_transport.py:150-201 | The same for every runtime step that fails what is pending: a read error other than a hangup, a handler that raises, a refused kind, and the end of the loop. |
| `WireTheorems.FuturesSettleOnce` | src/prow/connector/transport_stdio.py:148-163 | Over any continuation of any run a settled future keeps its value, on both sides. |
| `WireTheorems.ShutdownAcknowledgedFirst` | src/prow/connector/transport_stdio.py:249-264 | The cancellation event is set only after a shutdown-ack was written; the composed operations never end the runtime loop over an unknown kind. |
| `WireTheorems.ShutdownRaisesCancellation` | src/prow/connector/transport_stdio.py:249-264 | While the connector loop lives and is not between the two, a shutdown-ack has been written if and only if the cancellation event is set. |
| `WireProbes.WaitingProbeIsInOnePlace` | src/prow/connector/transport_stdio.py:213-264 | While both loops live, a health or shutdown request that waits is in exactly one place: on its way in, in the connector's hands, or its acknowledgement on the way back. |
| `WireProbes.ProbeReturnsItsOwnAck` | src/prow/connector/runtime_transport.py:311-402 | A health or shutdown request that returns got what the connector wrote in answer to it, of its own kind; it never sees a reply of the wrong kind. |
| `WireProgress.WaitingProbeCanReturn` | src/prow/connector/runtime_transport.py:325-402 | From every reachable state in which both loops live, such a request can go on to return its acknowledgement. |
| `WireTheorems.RunKeepsInv` | src/prow/connector/runtime_transport.py:203-299 | The invariant tying calls, futures, channels, loops, store and history holds along every run. |
| `Transports.PendingFutures.Register` | src/prow/connector/transport_stdio.py:137-142 | Registering adds the id and an unsettled future, and nothing else. |
| `Transports.PendingFutures.Pop` | src/prow/connector/transport_stdio.py:144-146 | Popping forgets the id, reports whether it was there, and keeps the future. |
| `Transports.PendingFutures.ResolveEnvelope` | src/prow/connector/transport_stdio.py:148-163 | A referenced pending future gets the result or the peer's error, unless it is already done; no settled future changes. |
| `Transports.PendingFutures.FailAllPending` | src/prow/connector/runtime_transport.py:195-201 | The pending map is emptied; exactly the futures that were unsettled and no longer pending stay unsettled, and no settled one changes. |
| `Transports.StdioTransport.AcquireInFlightSlot` | src/prow/connector/transport_stdio.py:127-131 | Grants a slot exactly while fewer than 64 calls hold one, not counting those that held one at the last reset; the counter stays the number of holders until the loop has ended. |
| `Transports.StdioTransport.ReleaseInFlightSlot` | src/prow/connector/transport_stdio.py:133-135 | A holder gives its slot back, and the counter follows. |
| `Transports.StdioTransport.FailAllPending` | src/prow/connector/transport_stdio.py:203-211 | Settles what is pending and resets the counter; the calls that still hold a slot become the debt by which the counter is off. |
| `Transports.StdioTransport.HandleIncoming` | src/prow/connector/transport_stdio.py:213-264 | A health request without error is answered with one health-ack, a shutdown request with one shutdown-ack, anything else with nothing; cancellation is raised exactly for such a shutdown request; no settled future changes. |
| `Transports.IncomingIsARun` | src/prow/connector/transport_stdio.py:213-264 | Handling a frame is a run of the step system: handle, write the ack, raise cancellation. |
| `Transports.ConnectorRuntimeTransport.DispatchOne` | src/prow/connector/runtime_transport.py:203-299 | An accepted frame joins the log of handled frames; the store stays the replay of that log and the reply is right at its place in it. A lifecycle kind is malformed and any other unexpected kind unknown, without effect. |
| `Transports.ConnectorRuntimeTransport.EndLoop` | src/prow/connector/runtime_transport.py:150-193 | The cause settles the pending futures and becomes the fatal error, except after a peer hangup, which leaves none. |
| `Transports.EndingIsARun` | src/prow/connector/runtime_transport.py:154-193 | Ending the loop after a read failure is a run of the step system. |
| `Framing.StreamReader.ReadUntil` | src/prow/connector/protocol/framing.py:47-69 | However the bytes are cut into chunks, the line read and the bytes left are those of the whole stream. |
| `Framing.ReadOneEnvelope` | src/prow/connector/protocol/framing.py:35-81 | The loop over blank lines equals the recursive reading of the stream, errors included. |
| `Framing.ReadMessages` | src/prow/connector/protocol/framing.py:84-94 | What the generator yields and how it ends depend on the bytes alone. |
| `Framing.RoundTrip` | src/prow/connector/protocol/framing.py:84-104 | Any list of admitted envelopes with any blank lines between them is read back exactly and ends cleanly. |
| `Framing.CutStream` | src/prow/connector/protocol/framing.py:50-63 | Wherever such a stream is cut, exactly the frames wholly before the cut are read; the end is clean if and only if the cut is between items. |
| `Framing.FirstBadLineDecides` | src/prow/connector/protocol/codec.py:71-102 | After any good lines, a line that is no envelope fails the iteration as malformed and a line over either limit as too large, whatever follows. |
| `Framing.EveryStreamReadsByLines` | src/prow/connector/protocol/framing.py:47-94 | Every stream is lines and a tail; what is yielded are the envelopes up to the first bad line, and the end is that line's error or what the tail calls for. |
| `Framing.CleanEndIffAllLinesGood` | src/prow/connector/protocol/framing.py:84-94 | The iteration ends cleanly if and only if the stream is nothing but blank lines and envelopes within the limits. |
| `Framing.TailEnds` | src/prow/connector/protocol/framing.py:50-70 | A stream that ends without a newline fails as malformed, or as too large beyond either limit, and ends cleanly only if nothing is left. |
| `Framing.ReadOneAtLine` | src/prow/connector/protocol/framing.py:71-81 | What reading one envelope makes of the line at the front, and what it leaves in the stream. |
| `Framing.WrittenFrameIsReadable` | src/prow/connector/protocol/codec.py:58-68 | A frame the writer accepts is read back if and only if the stream's limit admits its body; otherwise reading fails as too large. |
| `Negotiation.HighestOverlap` | src/prow/connector/protocol/negotiation.py:65-69 | The result is the greatest common version, and none exactly when the lists share none. |
| `Negotiation.SendHello` | src/prow/connector/protocol/negotiation.py:123-137 | Writes one hello with the supported versions and the configuration, or raises on an empty list before writing. |
| `Negotiation.FinishRuntime` | src/prow/connector/protocol/negotiation.py:139-180 | An error reply is unsupported or a protocol error by its code, anything but an ack a protocol error; an ack is agreed to exactly when its version is supported, and otherwise refused in writing first. |
| `Negotiation.AnswerHello` | src/prow/connector/protocol/negotiation.py:192-235 | Anything but a hello is a protocol error; a hello is acknowledged with the highest common version and its configuration returned, or, without one, with the connector's own highest before waiting for the refusal. |
| `Negotiation.NegotiationIsSound` | src/prow/connector/protocol/negotiation.py:72-235 | In every run, time-outs and closed streams included, a returned version is the highest common one, the configuration arrives as sent, and an unsupported-version error means there is no common version; without such a break there is no protocol error. |
| `Negotiation.BothAgreeOrBothRefuse` | src/prow/connector/protocol/negotiation.py:113-235 | For non-empty lists, when no read times out or meets the end of the stream, the exchange is never stuck; both return the highest common version, or both refuse, the latter exactly when the lists are disjoint. |
| `Negotiation.StepsRunOut` | src/prow/connector/protocol/negotiation.py:113-235 | Every step uses up bounded work, so every exchange ends. |
| `RestartPolicy.SinceMembers` | src/prow/connector/restart_policy.py:91-100 | Trimming keeps exactly the timestamps not older than the cutoff. |
| `RestartPolicy.SinceAgain` | src/prow/connector/restart_policy.py:91-100 | Trimming earlier and then later is trimming later. |
| `LifecycleProofs.WindowCountsAllRecentExits` | src/prow/connector/instance.py:282-294 | In every run the list trimmed in place is, when an exit is counted, the window filter of every exit since the last clear; so is the reported attempt count. |
| `LifecycleProofs.RestartDecision` | src/prow/connector/restart_policy.py:55-88 | Stop, break or restart by the number n of exits in the window of the full log; a restart waits for backoff slot n-1, which lies in 0..max-2. |
| `LifecycleProofs.AutomaticRestartsAreBounded` | src/prow/connector/instance.py:296-319 | No stretch of time as long as the window holds more than max-1 automatic restarts between clears. |
| `LifecycleProofs.DefaultPolicyBounds` | src/prow/connector/restart_policy.py:41-53 | With the default policy: at most two restarts in five minutes, the first after one second and the second after two. |
| `LifecycleProofs.OneUnhandledExit` | src/prow/connector/instance.py:147-176 | In every allowed run of every policy, at most one process is being spawned or watched, and so owed the handling of its exit. |
| `LifecycleProofs.OneUnhandledExitIff` | src/prow/connector/instance.py:147-176 | Along a run at most one process has an unhandled exit at every point if and only if `start()` is never invoked, to effect, while one has. |
| `LifecycleProofs.EveryStateWriteIsOnTable` | src/prow/connector/supervisor_state.py:59-126 | In every allowed run of a policy that tolerates a failed start, every value written to the state, forced assignments included, is a self-loop or an edge of the table. |
| `LifecycleProofs.StateWritesStayOnTableIff` | src/prow/connector/instance.py:302-317 | All allowed runs keep to the table if and only if the policy tolerates a failed start: it restarts after neither a hello nor a spawn failure, or the one exit such a failure puts into an empty window is below the limit. |
| `LifecycleProofs.CircuitBrokenIsLeftOnDemand` | src/prow/connector/instance.py:361-412 | In every allowed run of every policy, a step leaves the circuit-broken state if and only if it clears the breaker or asks for shutdown. |
| `LifecycleProofs.NoStartingAfterShutdown` | src/prow/connector/instance.py:323-385 | From a shutdown request until the next start or clear no step enters STARTING, whatever interleaves and whatever the policy. |
| `LifecycleProofs.GrantedRestartHappens` | src/prow/connector/instance.py:296-353 | After a crash for which the policy grants a restart, whatever happens short of a shutdown or of cancelling the background tasks, the instance stays CRASHED with its backoff timer pending, and when the timer fires it enters STARTING with a new process. |
| `LifecycleProofs.ShutdownStopsRestart` | src/prow/connector/instance.py:355-364 | A shutdown stops the pending timer and abandons the process that timer may be spawning, and no other. |
| `LifecycleProofs.SpawnOutcome` | src/prow/connector/instance.py:155-165 | The end of a spawn leaves a watched process in READY or CRASHED, or, if the state has moved on, a process nobody watches. |
| `LifecycleProofs.LateReapingLeavesTable` | src/prow/connector/instance.py:311-317 | For every policy that does not tolerate a failed start: an allowed run in which DEAD is followed by CIRCUIT_BROKEN, which is no edge. |
| `LifecycleProofs.EarlyStartMakesTwo` | src/prow/connector/instance.py:167-176 | Every start that takes effect while an exit is unhandled leaves two processes owed an exit. |
| `LifecycleProofs.FetchCanStartEarly` | src/prow/connector/instance.py:178-204 | A concrete run after which a fetch cycle makes such a start. |
| `LifecycleProofs.FetchStartsAtRest` | src/prow/connector/instance.py:178-204 | A fetch cycle starts at once exactly where `start()` is valid, and then only a failed start can still be owed an exit. |
| `LifecycleProofs.RunIsWindowed` | src/prow/connector/instance.py:282-319 | The window invariant holds along every run of every policy. |
| `LifecycleProofs.RunKeepsTasks` | src/prow/connector/instance.py:147-412 | The invariant on processes and timers holds along every allowed run of every policy. |
| `Instance.ConnectorInstance.RestartAttemptsInWindow` | src/prow/connector/instance.py:102-110 | Reports how many of all the exits counted since the last clear lie in the window. |
| `Instance.ConnectorInstance.Start` | src/prow/connector/instance.py:167-176 | Takes effect exactly from NOT_STARTED or DEAD, then enters STARTING and clears the shutdown flag. |
| `Instance.ConnectorInstance.RunFetchPlan` | src/prow/connector/instance.py:178-195 | What a fetch cycle does in each state: nothing when crashed or broken, start at once from rest, otherwise shut down first. |
| `Instance.ConnectorInstance.Spawned` | src/prow/connector/instance.py:155-165 | Takes effect exactly from STARTING, entering READY or CRASHED with a watcher; otherwise changes nothing and leaves no watcher. |
| `Instance.ConnectorInstance.EmitSeen` | src/prow/connector/instance.py:122-127 | The first emit moves READY to RUNNING and no other state. |
| `Instance.ConnectorInstance.HandleProcessExit` | src/prow/connector/instance.py:260-319 | The decision follows from the log of all exits counted since the last clear: stop, break or restart by their number in the window, with the backoff slot. The state becomes DEAD, CIRCUIT_BROKEN or, for a restart of a live instance, CRASHED; the exit joins the log, and the window stays its filter. |
| `Instance.ConnectorInstance.BackoffElapsed` | src/prow/connector/instance.py:328-340 | Spawns exactly from CRASHED without a shutdown request, and then enters STARTING. |
| `Instance.ConnectorInstance.RequestShutdown` | src/prow/connector/instance.py:361-385 | A crashed or broken instance is dead at once, a live one drains, none enters STARTING; only a crash clears the log with the window. |
| `Instance.ConnectorInstance.ClearCircuitBreak` | src/prow/connector/instance.py:402-410 | Takes effect exactly from CIRCUIT_BROKEN, enters STARTING, and forgets the log, the window and the shutdown flag. |
| `Ingest.ValidateStixObject` | src/prow/stix/_validate.py:286-323 | Accepts an object exactly if it passes the rule: a bundle by the bundle schema and every object in it, a known type by its schema, any other by its structure if such types are let in. |
| `Ingest.ReportsByKind` | src/prow/stix/_validate.py:194-216 | What is not an object, has no type or an unknown one gives just that problem; a known type gives every error of its schema, in order. |
| `Ingest.ValidateBundle` | src/prow/stix/_validate.py:256-283 | The bundle's own errors, then each item's errors under its index; none exactly if the bundle and every item pass. |
| `Ingest.IssuesAreThoseOfEveryLevel` | src/prow/stix/_validate.py:256-323 | An issue is reported if and only if it is a problem of the object found at its path, at any depth of nested bundles. |
| `Ingest.AcceptedIffPasses` | src/prow/stix/_validate.py:256-323 | Validation has nothing to report if and only if the object and everything nested in it passes the rule. |
| `Ingest.AcceptedIffEveryLevelPasses` | src/prow/stix/_validate.py:256-323 | The same, level by level along every path of indices. |
| `Ingest.CustomTypeProblems` | src/prow/stix/_validate.py:218-239 | A custom object passes exactly with a type, a well-formed identifier of that type and version 2.1. |
| `Ingest.ItemFailures` | src/prow/db/ingest.py:79-94 | An item yields no failure exactly when it is accepted; its issues are filed, in order, under its own identifier if it has one and the bundle's otherwise. |
| `Ingest.EnvelopeFailure` | src/prow/db/ingest.py:49-74 | An envelope is good exactly if it is an object of type bundle with a non-empty id and an array of objects. |
| `Ingest.ValidateAndPartitionBundle` | src/prow/db/ingest.py:40-96 | A bad envelope gives one failure and no valid objects; otherwise the valid list and the failures are those of the items in order. |
| `Ingest.PartitionConserves` | src/prow/db/ingest.py:76-96 | Valid plus rejected items make up the bundle; each rejected item accounts for at least one failure, and none fail exactly when none is rejected. |
| `Ingest.ValidIsOrderedSelection` | src/prow/db/ingest.py:76-96 | The valid list is an order-preserving selection of the items: those accepted, all of them. |
| `Ingest.FailureOrigins` | src/prow/db/ingest.py:78-93 | The failures are exactly those of the items, each at its index. |
| `Ingest.IngestStixBundle` | src/prow/db/ingest.py:99-132 | Returns normally if and only if the envelope is bad, nothing is valid, or the batch size is positive and every accepted object makes an admissible row: one that does not fails the whole bundle. Then accepted + duplicates + rejected is the bundle length and accepted is the growth of the table; a bad envelope or an error leaves the rows as they were. |
| `Store.RowOf` | src/prow/db/stix_fields.py:72-130 | Which objects make a row; every column carries the object's own value or its default; a row is unversioned exactly when `modified` is missing or null; the object itself is kept whole. |
| `Store.RowsOfEach` | src/prow/db/repositories.py:152-159 | There are rows exactly if every object makes one, and they are the objects' own, in their order. |
| `Store.StixObjectRepository.Execute` | src/prow/db/repositories.py:191-197 | One statement inserts the left fold of its rows and returns one identity per inserted row; a check violation fails it. |
| `Store.StixObjectRepository.InsertBatches` | src/prow/db/repositories.py:179-198 | For every batch size the chunks add up to one statement over all rows; the total is the growth of the table. |
| `Store.StixObjectRepository.PartitionRows` | src/prow/db/repositories.py:152-159 | Every object becomes one row, split by whether `modified` is null, or the first bad object fails the call. |
| `Store.StixObjectRepository.BulkInsertDedupe` | src/prow/db/repositories.py:141-177 | Fails exactly on a bad batch size, a bad object or a check violation; otherwise accepted is the growth of the table and accepted + duplicates the input length. |
| `Store.StixObjectRepository.Purge` | src/prow/db/purge.py:42-65 | Removes exactly the instances' rows and state and returns the number of rows removed. |
| `StoreProofs.BulkInsertRefinesFirstWins` | src/prow/db/repositories.py:141-198 | The chunked two-index insertion holds the same key-to-row mapping as inserting one by one with the first row winning; accepted is the number of distinct new keys; both unique indexes are kept. |
| `StoreProofs.FirstWinsKeys` | src/prow/db/repositories.py:141-177 | After an insertion the stored keys are the old ones and those of the rows. |
| `StoreProofs.FirstWinsContent` | src/prow/db/migrations/versions/20260513_0001_initial_stix_objects_and_connector_state.py:99-112 | A stored key keeps its content; a new key takes the content of the first row carrying it. |
| `StoreProofs.FirstWinsKeeps` | src/prow/db/repositories.py:192-195 | No insertion changes the content of a stored key. |
| `StoreProofs.PartitionMakesNoDifference` | src/prow/db/repositories.py:152-175 | Inserting versioned rows first gives the same mapping as the given order. |
| `StoreProofs.RepeatedInsertAddsNothing` | src/prow/db/repositories.py:141-198 | Repeating an insertion accepts nothing and leaves the rows as they are. |
| `StoreProofs.PurgeRefines` | src/prow/db/purge.py:42-65 | Purging the table is removing the instances' entries from the mapping; both indexes are kept. |
| `StoreProofs.HistoryRefines` | src/prow/db/repositories.py:141-198 | After any sequence of ingests and purges the table is the simple store. |
| `StoreProofs.GetObjectIsLatest` | src/prow/db/repositories.py:229-242 | The lookup gives a stored row of the id that no other is newer than, and none exactly when there is none. |
| `StoreProofs.LookupAfterHistory` | src/prow/db/repositories.py:229-242 | After any history the lookup returns the surviving version with the greatest `modified`, a null one only if no versioned row survives. |
| `Debouncer.DebouncedAsyncCallback.Push` | src/prow/connector/dev_watcher.py:135-137 | A pushed path waits its turn on the event loop and changes nothing else. |
| `Debouncer.DebouncedAsyncCallback.Enqueue` | src/prow/connector/dev_watcher.py:139-143 | Adds the path, cancels the timer on record, arms a new one in its place, and leaves every other timer alone. |
| `Debouncer.DebouncedAsyncCallback.OnTimer` | src/prow/connector/dev_watcher.py:145-146 | Queues one emit. |
| `Debouncer.DebouncedAsyncCallback.Emit` | src/prow/connector/dev_watcher.py:148-154 | Delivers all pending paths, or nothing when there are none, and forgets the timer even if a newer one runs. |
| `Debouncer.NoPathIsLost` | src/prow/connector/dev_watcher.py:135-154 | In every interleaving the paths pushed are, in order, the delivered bursts, the paths waiting and those not yet enqueued; each batch is the non-empty set of its burst; a waiting path has a timer or an emit coming. |
| `Debouncer.OnlyTheLatestTimerRuns` | src/prow/connector/dev_watcher.py:139-149 | In every run, a timer that can fire is that of the latest enqueue, unless it was armed before an emit dropped the reference. |
| `Debouncer.BurstIsOneBatch` | src/prow/connector/dev_watcher.py:139-154 | Until an emit has run, only the timer of the very last enqueue can fire, and the first emit delivers everything enqueued as one batch. |
| `Debouncer.EveryPushIsDeliverable` | src/prow/connector/dev_watcher.py:135-154 | From every reachable state, letting the loop finish its agenda delivers every path pushed. |
| `Debouncer.StepWorks` | src/prow/connector/dev_watcher.py:139-154 | Every callback, timer and emit uses up a bounded agenda. |
| `Redaction.SecretKeyPathsAreMarked` | src/prow/connector/entry_point_resolve.py:68-84 | The collected key paths are exactly those marked secret through nested `properties`. |
| `Redaction.CollectSecretFieldPaths` | src/prow/connector/entry_point_resolve.py:68-84 | The recursive loop returns the text of every marked path, in any order of the properties. |
| `Redaction.PathSurvivesIffPlain` | src/prow/connector/log_forwarder.py:32-32 | A key path written with dots and split again is itself if and only if no key holds a dot and the first of several is not empty. |
| `Redaction.CollectedPathsAreMarkedPathsIff` | src/prow/connector/entry_point_resolve.py:76-83 | The collected texts, split again, are the marked paths if and only if every marked path is plain. |
| `Redaction.RedactOneMore` | src/prow/connector/log_forwarder.py:70-71 | Redacting one path after a set of paths is redacting the larger set. |
| `Redaction.OrderMakesNoDifference` | src/prow/connector/log_forwarder.py:67-71 | Every order of the paths gives the same tree. |
| `Redaction.EveryNodeAfterRedaction` | src/prow/connector/log_forwarder.py:29-42 | The node at every path after redaction: gone under a redacted ancestor, the marker at a secret path, otherwise the original with deeper secrets redacted. |
| `Redaction.RedactsAsMarkedIff` | src/prow/connector/entry_point_resolve.py:68-84 | Every record is redacted at exactly the marked paths if and only if each marked path without a marked ancestor is plain and the text of every other leads to or under a marked path. |
| `Redaction.RedactAlikeIffSameTop` | src/prow/connector/log_forwarder.py:29-42 | Two sets of paths redact every record alike if and only if they have the same paths without an ancestor in the set. |
| `Redaction.MarkedFieldsAreRedacted` | src/prow/connector/log_forwarder.py:67-71 | Under that condition a marked field is redacted or gone with a redacted ancestor, and an untouched one is unchanged. |
| `Redaction.TextRedactsItsPathIffPlain` | src/prow/connector/log_forwarder.py:29-42 | Redacting by the text of a path does what the path says on every record exactly when the path is plain. |
| `LogForwarder.RedactAtPath` | src/prow/connector/log_forwarder.py:29-42 | The cursor walk over nested dictionaries, overwriting a leaf in place, redacts the whole tree at that path and keeps it a tree. |
| `LogForwarder.RedactFields` | src/prow/connector/log_forwarder.py:67-71 | The loop over the set of paths, in any order, redacts all of them at once. |
| `LogForwarder.LeafOverwritten` | src/prow/connector/log_forwarder.py:33-42 | Overwriting one cell where the walk ends changes the enclosing tree at that path only. |
| `StderrRing.StderrRingBuffer.Append` | src/prow/connector/process.py:56-60 | After any appends the ring is what the bounds leave of the whole history, and the byte counter is its cost. |
| `StderrRing.StderrRingBuffer.Trim` | src/prow/connector/process.py:62-67 | The trim loop leaves the longest fitting suffix and keeps the counter right. |
| `StderrRing.StderrRingBuffer.Snapshot` | src/prow/connector/process.py:69-70 | A suffix of the history within both the line and the byte bound, and every longer suffix is not. |
| `StderrRing.CostCountsBytes` | src/prow/connector/process.py:56-59 | The byte counter is the number of bytes of the lines in UTF-8, each with its newline. |
| `StderrRing.EncodingReadsBack` | src/prow/connector/process.py:57-57 | The bytes counted for a line are its UTF-8 encoding: each character can be read back from them. |
| `StderrRing.KeptIsLongestSuffix` | src/prow/connector/process.py:62-67 | Trimming from the left gives the longest suffix within both bounds. |
| `StderrRing.TrimmingAsYouGo` | src/prow/connector/process.py:56-67 | Trimming after each line keeps what trimming the whole history once would. |
| `CustomProperties.GatherCustomProperties` | src/prow/stix/types.py:143-160 | Pops exactly the custom keys from the caller's dictionary into the extensions, top level winning; a bad extensions value fails before any change. |
| `CustomProperties.FlattenCustomProperties` | src/prow/stix/types.py:162-193 | The loop equals the flattening: empties dropped, custom keys at the top, the rest nested if any. |
| `CustomProperties.KeysAndValuesByShape` | src/prow/stix/types.py:154-186 | Which keys are custom, which values are left out as empty, and which count as not given. |
| `CustomProperties.GatherUndoesFlatten` | src/prow/stix/types.py:143-193 | Gathering what was flattened restores the same extensions and the dumped fields, less the empty ones. |
| `CustomProperties.ReparseIsStable` | src/prow/stix/types.py:143-193 | A model of any class written, read and written again gives the same object; what is read back has the same extensions and, up to empty fields, the fields as they were dumped. |
| `CustomProperties.ModelSurvivesIff` | src/prow/stix/types.py:100-193 | The model itself is read back, up to empty fields, if and only if dumping changes none of its fields but to another empty value. |
| `CustomProperties.MicrosecondsAreLost` | src/prow/stix/types.py:100-118 | A model whose timestamp has microseconds is not read back. |
| `CustomProperties.EveryKeyRewritten` | src/prow/stix/types.py:143-193 | Which `extensions` values reading accepts, and then, for any class, the value at every key after reading and writing: custom, extension, dumped, or filled in from the class. |
| `CustomProperties.RewritingChangesNothingIff` | src/prow/stix/types.py:100-193 | For any class, reading and writing changes nothing if and only if the object has no empty standard field and no custom key inside its extensions, holds every literal of the class, and dumping leaves each field alone. |
| `Bundles.BundleReparseIsStable` | src/prow/stix/types.py:698-707 | Through a bundle's nested objects: written, read and written again, the bundle is the same; what is read back is the bundle and each of its objects as they were dumped, up to empty fields. |
| `Bundles.ItemsReparse` | src/prow/stix/types.py:665-690 | The same for every list of nested objects, each read and dumped as the class its `type` names. |
| `Bundles.BundleParsesIff` | src/prow/stix/types.py:698-707 | A bundle's extensions and list are read if and only if its own extensions are readable and it holds a non-empty list of objects of known types with readable extensions. |
| `StixPattern.TwoPassesAreOne` | src/prow/connectors/urlhaus/connector.py:55-57 | The two replacement passes escape each character exactly once. |
| `StixPattern.LiteralReadsIffQuoted` | src/prow/connectors/urlhaus/connector.py:55-57 | A string literal, read by section 9 of STIX Version 2.1, ends at its closing quote with a given value if and only if it is that value quoted. |
| `StixPattern.UrlPatternReadsBack` | src/prow/connectors/urlhaus/connector.py:189-192 | A pattern compares with a given URL if and only if it is the pattern written for that URL. |

## Left out

- Operating-system processes, pipes, signals and the stdio variants for Windows: spawn, hello and exit are nondeterministic outcomes.
- Liveness: a shutdown that lands during STARTING leaves no watcher, a timed-out drain can stay crashed, and calls made after the connector loop has ended are not answered.
- Client-sent `cancel` and `shutdown` (the runtime rejects both kinds and its loop ends) and the runtime's `request_cancel`.
- Several futures per message id: a future is identified with its message id, which is fresh.
- `wait_until_idle`, `probe_health` and the rest of `run_fetch`: they read the state or compose shutdown, join and start, each of which is a step here.
- JSON text, Pydantic, JSON Schema, UUID, regular expression and SQLAlchemy internals: parameters of the models, or absent where only their outcome matters.
- Concurrent database transactions: ingests and purges follow one another.
- The public form of a stored row, listings, searches, statistics and relationship queries: projections of the table.
- CustomProperties.GatherCustomProperties: takes every truthy `extensions` value that is not an object for an error, because the pairs that Python would read from a list depend on the order of object members and may have keys that are no strings, which the JSON model does not have.
- Dictionaries shared between two log fields: a JSON payload is a tree, and `LogForwarder` requires one.
- Order of JSON object members, and floating-point JSON numbers.
- HTTP fetching, command line, web routers, user interface, telemetry, configuration loading, hot reload, duration parsing, label maps: plumbing or easy members.
- WireTheorems.FuturesSettleOnce: a future withdrawn by its caller counts as settled, because its caller is gone.
- Ingest.IngestStixBundle: the failure texts are structured values, because their rendering is one-to-one formatting.
- Negotiation.StepsRunOut: counts steps of a run, not seconds, because the clock is outside the model.
