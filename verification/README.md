# A verified model of the edge daemon

The edge daemon drives a GSM modem on behalf of a cloud worker: the cloud dials and cancels
calls over a gRPC stream, the daemon runs them on one modem, bridges the modem's audio to an
RTC session, records both directions and reports what happens. This project models its four
stateful cores and proves what they promise over every run.

**Calls.** `AtCalls` is the modem-call layer (one active call, a queue and a lazy event stream per
call, a poller), `CallLifecycle` puts the orchestrator on top of it as a transition system whose
steps are the code between two suspension points. `CallSafety` holds the inductive invariant,
`CallTheorems` what it means for the cloud, the modem and the audio path, `CallEndings` which calls
end unreported. `CallOrigins`, `CallSteps` and `CallCauses` say without the step functions what each
step does in every reachable state, and where every event comes from. `SerialAtClient` and `Orchestrator` are the same code as objects: every method does
to the state exactly what the step function of the same name does, so the theorems about runs of
steps are theorems about runs of these methods.

**Store and forward.** `EventBuffer` is the SQLite table with its pager, `Uplink` the client as a
transition system with reconnects, stops and crashes, `UplinkDelivery` what it takes in and delivers
told from the events alone, `GrpcClient` the client as an object over either buffer.

**Streams.** `SerialLines` (line reassembly), `AtProtocol` and `AtReplies` (responses
and URCs), `PcmRing`
(byte-bounded ring), `AudioPumps` (duplex and playback pumps), `FrameRing` (the C++ circular buffer
and its drainer), `RtcAudio` (10 ms slicing, downmix, decimation, the two bridge loops),
`Recording` (stereo recorder).

**Maps.** `PortWatcher` (port-scan differ and poll loop), `EnvFile` (env-file parser and writer).

`Options`, `Text` and `Bytes` are the shared vocabulary. Concurrency is interleaving: a run is any
sequence of enabled steps, so a statement about all runs covers every scheduling. The calls of the
driver, the RTC session, gRPC and the serial port are nondeterministic outcomes of one step.

Where the documentation and the code disagree the model follows the code: `iter_pending` is
described as a snapshot but queries each page anew, so later appends are seen; the buffer's
description calls DialAck critical, while it is sent non-critical and so buffered; and a CPCMREG
failure is to raise an alert and hang up, while with the uplink down the critical alert itself
raises and the call is dropped with neither (`SilentExactly`). A comment in the AT client has the
lock and the response queue pair commands with responses one to one; they do so only as long as no
send is given up (`ReplyIsOwnExactlyWhenNoneGivenUp`).

## Model

| member | source | states |
|---|---|---|
| AtCalls.CallIsolation | isales_telephony/modem_controller/at_client.py:316-495 | In every run of dials, hangups, URCs, polls, pulls, closes and shutdowns: each stream has yielded a prefix of connected then one remote_hangup under its own id, no queue holds an event of another call, at most one stream is live, and only the active call has a poller |
| AtCalls.RunKeepsInv | isales_telephony/modem_controller/at_client.py:316-495 | The invariant behind call isolation holds after every legal run from a state in which it holds |
| AtCalls.YieldsOnlyGrow | isales_telephony/modem_controller/at_client.py:475-495 | A yielded event is never taken back; a stream yields only when it is pulled and never after a remote_hangup |
| AtCalls.LateCompletionsStayHome | isales_telephony/modem_controller/at_client.py:358-370 | A hangup() completing late appends one manual_hangup to the queue it captured and a poller answering late touches its own call only: no other queue and not the active call |
| AtCalls.PullOutcome | isales_telephony/modem_controller/at_client.py:475-495 | What one pull leaves behind: waiting on the own queue, past the first connected (which is never yielded twice), or suspended at the remote_hangup |
| AtCalls.ReleasedExactlyWhenReleasable | isales_telephony/modem_controller/at_client.py:436-442 | After any run the modem can become free again if and only if a dial is in flight or a stream was entered or can still be entered |
| AtCalls.SomeCallsAreNeverReleased | isales_telephony/modem_controller/at_client.py:344-356 | Two runs that leave the modem busy for good: a stream dropped before its first pull, and a dial() cancelled at its await |
| AtCalls.WedgedForever | isales_telephony/modem_controller/at_client.py:324-331 | Once neither holds, every later dial is refused, whatever happens |
| CallOrigins.HangupUrcIsQueued | isales_telephony/modem_controller/at_client.py:443-452 | In every reachable state a hangup-class URC read during a call appends one remote_hangup of that call, with its cause, to the call's queue and changes nothing else; any other URC, or one outside a call, changes nothing |
| CallOrigins.ActiveAnswerIsQueued | isales_telephony/modem_controller/at_client.py:454-473 | A poller told of an active call appends one connected to the queue of its call and is gone; any other answer queues nothing and it sleeps again |
| CallOrigins.PollerAsks | isales_telephony/modem_controller/at_client.py:458-463 | A poller that wakes finds its own call active and asks the modem |
| CallOrigins.ShutdownIsQueued | isales_telephony/modem_controller/at_client.py:419-430 | aclose() puts the sentinel behind what is queued for the active call and leaves no poller alive |
| CallOrigins.DialStartsAfresh | isales_telephony/modem_controller/at_client.py:324-331 | Every dial gets a number, a queue and a place that no earlier call, stream or poller uses |
| CallOrigins.DialOutcome | isales_telephony/modem_controller/at_client.py:333-356 | Accepted: the call keeps the modem, with an unread stream and a poller; failed: the modem is free and the stream holds one remote_hangup; cancelled: the modem stays busy |
| CallOrigins.HangupIsCaptured | isales_telephony/modem_controller/at_client.py:358-362 | hangup() of the active call goes on with the queue of that very call in hand; of any other call it returns at once |
| CallOrigins.PullTakesTheNext | isales_telephony/modem_controller/at_client.py:483-492 | A pull hands out the first queued item that is no repeated connected and leaves exactly what is behind it, or waits when there is none |
| CallOrigins.SomethingIsNext | isales_telephony/modem_controller/at_client.py:483-492 | Every queue has such a first item, or holds nothing but repeated connecteds |
| CallOrigins.PullOfTheOthers | isales_telephony/modem_controller/at_client.py:475-503 | The stream of a failed dial hands out its one event; after a hangup a pull frees the modem; an ended stream gives nothing |
| CallOrigins.CloseReleasesWhatWasEntered | isales_telephony/modem_controller/at_client.py:493-495 | Closing an entered stream frees the modem and stops the poller; closing one never pulled leaves both |
| CallOrigins.EveryEventHasItsCause | isales_telephony/modem_controller/at_client.py:316-495 | Provenance over every run: connected is yielded only if a poller of that call was told of an active call, a remote_hangup only with the cause of a hangup-class URC read while its call was active, of a hangup() of it, or of its failed dial |
| SerialAtClient.SerialATClient.Dial | isales_telephony/modem_controller/at_client.py:316-331 | Refused exactly while a call is active; otherwise a fresh id, a fresh queue and a pending dial |
| SerialAtClient.SerialATClient.DialReturned | isales_telephony/modem_controller/at_client.py:333-356 | Failure resets the state and returns a one-event stream; success starts the poller and returns a lazy stream |
| SerialAtClient.SerialATClient.Hangup | isales_telephony/modem_controller/at_client.py:358-362 | Captures the queue of the active call before the driver is awaited; nothing for a stale id |
| SerialAtClient.SerialATClient.HangupDone | isales_telephony/modem_controller/at_client.py:363-370 | The event goes to the captured queue, whatever call is active by then |
| SerialAtClient.SerialATClient.OnUrc | isales_telephony/modem_controller/at_client.py:443-452 | A hangup-class URC becomes one remote_hangup for the active call at the end of the current queue; any other, or one outside a call, changes nothing |
| SerialAtClient.SerialATClient.PollerAnswered | isales_telephony/modem_controller/at_client.py:454-473 | An active CLCC line queues connected on the queue current at that time and ends the poller; an error or an inactive answer keeps it only while the call is active |
| SerialAtClient.SerialATClient.Next | isales_telephony/modem_controller/at_client.py:475-495 | One __anext__: the same state and outcome as the specification of the stream for every control point of the generator |
| SerialAtClient.SerialATClient.Drain | isales_telephony/modem_controller/at_client.py:483-492 | The loop over queued items hands out the first item that is not a repeated connected, or ends at the sentinel, or waits |
| SerialAtClient.SerialATClient.CloseStream | isales_telephony/modem_controller/at_client.py:493-495 | Closing runs the finally only for a stream that was entered, and resets only the own call |
| SerialAtClient.SerialATClient.Aclose | isales_telephony/modem_controller/at_client.py:419-430 | The sentinel goes to the current queue and the poller is cancelled |
| AtProtocol.HasActiveCall | isales_telephony/modem_controller/at_client.py:502-518 | True exactly when some line is a +CLCC line whose third field is 0 |
| AtProtocol.PrintedCallIsReadBack | isales_telephony/modem_controller/at_client.py:502-518 | A +CLCC line as section 7.18 of 3GPP TS 27.007 prints it is read as active if and only if its state is 0 |
| CallTheorems.TraceSafety | isales_telephony/edge/orchestrator.py:378-568 | In every interleaving of cloud commands, URCs, pollers, CPCMREG failures, join failures, cancels and stop(): the messages of each call are Ack first and once, at most one connected, an alert only after it and followed by nothing but the hangup, at most one hangup and nothing after it; the hangup is out exactly when the context is terminated; two contexts under one call id never interleave |
| CallTheorems.AcceptedIsWellSpoken | isales_telephony/edge/orchestrator.py:803-817 | The per-call automaton of the invariant accepts only traces that meet the quantified statement over positions |
| CallTheorems.CleanupTouchesOnlyItsOwn | isales_telephony/edge/orchestrator.py:448-454 | No step of a pump removes another registered call or changes another context, even when the cloud has redialled the same call id |
| CallTheorems.OnlyPumpAndStopUnregister | isales_telephony/edge/orchestrator.py:336-342 | A call leaves the map only by a step of its own pump or because stop() takes its key |
| CallTheorems.ResourceBalance | isales_telephony/edge/orchestrator.py:190-241 | Over every run, counting the enables whose await returned: a call has a recorder, a bridge or an enabled CPCMREG exactly when more of each has begun than ended; audio pumps are started once and live only while the bridge is joined; a call whose pump is done and that stop() is not visiting has one disable per enable, one finalized wav per recording begun, one leave and one ring close per bridge |
| CallTheorems.PoweredIsBalanced | isales_telephony/edge/orchestrator.py:470-485 | The order of enable, build, start, leave, finalize, disable and close, stated by counts before each action |
| CallTheorems.TeardownsNeverOverlap | isales_telephony/edge/orchestrator.py:190-211 | At most one teardown runs on a context, a pump running one is never cancelled, and a terminated context is out of reach of stop() |
| CallTheorems.TeardownNeverDeadlocks | isales_telephony/edge/orchestrator.py:201-211 | A suspended teardown can resume, or a task it waits for can take a step: no task waits for itself |
| CallSafety.TeardownTwice | isales_telephony/edge/orchestrator.py:190-200 | Once a teardown has run to its end, at once or from any of its waits, whoever repeats it does nothing and waits for nothing |
| CallTheorems.OneCallOnAir | isales_telephony/edge/orchestrator.py:495-568 | Outside stop() and the finally of a broken pump only the call that owns the modem has a bridge |
| CallEndings.JoinFailureKeepsTheModem | isales_telephony/edge/orchestrator.py:533-539 | After a failed join the call is unregistered and reported but the modem stays in it: over every later run, until its pump takes a remote_hangup or the end off the stream, every dial of an unregistered call is refused |
| CallEndings.SilentExactly | isales_telephony/edge/orchestrator.py:423-568 | A pump step drops its registered call without a hangup event if and only if the stream ended without one, CPCMREG was refused while the uplink was down, or building the audio path raised; so "every call reports its hangup" is false, and this is exactly when |
| CallEndings.UnreportedExactlyWhenDropped | isales_telephony/edge/orchestrator.py:336-568 | Call by call over every run: a call that has left the map has no hangup event if and only if one of its own silent steps, or stop(), took it |
| CallEndings.SomeCallsEndSilently | isales_telephony/edge/orchestrator.py:471-485 | One run that drops a call reported as connected without a word: CPCMREG is refused while the uplink is down |
| CallEndings.LoudRunReportsEveryCall | isales_telephony/edge/orchestrator.py:803-817 | In every run without such a step and without stop(), each call that is no longer registered, or whose pump is done, has reported its hangup |
| CallSafety.StepKeepsInv | isales_telephony/edge/orchestrator.py:336-844 | Every step of every coroutine keeps the inductive invariant that ties contexts, pumps, streams, messages and audio path together |
| CallSafety.RunKeepsInv | isales_telephony/edge/orchestrator.py:336-844 | So it holds after every run from boot |
| CallSteps.DialCommandOutcome | isales_telephony/edge/orchestrator.py:378-403 | In every reachable state: a registered call id is acknowledged as duplicate, a busy modem refuses, otherwise the modem is taken; nothing else changes |
| CallSteps.DialReturnOutcome | isales_telephony/edge/orchestrator.py:404-421 | Successful or not, a dial registers one new context that has done nothing, acknowledged once, with its pump among its tasks |
| CallSteps.CancelOutcome | isales_telephony/edge/orchestrator.py:821-844 | A cancel of the registered call that has the modem hangs the modem up and ends in a manual_hangup on that call's own queue; any other cancel changes nothing |
| CallSteps.HangupReturns | isales_telephony/edge/orchestrator.py:821-844 | Whoever awaits it, a hangup that returns puts one manual_hangup at the end of its own call's queue and touches nothing registered |
| CallSteps.PumpPulledOutcome | isales_telephony/edge/orchestrator.py:423-447 | Connected is reported and CPCMREG requested, a hangup is reported once and unregisters the call, the end of the stream drops it, nothing queued leaves it waiting |
| CallSteps.PumpEnabledOutcome | isales_telephony/edge/orchestrator.py:471-526 | Refused online: alert, hangup event, unregistered; refused offline or raising: dropped without a word; accepted: enabled, recorded if a recorder began, bridged, in that order |
| CallSteps.PumpJoinedOutcome | isales_telephony/edge/orchestrator.py:527-568 | A successful join starts the audio pumps and returns to the stream; a failed one is reported as a hangup |
| CallSteps.PumpCancelledOutcome | isales_telephony/edge/orchestrator.py:442-454 | A pump never started runs nothing; one waiting on its stream closes it and frees the modem; nothing is said and nothing registered is touched |
| CallSteps.PumpTornOutcome | isales_telephony/edge/orchestrator.py:207-241 | A teardown resumed by a pump leaves the bridge, finalizes the recording, disables CPCMREG and closes the rings in that order, says nothing, and at its end leaves nothing on |
| CallSteps.StopTornOutcome | isales_telephony/edge/orchestrator.py:339-342 | The teardown of stop() goes through the same order and leaves every other context alone |
| CallSteps.StopAdvancedOutcome | isales_telephony/edge/orchestrator.py:339-342 | The next registered id is unregistered without a word, its pump cancelled and awaited; an id that has gone is passed over |
| CallSteps.StopReleasesEverything | isales_telephony/edge/orchestrator.py:336-342 | When stop() is about to return and no dial returned meanwhile, no call is registered and each is reported, or done with nothing left on its audio path, or in the last teardown of its own pump |
| CallCauses.StepMovesAt | isales_telephony/edge/orchestrator.py:378-844 | Every step of the orchestrator is at most one action of the modem-call layer, and the one its code performs |
| CallCauses.EdgeRunsAreAtRuns | isales_telephony/edge/orchestrator.py:378-844 | So the modem-call layer inside every run of the edge process has made a legal run of its own, and all that is proved of those holds of it |
| CallCauses.KnownWasBrought | isales_telephony/edge/orchestrator.py:378-844 | Every event that exists in a queue or was yielded inside the edge process has a step on the way that brought it: an active answer, a hangup URC, a returned hangup, a failed dial |
| CallCauses.NothingIsReportedWithoutACause | isales_telephony/edge/orchestrator.py:423-568 | Over every run the cloud hears ConnectedEvent of a call only after a poller of it was told of an active call, and HangupEvent only after a hangup-class URC in it, a returned hangup() of it, its failed dial, a refused CPCMREG or a failed join |
| Orchestrator.CallContext.Teardown | isales_telephony/edge/orchestrator.py:190-241 | Cancels and awaits every task but the running one, then leaves, finalizes, disables and closes, up to the first wait |
| Orchestrator.CallContext.TeardownResumed | isales_telephony/edge/orchestrator.py:207-241 | The rest of the teardown after each of its three waits |
| Orchestrator.EdgeOrchestrator.OnDial | isales_telephony/edge/orchestrator.py:378-412 | Duplicate, refused, or a dial in flight |
| Orchestrator.EdgeOrchestrator.DialReturned | isales_telephony/edge/orchestrator.py:404-421 | Registers a new context, acknowledges it and creates its pump, also when the dial failed |
| Orchestrator.EdgeOrchestrator.OnCancel | isales_telephony/edge/orchestrator.py:821-844 | Hangs up the modem call of the registered context; nothing for an unknown or stale one |
| Orchestrator.EdgeOrchestrator.PumpPulled | isales_telephony/edge/orchestrator.py:423-447 | Connected is reported and CPCMREG requested; a hangup is handled; the end of the stream runs the finally |
| Orchestrator.EdgeOrchestrator.PumpFinally | isales_telephony/edge/orchestrator.py:448-454 | Whatever context is under the call id is unregistered and the own context torn down; nothing when the id is not registered |
| Orchestrator.EdgeOrchestrator.PumpEnabled | isales_telephony/edge/orchestrator.py:471-526 | Refused: alert, hangup event, modem hangup, or the exception of the critical alert while offline; accepted: the audio path is built |
| Orchestrator.EdgeOrchestrator.PumpJoined | isales_telephony/edge/orchestrator.py:527-568 | Joined: audio pumps start; failed: the hangup path, then back to the stream |
| Orchestrator.EdgeOrchestrator.PumpTorn | isales_telephony/edge/orchestrator.py:803-817 | A pump resumes its suspended teardown and then what called it |
| Orchestrator.EdgeOrchestrator.PumpCancelled | isales_telephony/edge/orchestrator.py:442-454 | Cancellation at every suspension point; a pump that never started runs no finally |
| Orchestrator.EdgeOrchestrator.HandleRemoteHangup | isales_telephony/edge/orchestrator.py:803-817 | The event goes out once, the call is unregistered before the teardown starts, and a terminated context is left alone |
| Orchestrator.EdgeOrchestrator.StopBegin | isales_telephony/edge/orchestrator.py:336-339 | The snapshot holds exactly the registered call ids |
| Orchestrator.EdgeOrchestrator.StopNext | isales_telephony/edge/orchestrator.py:339-342 | Pops the next id and starts its teardown, or skips an id that has gone |
| Orchestrator.EdgeOrchestrator.StopTorn | isales_telephony/edge/orchestrator.py:339-342 | Resumes a suspended teardown of stop() |
| Uplink.WireIsInOrder | isales_telephony/transport/grpc_client.py:186-367 | Across reconnects, stops, restarts, process crashes and rows gone bad, with any sends: the wire carries accepted frames, each at most once, in order of acceptance |
| Uplink.EveryFrameHasOneFate | isales_telephony/transport/grpc_client.py:186-367 | Every accepted frame is in exactly one place: transmitted, queued, buffered, abandoned in a dead queue, evicted, or deleted undecodable |
| Uplink.NoStreamMeetsAStaleClose | isales_telephony/transport/grpc_client.py:297-300 | An open stream that is not being stopped has no close sentinel ahead of it and has met none |
| Uplink.StepKeepsOrder | isales_telephony/transport/grpc_client.py:203-231 | Every step keeps wire, live queue and decodable rows, in that order, increasing in acceptance number |
| Uplink.StepConserves | isales_telephony/transport/grpc_client.py:203-231 | Every step moves frames between places and only send() adds one, once |
| Uplink.DrainConserves | isales_telephony/transport/sqlite_buffer.py:207-254 | A drain splits the table into queued rows, undecodable rows deleted on the way and undecodable rows left behind, losing none |
| UplinkDelivery.ExactlyTheOfferedIsAccepted | isales_telephony/transport/grpc_client.py:203-231 | From the events of a run alone: the client is connected exactly from a stream coming up to the next end, stop or crash, and the accepted bodies are exactly those of the sends made while it was or without the critical flag, in order |
| UplinkDelivery.SendOutcome | isales_telephony/transport/grpc_client.py:217-231 | In every reachable state: critical and disconnected changes nothing; otherwise exactly this body is accepted, as the last item of the queue when connected, else as the last row, for which a full buffer gives up its oldest |
| UplinkDelivery.CaughtUp | isales_telephony/transport/grpc_client.py:186-367 | With nothing queued, buffered or lost, the bodies on the wire are exactly the offered ones, in the order they were offered |
| UplinkDelivery.OnlyTheQueueHeadIsSent | isales_telephony/transport/grpc_client.py:340-346 | The wire only grows, and only by the head of the queue |
| UplinkDelivery.OnlyAFullBufferEvicts | isales_telephony/transport/grpc_client.py:222-231 | Frames are evicted only by a non-critical send into a full buffer while disconnected, and given up as undecodable only by a flush |
| UplinkDelivery.OnlyDeadQueuesAreAbandoned | isales_telephony/transport/grpc_client.py:287-338 | Frames are abandoned only with the queue a new stream replaces, or by a crash, which takes the queue and what is not on disk |
| UplinkDelivery.OnlyTheseTouchTheQueue | isales_telephony/transport/grpc_client.py:145-201 | The transport takes the head of the queue, stop() puts the sentinel behind it; start(), the end of a stream and the rest of stop() leave queue and buffer alone |
| UplinkDelivery.CorruptionSpoilsOneRow | isales_telephony/transport/sqlite_buffer.py:225-254 | A payload gone bad makes that one row undecodable and changes nothing else |
| UplinkDelivery.UpOutcome | isales_telephony/transport/grpc_client.py:311-317 | A stream that comes up has exactly the readable rows queued, in order; what it leaves behind or gives up is undecodable |
| UplinkDelivery.CrashInFlushCostsTheFirst | isales_telephony/transport/grpc_client.py:359-363 | A crash k rows into a flush costs exactly the first k readable frames |
| GrpcClient.CloudEdgeGrpcClient.Start | isales_telephony/transport/grpc_client.py:145-161 | Raises exactly while the connect loop exists; it may run while an earlier stop() still waits for its channel to close |
| GrpcClient.CloudEdgeGrpcClient.Send | isales_telephony/transport/grpc_client.py:203-231 | Raises if and only if the frame is critical and the client disconnected, and then changes nothing; otherwise the frame is accepted as the last item of the queue when connected, else as the last row of the buffer |
| GrpcClient.CloudEdgeGrpcClient.AppendMemory | isales_telephony/transport/grpc_client.py:135-139 | A full deque drops its oldest frame, as the table does |
| GrpcClient.CloudEdgeGrpcClient.OpenStream | isales_telephony/transport/grpc_client.py:287-301 | A fresh queue; what the old one held is abandoned |
| GrpcClient.CloudEdgeGrpcClient.StreamUp | isales_telephony/transport/grpc_client.py:311-317 | Connected, then everything buffered goes on the new queue in one step |
| GrpcClient.CloudEdgeGrpcClient.FlushDurable | isales_telephony/transport/grpc_client.py:348-364 | The paged drain with delete-as-you-go ends, queues exactly the decodable rows in order, and leaves only the undecodable rows behind the last of them |
| GrpcClient.CloudEdgeGrpcClient.FlushMemory | isales_telephony/transport/grpc_client.py:364-367 | The deque is emptied onto the queue in order |
| GrpcClient.CloudEdgeGrpcClient.OutboundNext | isales_telephony/transport/grpc_client.py:340-346 | The head of the queue leaves it, and is what the transport gets; the sentinel ends the iterator |
| GrpcClient.CloudEdgeGrpcClient.StreamEnded | isales_telephony/transport/grpc_client.py:331-338 | Disconnected and closed; queue and buffer untouched |
| GrpcClient.CloudEdgeGrpcClient.StopBegin | isales_telephony/transport/grpc_client.py:186-191 | The sentinel goes behind everything queued |
| GrpcClient.CloudEdgeGrpcClient.StopJoined | isales_telephony/transport/grpc_client.py:192-196 | The connect task is gone: no loop, no stream, not connected |
| GrpcClient.CloudEdgeGrpcClient.StopEnd | isales_telephony/transport/grpc_client.py:197-201 | The flag is cleared once more, even that of a stream started in between |
| GrpcClient.MemoryRefines | isales_telephony/transport/grpc_client.py:135-139 | Deque and table, read as frames, drop the same ones |
| GrpcClient.FlushStep | isales_telephony/transport/grpc_client.py:359-363 | One turn of the drain: what has been queued plus what is still readable is what was readable at the start |
| EventBuffer.AppendsKeepTheNewest | isales_telephony/transport/sqlite_buffer.py:171-203 | Starting within the bound, any run of appends leaves the last min(n, capacity) entries, in order |
| EventBuffer.SqliteEventBuffer.Append | isales_telephony/transport/sqlite_buffer.py:171-203 | The new row gets the next seq, is never evicted itself, and the eviction counter accounts for every row that went |
| EventBuffer.SqliteEventBuffer.EnforceCapacity | isales_telephony/transport/sqlite_buffer.py:304-321 | Exactly the oldest rows beyond the capacity go |
| EventBuffer.SqliteEventBuffer.DeleteThrough | isales_telephony/transport/sqlite_buffer.py:266-283 | Exactly the rows with seq up to the bound go |
| EventBuffer.PagerYieldsSurvivorsOnce | isales_telephony/transport/sqlite_buffer.py:207-254 | However appends, evictions and deletes fall between its yields, the pager yields decodable rows in strictly increasing seq, hence once; when it returns every decodable row then in the table has been yielded |
| EventBuffer.LaterAppendsAreYielded | isales_telephony/transport/sqlite_buffer.py:225-254 | A pager suspended with nothing readable left ahead yields a row appended before it is resumed, so it is no snapshot |
| EventBuffer.ReturnedPagerYieldsNothing | isales_telephony/transport/sqlite_buffer.py:237-238 | Once it has found nothing it has returned and yields nothing more, whatever is appended |
| EventBuffer.PullSplits | isales_telephony/transport/sqlite_buffer.py:225-254 | One __next__ hands out the first decodable row ahead and passes over the undecodable ones before it, across page borders |
| EventBuffer.Next | isales_telephony/transport/sqlite_buffer.py:225-254 | The paging loop ends without new appends, measured by the rows ahead, and computes that row |
| EventBuffer.DrainStep | isales_telephony/transport/grpc_client.py:359-363 | Deleting through a yielded row removes that row and undecodable ones only, and leaves fewer rows |
| PcmRing.RingHoldsLongestSuffix | isales_telephony/audio_bridge/ring_buffer.py:51-116 | After any mix of put, get, get_nowait and close the buffer holds exactly the longest suffix of the accepted chunks that starts after the last one handed out and fits the capacity; the size is its byte sum; bytes offered while open are handed out, dropped or held |
| PcmRing.DropsJustEnough | isales_telephony/audio_bridge/ring_buffer.py:51-92 | Eviction stops at the first suffix that leaves room for the new chunk |
| PcmRing.PcmRingBuffer.PutChunk | isales_telephony/audio_bridge/ring_buffer.py:51-92 | The eviction loop and the counters refine the specification: a chunk that fits is the newest held and the dropped counter grows by exactly the chunks that went; a closed buffer raises and changes nothing; an oversized chunk is dropped and counted |
| PcmRing.PcmRingBuffer.TryGet | isales_telephony/audio_bridge/ring_buffer.py:93-109 | Oldest chunk first; the end if and only if the buffer is closed and empty, a wait if and only if it is open and empty |
| PcmRing.PcmRingBuffer.GetNowait | isales_telephony/audio_bridge/ring_buffer.py:110-117 | Oldest chunk, or None when empty |
| PcmRing.PcmRingBuffer.Close | isales_telephony/audio_bridge/ring_buffer.py:133-138 | Only the flag changes |
| AudioPumps.DuplexConserves | isales_telephony/edge/audio_io.py:148-184 | After n iterations: n frames of 320 bytes written, and the audio handed over followed by the pending bytes is everything drained, in order |
| AudioPumps.WrittenIsSpeechAndSilence | isales_telephony/edge/audio_io.py:148-184 | Some of the frames written to the modem, joined, followed by the pending bytes are everything drained; each other frame is silence |
| AudioPumps.BacklogBound | isales_telephony/edge/audio_io.py:148-173 | If every run of k iterations drains at most 320k + B bytes, pending never exceeds B + 319 |
| AudioPumps.BoundedBacklogBoundsBursts | isales_telephony/edge/audio_io.py:148-173 | Conversely a backlog within B means no run of k iterations drained more than 320k + B |
| AudioPumps.DuplexPump.Iterate | isales_telephony/edge/audio_io.py:148-184 | One chunk goes upstream and the downstream ring is emptied; with 320 bytes pending and drained the frame is the first 320 of them and the rest stays pending, otherwise it is silence and all of them stay; end of file or a closed upstream ring stops the pump before anything is drained |
| AudioPumps.DrainInto | isales_telephony/edge/audio_io.py:159-165 | The ring is emptied and its bytes join the pending ones in order |
| AudioPumps.RunPlaybackPump | isales_telephony/edge/audio_io.py:85-125 | What is written is the stream cut into whole frames, whatever the chunks were; the rest is kept |
| AudioPumps.WholeAndRemainder | isales_telephony/edge/audio_io.py:100-118 | Whole frames and remainder are the stream, every frame has 320 bytes and the remainder fewer |
| SerialLines.ChunkingDoesNotMatter | isales_telephony/modem_controller/platforms/windows_serial_at.py:94-123 | The reader fed the same bytes in two different splits, read by read and keeping its buffer in between, queues the same lines and ends with the same buffer |
| SerialLines.FeedAllIsWhole | isales_telephony/modem_controller/platforms/windows_serial_at.py:108-119 | Reading piece by piece queues exactly the lines of all the bytes taken at once and keeps their residue |
| SerialLines.LinesDecompose | isales_telephony/modem_controller/platforms/windows_serial_at.py:108-119 | Each line has exactly one newline, at its end; lines followed by the residue are the input |
| SerialLines.DecompositionIsUnique | isales_telephony/modem_controller/platforms/windows_serial_at.py:108-119 | There is no other way to cut the input like that |
| SerialLines.ReaderThread | isales_telephony/modem_controller/platforms/windows_serial_at.py:94-123 | The thread is that fold over the reads before the first failed one, then the end-of-file marker; so it queues the lines of the bytes received |
| SerialLines.EmitLines | isales_telephony/modem_controller/platforms/windows_serial_at.py:108-119 | The inner loop takes every complete line off the buffer and leaves the residue |
| AtProtocol.UrcsDoNotInterfere | isales_telephony/modem_controller/serial_protocol.py:220-262 | Deleting every URC line from any run leaves every response, every delivery and every timeout as they were |
| AtProtocol.DeliveredInOrder | isales_telephony/modem_controller/serial_protocol.py:155-180 | Responses delivered followed by those queued are those produced, in order |
| AtProtocol.ReplyIsOwnExactlyWhenNoneGivenUp | isales_telephony/modem_controller/serial_protocol.py:155-180 | The response a command gets trails its number by the sends given up so far, that is those that timed out or were cancelled in their wait; commands and responses pair one to one if and only if no send before was given up |
| AtProtocol.GivingUpShiftsTheReplies | isales_telephony/modem_controller/serial_protocol.py:173-178 | A run for either way of giving up in which the late OK of one command is handed to the next: the timeout of the documented kind, and the cancellation of a CLCC poller in its wait |
| AtProtocol.StaysPaired | isales_telephony/modem_controller/serial_protocol.py:162-178 | Over every run the i-th delivery carries the i-th response, and written commands are delivered, given up or waiting |
| AtProtocol.ResponsesHoldBodiesOnly | isales_telephony/modem_controller/serial_protocol.py:220-262 | No final result line and no URC line is ever part of a response |
| AtProtocol.RegistrationAnswerIsLost | isales_telephony/modem_controller/serial_protocol.py:272-281 | So the +CREG line that answers AT+CREG? never reaches the command that asked |
| AtReplies.EveryReplyCarriesItsLines | isales_telephony/modem_controller/serial_protocol.py:198-262 | From the events of a run alone: the responses delivered and queued are, in order, one per final result line, with exactly the body lines since the last final result or command start, ok for OK and error, code and detail for the others, and one EOF error per end of file met by a waiting command; the URC handlers got exactly the announcements |
| AtReplies.FinalLineAnswers | isales_telephony/modem_controller/serial_protocol.py:223-256 | A final result line queues one response with the bodies read behind the last reset, and ok exactly for OK |
| AtReplies.ErrorIsReadBack | isales_telephony/modem_controller/serial_protocol.py:240-256 | +CME ERROR and +CMS ERROR give their prefix as code and what follows the colons and blanks as detail |
| AtReplies.ExchangeReturnsItsLines | isales_telephony/modem_controller/serial_protocol.py:155-180 | A command sent with no response queued, then any lines, then a final result: the command gets back exactly the bodies in between |
| AtReplies.PollerIsToldWhatWasRead | isales_telephony/modem_controller/at_client.py:454-473 | So the CLCC poller is told of an active call exactly when a line that says so was read between AT+CLCC and OK |
| AtReplies.UrcTable | isales_telephony/modem_controller/serial_protocol.py:265-281 | The loop over the prefix table recognises exactly the eight announcements, first match first |
| AtProtocol.AtClient.ReadLine | isales_telephony/modem_controller/serial_protocol.py:198-218 | The bytes of a line are decoded, stripped and dispatched; end of file ends a waiting command with an error |
| AtProtocol.SentLineIsReadBack | isales_telephony/modem_controller/serial_protocol.py:214-217 | An ASCII line is read as it was sent whatever line ends and blanks are around it |
| AtProtocol.AtClient.DispatchLine | isales_telephony/modem_controller/serial_protocol.py:220-262 | Final result, URC or body line, in that order of tests (result codes of section 5.7 of ITU-T V.250); OK and ERROR hand over the lines pending |
| AtProtocol.AtClient.FindUrc | isales_telephony/modem_controller/serial_protocol.py:272-281 | The first matching prefix decides |
| AtProtocol.AtClient.SendBegin | isales_telephony/modem_controller/serial_protocol.py:155-172 | Stale pending lines are cleared and the command is written, unless it is not ASCII and encoding it raises |
| AtProtocol.AtClient.SendEnd | isales_telephony/modem_controller/serial_protocol.py:162-180 | The oldest queued response; a timeout or a cancellation frees the lock and leaves every response queued |
| FrameRing.FrameRingBuffer.Push | deploy/edge/windows/pybind/dingrtc_pywrap/src/ring_buffer.cpp:10-24 | The circular array refines a drop-oldest queue; head stays (tail + size) mod capacity and pushed = drained + dropped + cleared + size |
| FrameRing.FrameRingBuffer.Drain | deploy/edge/windows/pybind/dingrtc_pywrap/src/ring_buffer.cpp:26-36 | The oldest min(max_n, size) frames leave in order |
| FrameRing.FrameRingBuffer.Clear | deploy/edge/windows/pybind/dingrtc_pywrap/src/ring_buffer.cpp:38-42 | Empty again |
| FrameRing.WindowAppend | deploy/edge/windows/pybind/dingrtc_pywrap/src/ring_buffer.cpp:20-22 | Writing at the head appends to the contents, wrapped round or not |
| FrameRing.WindowDrop | deploy/edge/windows/pybind/dingrtc_pywrap/src/ring_buffer.cpp:30-33 | Moving the tail drops the oldest entries, wrapped round or not |
| FrameRing.DeliveredInOrder | isales_telephony/audio_bridge/windows_dingrtc_session.py:341-382 | Through ring and bounded queue, with clears in between, what is delivered is pushed frames, in order, each at most once |
| FrameRing.HandOff | isales_telephony/audio_bridge/windows_dingrtc_session.py:349-378 | What is left of the queue and the frames handed over is the newest maxsize of them, in order |
| FrameRing.PushAllKeepsTheNewest | isales_telephony/audio_bridge/windows_dingrtc_session.py:349-378 | Dropping one and putting one, frame by frame, keeps the newest of queue and frames together |
| RtcAudio.SlicesCover | isales_telephony/audio_bridge/windows_dingrtc_session.py:398-420 | ceil(len / size) full frames whose concatenation is the PCM and fewer than size zero bytes |
| RtcAudio.StampedAt | isales_telephony/audio_bridge/windows_dingrtc_session.py:405-420 | The i-th frame is stamped 10 i ms after the first |
| RtcAudio.FrameIsTenMilliseconds | isales_telephony/audio_bridge/windows_dingrtc_session.py:395-402 | A frame is the whole samples of all channels that fit into 10 ms, and exactly 10 ms when the rate is a multiple of 100 |
| RtcAudio.PushAudio | isales_telephony/audio_bridge/windows_dingrtc_session.py:384-431 | The frames handed to the SDK are those slices with those timestamps, all of them or up to the first refusal; not joined, and a rate too low for a 10 ms frame, are errors that send nothing |
| RtcAudio.DownmixMeans | isales_telephony/audio_bridge/bridge.py:290-297 | Defined exactly for an even number of samples, for 1 and for 3: an even number gives the mean of each pair, rounded down and within int16; by broadcasting, one sample gives nothing and of three the last shares the right sample of the first |
| RtcAudio.DecimationDistributes | isales_telephony/audio_bridge/bridge.py:290-309 | Decimating by k frame by frame equals decimating the stream if and only if frame lengths are multiples of k |
| RtcAudio.DecimateAt | isales_telephony/audio_bridge/bridge.py:290-309 | Decimation keeps every k-th sample from the first on |
| RtcAudio.UpstreamLoop | isales_telephony/audio_bridge/bridge.py:205-255 | Each attempt is answered on its own: backpressure is waited out and counted, a chunk that gets through is accepted once, in order, and tapped once behind it; the first other failure, or a cancellation in the wait, ends the loop |
| RtcAudio.GetsThroughExactly | isales_telephony/audio_bridge/bridge.py:215-250 | A chunk gets through if and only if some attempt is accepted behind nothing but backpressure, and the waits are those refusals |
| RtcAudio.AcceptedUpToTheFirstFailure | isales_telephony/audio_bridge/bridge.py:205-255 | Accepted is every non-empty chunk, resampled, before the first that cannot be resampled or does not get through |
| RtcAudio.WaitsUpToTheFirstFailure | isales_telephony/audio_bridge/bridge.py:215-250 | The backpressure counter is the refusals met up to there |
| RtcAudio.DownstreamLoop | isales_telephony/audio_bridge/bridge.py:257-330 | Only the peer's frames are heard; each is tapped and then played, up to the first failure |
| RtcAudio.HeardUpToTheFirstFailure | isales_telephony/audio_bridge/bridge.py:257-330 | Up to the first of them that cannot be converted or finds the ring closed, exactly the frames with an empty uid or the uid of the peer are tapped and played; the others are counted |
| RtcAudio.TapsFillTracks | isales_telephony/audio_bridge/bridge.py:205-283 | However the taps of both loops interleave, each track grows by exactly its own loop's PCM in order |
| RtcAudio.CallIsRecorded | isales_telephony/modem_controller/recorder.py:54-86 | A call begun, tapped and finalized: the left track of the wav is exactly the PCM of the pushes that completed, the right one exactly the peer's, padded to equal length |
| Recording.WavGivesTracksBack | isales_telephony/modem_controller/recorder.py:111-128 | De-interleaving the wav returns both tracks padded to equal length; writing fails exactly when the longer track is no whole number of samples |
| Recording.WavSampleAt | isales_telephony/modem_controller/recorder.py:111-128 | Sample by sample the wav is left and right in turn, each track followed by silence up to the longer one |
| Recording.TracksAreTheSession | isales_telephony/modem_controller/recorder.py:54-76 | A recording holds exactly what was appended to its own call since it last began, so calls never mix |
| Recording.RecordingFidelity | isales_telephony/modem_controller/recorder.py:54-86 | Over any run of operations on any calls: there is a wav only for a call being recorded, and it de-interleaves to that call's two sessions |
| Recording.Recorder.BeginCall | isales_telephony/modem_controller/recorder.py:54-63 | Refused when the disk is nearly full, without touching anything; otherwise both tracks start empty |
| Recording.Recorder.Finalize | isales_telephony/modem_controller/recorder.py:77-86 | The recording leaves the table even when its wav cannot be written |
| Recording.WriteStereo | isales_telephony/modem_controller/recorder.py:111-128 | The two strided assignments over the output array interleave the padded tracks |
| PortWatcher.PollLoop | isales_telephony/modem_controller/platforms/windows_serial.py:198-225 | After any run of polls and scan failures, replaying the queued events over the seed scan gives the last successful scan; every remove names a present port as it was, every add an absent one |
| PortWatcher.LastGoodIsTheLast | isales_telephony/modem_controller/platforms/windows_serial.py:198-225 | The scan kept is that of the last successful poll, of the seed if there was none, and empty if that failed too |
| PortWatcher.DiffScans | isales_telephony/modem_controller/platforms/windows_serial.py:115-150 | Removes then adds, exactly for the ports gone, new or changed, once each, with the vid and pid they had or have; replayed over the previous scan they give the current one |
| PortWatcher.FindRemoves | isales_telephony/modem_controller/platforms/windows_serial.py:115-134 | A remove for exactly the ports gone or changed |
| PortWatcher.FindAdds | isales_telephony/modem_controller/platforms/windows_serial.py:135-150 | An add for exactly the ports new or changed |
| EnvFile.EnvRoundTrip | isales_telephony/ui/env_writer.py:93-149 | After a write the file reads back with exactly the trimmed token and endpoint; every other key is there exactly when it was, with its value unchanged if and only if that is trimmed and not quote-wrapped |
| EnvFile.RewritesSettle | isales_telephony/ui/env_writer.py:116-149 | Repeated writes reach a fixed point after at most as many passes as the value is long |
| EnvFile.RewritesCount | isales_telephony/ui/env_writer.py:116-149 | n writes normalise a foreign value n times |
| EnvFile.NormShrinks | isales_telephony/ui/env_writer.py:106-111 | Each pass takes at most one layer of quotes and shortens whatever it changes |
| EnvFile.NormKeepsExactly | isales_telephony/ui/env_writer.py:106-111 | A value survives a pass if and only if it is trimmed and not quote-wrapped |
| EnvFile.RenderedReadsBack | isales_telephony/ui/env_writer.py:93-113 | Reading a printed environment gives every key in place with its value normalised once |
| EnvFile.ReadIsClean | isales_telephony/ui/env_writer.py:93-113 | What is read can always be printed: distinct trimmed keys without =, #-start or line break, values without line break |
| EnvFile.ReadEnvFile | isales_telephony/ui/env_writer.py:93-113 | The parsing loop computes the specification |
| EnvFile.LineOutcome | isales_telephony/ui/env_writer.py:93-113 | A line sets nothing if and only if it is blank, a comment, or without an equals sign |
| EnvFile.LastSettingWins | isales_telephony/ui/env_writer.py:93-113 | The value of a key is that of the last line that sets it |
| EnvFile.TokenOutcome | isales_telephony/ui/env_writer.py:62-80 | Exactly which token is refused as empty, too short, too long or with a bad character |
| EnvFile.EndpointOutcome | isales_telephony/ui/env_writer.py:83-90 | An endpoint is accepted if and only if, trimmed, it is a host or host:port behind an optional grpc:// or grpcs://, and is called empty exactly when it is blank |
| EnvFile.WriteTokenAndEndpoint | isales_telephony/ui/env_writer.py:116-149 | Refuses with the first validation error, otherwise the new content of the file; a port is one to five decimal digits of any script |

## Left out

- The dev-no-modem path, microphone capture, the macOS session and every test double: diagnostics.
- gRPC, DingRTC, pyserial and the UI: foreign calls, one nondeterministic outcome each.
- Polyphase resampling and float interpolation: an arbitrary function per chunk that may fail.
- Hangup causes: opaque strings; the substring lookup that classifies them is not modelled.
- Which call a URC belongs to: the modem does not say, so a late URC counts for the call active when it is read, as in the code.
- Storage errors raised by the SQLite buffer, power loss and WAL durability; a crash is a process crash.
- Reconnect backoff, heartbeats, rate limits and wall-clock time: only the order of steps is modelled.
- The iterator of a stream that has ended takes no further step.
- Uniqueness of call ids: calls are numbered where the code draws a random hex string.
- A captured hangup() may complete more than once in the model, and a pump may pause between two queued events: extra runs only, so every safety statement covers the code's runs.
- CallTheorems.ResourceBalance: an enable whose await is cancelled counts as none, so a pump cancelled inside cpcmreg_enable may leave the modem enabled; and stop() is not cut short (next line).
- Cancellation of the orchestrator's stop() itself, which isales_telephony/main_windows.py:385-392 brings about after three seconds: a teardown cut short while leaving RTC or disabling CPCMREG is never resumed, so TeardownsNeverOverlap, TeardownNeverDeadlocks, TeardownTwice, ResourceBalance and UnreportedExactlyWhenDropped speak of runs in which stop() runs on.
- RtcAudio.CallIsRecorded: a push refused midway has sent its first frames to RTC, and they are on no track.
- Recorder.prune and file names: the wav is the value written.
- Pipes and jitter buffers off the edge path, the macOS copy of the port differ, device discovery, IPC and HTTP handlers: easier repeats or database locking.
- The two attempts inside cpcmreg_enable: one outcome, enabled, refused or crashed.
- A start() between the returns of two overlapping stop() calls of the uplink, and the cancellation of its stop().
- The temporary env file and its atomic replace are one step; decimal digits are those of Unicode 14.
- AtClient.aclose: a send() after it raises and changes nothing.
- SerialLines.ReaderThread: the stop flag is the end of the input.
- Mutual exclusion inside the C++ ring: each method is one step, as under its mutex.
