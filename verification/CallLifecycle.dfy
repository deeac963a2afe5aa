/**
The life of a call: `EdgeOrchestrator` of edge/orchestrator.py (modem path) on top
of the modem-call layer, as one transition system.

A step is the code of one coroutine between two suspension points. A context is
named by its modem call id. What the code calls `self._calls` maps the cloud's
call id to such a name; a context that has left the map still exists, because its
pump, or a teardown, still holds it.
*/
module CallLifecycle {
  import opened Options
  import A = AtCalls

  // ----- Contexts -----------------------------------------------------------

  /** Where a teardown is suspended. */
  datatype Phase = AwaitTasks | Leaving | Disabling

  /** What the pump does once the teardown it runs has returned. */
  datatype After =
    | Resume   // join failure: back to the event loop
    | Return   // remote_hangup handled: `return`, then `finally`
    | HangUp   // CPCMREG failure: hang the modem up
    | Finish   // already in `finally`

  /** The suspension points of _pump_at_events and of what it calls. */
  datatype Pump =
    | NotStarted
    | Pulling
    | Enabling
    | Joining
    | HangingUp(h: A.Hangup)
    | Down(phase: Phase, after: After)
    | Done

  /** _CallContext together with the control point of its pump. */
  datatype Ctx = Ctx(
    call: string,
    terminated: bool,
    cpcm: bool,        // cpcmreg_enabled
    bridge: bool,      // bridge is set
    rings: bool,       // upstream and downstream are set
    recording: bool,   // recorder is set
    tracked: bool,     // the pump is in `tasks`
    audio: nat,        // audio pumps in `tasks` that are not done
    pump: Pump,
    cancelled: bool)   // task.cancel() was called on the pump

  function NewCtx(call: string): Ctx {
    Ctx(call, false, false, false, false, false, true, 0, NotStarted, false)
  }

  /** What a context does to the shared audio path. */
  datatype Act = PcmEnabled | RecordingBegun | BridgeBuilt | AudioStarted | BridgeLeft | Finalized | PcmDisabled | RingsClosed

  /** A teardown run up to its next suspension, or to its end. */
  datatype Torn = Torn(ctx: Ctx, acts: seq<Act>, next: Option<Phase>)

  predicate TasksDone(c: Ctx, byPump: bool) {
    c.audio == 0 && (byPump || !c.tracked || c.pump.Done?)
  }

  /** teardown() from its start: every other task is cancelled and awaited. */
  function TearTasks(c: Ctx, byPump: bool): Torn {
    var d := if !byPump && c.tracked && !c.pump.Done? then c.(cancelled := true) else c;
    if TasksDone(d, byPump) then TearBridge(d) else Torn(d, [], Some(AwaitTasks))
  }

  function TearBridge(c: Ctx): Torn {
    var d := c.(tracked := false);
    if d.bridge then Torn(d, [], Some(Leaving)) else TearRest(d)
  }

  function TearRest(c: Ctx): Torn {
    var acts := (if c.bridge then [BridgeLeft] else []) + (if c.recording then [Finalized] else []);
    var d := c.(bridge := false, recording := false);
    if d.cpcm then Torn(d.(cpcm := false), acts + [PcmDisabled], Some(Disabling))
    else
      var t := TearRings(d);
      Torn(t.ctx, acts + t.acts, None)
  }

  function TearRings(c: Ctx): Torn {
    Torn(c.(rings := false), if c.rings then [RingsClosed] else [], None)
  }

  /** teardown() resumed after the await it was suspended in. */
  function TearAfter(c: Ctx, phase: Phase): Torn {
    match phase
    case AwaitTasks => TearBridge(c)
    case Leaving => TearRest(c)
    case Disabling => TearRings(c)
  }

  // ----- The edge process -----------------------------------------------------

  datatype Msg = Ack | Duplicate | Refused | ConnectedEvent | Alert | HangupEvent

  /** A message handed to the uplink; the owner is the context it is sent for. */
  datatype Sent = Sent(owner: Option<nat>, call: string, msg: Msg)

  datatype Deed = Deed(owner: nat, act: Act)

  /** The serial cloud-message callback. */
  datatype Callback = Quiet | Dialing(call: string) | Cancelling(h: A.Hangup)

  /** stop(): the keys still to visit and the teardown it is suspended in. */
  datatype Stop = NoStop | Stopping(keys: seq<string>, current: Option<nat>, phase: Phase)

  datatype Edge = Edge(
    at: A.At,
    calls: map<string, nat>,
    ctxs: map<nat, Ctx>,
    callback: Callback,
    stop: Stop,
    online: bool,
    sent: seq<Sent>,
    deeds: seq<Deed>)

  const BOOT := Edge(A.IDLE, map[], map[], Quiet, NoStop, false, [], [])

  function StopOn(s: Edge): Option<nat> {
    if s.stop.Stopping? then s.stop.current else None
  }

  function Emit(s: Edge, owner: Option<nat>, call: string, msg: Msg): Edge {
    s.(sent := s.sent + [Sent(owner, call, msg)])
  }

  function Deeds(m: nat, acts: seq<Act>): seq<Deed> {
    if acts == [] then [] else [Deed(m, acts[0])] + Deeds(m, acts[1..])
  }

  function With(s: Edge, m: nat, c: Ctx): Edge {
    s.(ctxs := s.ctxs[m := c])
  }

  function Doing(s: Edge, m: nat, c: Ctx, acts: seq<Act>): Edge {
    s.(ctxs := s.ctxs[m := c], deeds := s.deeds + Deeds(m, acts))
  }

  function At(s: Edge, m: nat, pump: Pump): Edge
    requires m in s.ctxs
  {
    With(s, m, s.ctxs[m].(pump := pump))
  }

  function Pop(s: Edge, call: string): Edge {
    s.(calls := s.calls - {call})
  }

  function FinalPump(next: Option<Phase>): Pump {
    if next.Some? then Down(next.value, Finish) else Done
  }

  /** The `finally` of the pump: whatever context is under the call id goes. */
  function PumpFinally(s: Edge, m: nat): Edge
    requires m in s.ctxs
  {
    var c := s.ctxs[m];
    if c.call in s.calls then
      var t := TearTasks(c, true);
      Doing(Pop(s, c.call), m, t.ctx.(pump := FinalPump(t.next)), t.acts)
    else At(s, m, Done)
  }

  function Continue(s: Edge, m: nat, after: After): Edge
    requires m in s.ctxs
  {
    match after
    case Resume => At(s, m, Pulling)
    case Return => PumpFinally(s, m)
    case HangUp =>
      (match A.HangupTarget(s.at, m)
       case Some(q) => At(s.(at := A.HangupBegin(s.at, m)), m, HangingUp(A.Hangup(m, q)))
       case None => At(s, m, Pulling))
    case Finish => At(s, m, Done)
  }

  function PumpTears(s: Edge, m: nat, t: Torn, after: After): Edge
    requires m in s.ctxs
  {
    var u := Doing(s, m, t.ctx, t.acts);
    if t.next.Some? then At(u, m, Down(t.next.value, after)) else Continue(u, m, after)
  }

  /** _handle_remote_hangup, run by the pump of m. */
  function HandleHangup(s: Edge, m: nat, after: After): Edge
    requires m in s.ctxs
  {
    var c := s.ctxs[m];
    if c.terminated then Continue(s, m, after)
    else
      var u := Pop(Emit(s, Some(m), c.call, HangupEvent), c.call);
      PumpTears(u, m, TearTasks(c.(terminated := true), true), after)
  }

  /** The body of the pump's `async for`, or what follows it when the stream has ended. */
  function PumpGot(s: Edge, m: nat, r: A.Pulled): Edge
    requires m in s.ctxs
  {
    match r
    case Blocked => At(s, m, Pulling)
    case End => PumpFinally(s, m)
    case Yield(ev) =>
      if ev.Connected? then At(Emit(s, Some(m), s.ctxs[m].call, ConnectedEvent), m, Enabling)
      else HandleHangup(s, m, Return)
  }

  /** One turn of the pump's `async for`. */
  function PumpPull(s: Edge, m: nat): Edge
    requires m in s.ctxs && m in s.at.streams
  {
    PumpGot(s.(at := A.Pull(s.at, m).0), m, A.Pull(s.at, m).1)
  }

  datatype Enable = EnableRefused | EnableCrashed | EnableOk(recording: bool, built: bool)

  function PathBegun(recording: bool): seq<Act> {
    if recording then [PcmEnabled, RecordingBegun] else [PcmEnabled]
  }

  /** _handle_connected from the answer to CPCMREG up to the RTC join. */
  function PumpEnable(s: Edge, m: nat, r: Enable): Edge
    requires m in s.ctxs
  {
    var c := s.ctxs[m];
    match r
    case EnableRefused =>
      // the critical alert raises while the uplink is down
      if s.online then HandleHangup(Emit(s, Some(m), c.call, Alert), m, HangUp)
      else PumpFinally(s, m)
    case EnableCrashed => PumpFinally(s, m)
    case EnableOk(recording, built) =>
      var d := c.(cpcm := true, recording := recording);
      if built then
        Doing(s, m, d.(bridge := true, rings := true, pump := Joining), PathBegun(recording) + [BridgeBuilt])
      else PumpFinally(Doing(s, m, d, PathBegun(recording)), m)
  }

  /** _handle_connected from the outcome of the RTC join. */
  function PumpJoin(s: Edge, m: nat, joined: bool, pumps: nat): Edge
    requires m in s.ctxs
  {
    if joined then Doing(s, m, s.ctxs[m].(audio := pumps, pump := Pulling), [AudioStarted])
    else HandleHangup(s, m, Resume)
  }

  /**
  CancelledError is thrown into the pump where it is suspended. Only stop() cancels a
  pump, and never one that is running a teardown (CallTheorems.TeardownsNeverOverlap),
  so the waits inside teardown() that swallow the exception need no case of their own.
  */
  function PumpCancel(s: Edge, m: nat): Edge
    requires m in s.ctxs && m in s.at.streams
  {
    match s.ctxs[m].pump
    case NotStarted => At(s, m, Done)
    case Pulling => PumpFinally(s.(at := A.Close(s.at, m)), m)
    case Down(_, Finish) => At(s, m, Done)
    case _ => PumpFinally(s, m)
  }

  /** stop() takes the next key. */
  function StopNext(s: Edge): Edge
    requires s.stop.Stopping? && s.stop.keys != []
    requires s.stop.keys[0] in s.calls ==> s.calls[s.stop.keys[0]] in s.ctxs
  {
    var k, rest := s.stop.keys[0], s.stop.keys[1..];
    if k in s.calls then
      var m := s.calls[k];
      StopTears(Pop(s, k), m, TearTasks(s.ctxs[m], false), rest)
    else s.(stop := Stopping(rest, None, AwaitTasks))
  }

  function StopTears(s: Edge, m: nat, t: Torn, keys: seq<string>): Edge {
    Doing(s, m, t.ctx, t.acts).(stop :=
      if t.next.Some? then Stopping(keys, Some(m), t.next.value) else Stopping(keys, None, AwaitTasks))
  }

  // ----- Steps ----------------------------------------------------------------

  datatype Step =
    | DialCommand(call: string)
    | DialReturned(failure: Option<string>)
    | CancelCommand(call: string)
    | CancelReturned
    | CallbackCancelled
    | UrcArrived(cause: Option<string>)
    | PollerWoke(m: nat)
    | PollerAnswered(m: nat, answer: A.Answer)
    | PumpPulled(m: nat)
    | PumpEnabled(m: nat, outcome: Enable)
    | PumpJoined(m: nat, joined: bool, pumps: nat)
    | PumpHungUp(m: nat)
    | PumpTorn(m: nat)
    | PumpCancelled(m: nat)
    | AudioEnded(m: nat)
    | StreamClosed(m: nat)
    | StopCalled(keys: seq<string>)
    | StopAdvanced
    | StopTorn
    | StopReturned
    | AtClosed
    | LinkChanged(online: bool)

  predicate PumpAt(s: Edge, m: nat) {
    m in s.ctxs && m in s.at.streams && !s.ctxs[m].cancelled
  }

  predicate Enabled(s: Edge, x: Step) {
    match x
    case DialCommand(_) => s.callback.Quiet?
    case CancelCommand(_) => s.callback.Quiet?
    case DialReturned(_) => s.callback.Dialing? && s.at.dialing.Some?
    case CancelReturned => s.callback.Cancelling?
    case CallbackCancelled => !s.callback.Quiet?
    case UrcArrived(_) => true
    case PollerWoke(m) => A.Enabled(s.at, A.Wake(m))
    case PollerAnswered(m, answer) => A.Enabled(s.at, A.Answered(m, answer))
    case PumpPulled(m) => PumpAt(s, m) && (s.ctxs[m].pump.NotStarted? || s.ctxs[m].pump.Pulling?)
    case PumpEnabled(m, _) => PumpAt(s, m) && s.ctxs[m].pump.Enabling?
    case PumpJoined(m, _, pumps) => PumpAt(s, m) && s.ctxs[m].pump.Joining? && 1 <= pumps <= 2
    case PumpHungUp(m) => PumpAt(s, m) && s.ctxs[m].pump.HangingUp?
    case PumpTorn(m) => PumpAt(s, m) && s.ctxs[m].pump.Down? && (s.ctxs[m].pump.phase.AwaitTasks? ==> TasksDone(s.ctxs[m], true))
    case PumpCancelled(m) => m in s.ctxs && m in s.at.streams && s.ctxs[m].cancelled && !s.ctxs[m].pump.Done?
    case AudioEnded(m) => m in s.ctxs && s.ctxs[m].audio > 0
    case StreamClosed(m) => m in s.ctxs && m in s.at.streams && s.ctxs[m].pump.Done?
    case StopCalled(keys) => s.stop.NoStop? && (set k | k in keys) == s.calls.Keys
    case StopAdvanced =>
      && s.stop.Stopping? && s.stop.current.None? && s.stop.keys != []
      && (s.stop.keys[0] in s.calls ==> s.calls[s.stop.keys[0]] in s.ctxs)
    case StopTorn =>
      && s.stop.Stopping? && s.stop.current.Some? && s.stop.current.value in s.ctxs
      && (s.stop.phase.AwaitTasks? ==> TasksDone(s.ctxs[s.stop.current.value], false))
    case StopReturned => s.stop.Stopping? && s.stop.current.None? && s.stop.keys == []
    case AtClosed => true
    case LinkChanged(_) => true
  }

  function DialStep(s: Edge, call: string): Edge {
    if call in s.calls then Emit(s, Some(s.calls[call]), call, Duplicate)
    else if s.at.active.Some? then Emit(s, None, call, Refused)
    else s.(at := A.DialBegin(s.at), callback := Dialing(call))
  }

  /** dial() returned: the context is registered, acknowledged and its pump created. */
  function DialDone(s: Edge, failure: Option<string>): Edge
    requires s.callback.Dialing? && s.at.dialing.Some?
  {
    var m, call := s.at.dialing.value, s.callback.call;
    var at := if failure.Some? then A.DialFailed(s.at, m, failure.value) else A.DialAccepted(s.at, m);
    Emit(s.(at := at, callback := Quiet, calls := s.calls[call := m], ctxs := s.ctxs[m := NewCtx(call)]),
         Some(m), call, Ack)
  }

  function CancelStep(s: Edge, call: string): Edge {
    if call !in s.calls then s
    else match A.HangupTarget(s.at, s.calls[call])
      case Some(q) =>
        s.(at := A.HangupBegin(s.at, s.calls[call]), callback := Cancelling(A.Hangup(s.calls[call], q)))
      case None => s
  }

  function Apply(s: Edge, x: Step): Edge
    requires Enabled(s, x)
  {
    match x
    case DialCommand(call) => DialStep(s, call)
    case DialReturned(failure) => DialDone(s, failure)
    case CancelCommand(call) => CancelStep(s, call)
    case CancelReturned => s.(at := A.HangupEnd(s.at, s.callback.h), callback := Quiet)
    case CallbackCancelled => s.(at := A.DialAborted(s.at), callback := Quiet)
    case UrcArrived(cause) => s.(at := A.OnUrc(s.at, cause))
    case PollerWoke(m) => s.(at := A.PollWake(s.at, m))
    case PollerAnswered(m, answer) => s.(at := A.PollAnswer(s.at, m, answer))
    case PumpPulled(m) => PumpPull(s, m)
    case PumpEnabled(m, outcome) => PumpEnable(s, m, outcome)
    case PumpJoined(m, joined, pumps) => PumpJoin(s, m, joined, pumps)
    case PumpHungUp(m) => At(s.(at := A.HangupEnd(s.at, s.ctxs[m].pump.h)), m, Pulling)
    case PumpTorn(m) => PumpTears(s, m, TearAfter(s.ctxs[m], s.ctxs[m].pump.phase), s.ctxs[m].pump.after)
    case PumpCancelled(m) => PumpCancel(s, m)
    case AudioEnded(m) => With(s, m, s.ctxs[m].(audio := s.ctxs[m].audio - 1))
    case StreamClosed(m) => s.(at := A.Close(s.at, m))
    case StopCalled(keys) => s.(stop := Stopping(keys, None, AwaitTasks))
    case StopAdvanced => StopNext(s)
    case StopTorn =>
      StopTears(s, s.stop.current.value, TearAfter(s.ctxs[s.stop.current.value], s.stop.phase), s.stop.keys)
    case StopReturned => s.(stop := NoStop)
    case AtClosed => s.(at := A.Aclose(s.at))
    case LinkChanged(online) => s.(online := online)
  }

  predicate Legal(s: Edge, xs: seq<Step>)
    decreases |xs|
  {
    xs == [] || (Enabled(s, xs[0]) && Legal(Apply(s, xs[0]), xs[1..]))
  }

  function Run(s: Edge, xs: seq<Step>): Edge
    requires Legal(s, xs)
    decreases |xs|
  {
    if xs == [] then s else Run(Apply(s, xs[0]), xs[1..])
  }
}
