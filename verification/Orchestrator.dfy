/**
`_CallContext` and `EdgeOrchestrator` as objects: each method is the code between two
suspension points and does to the state exactly what the step of `CallLifecycle` does.
*/
module Orchestrator {
  import opened Options
  import opened SerialAtClient
  import A = AtCalls
  import L = CallLifecycle

  class CallContext {
    const modemCallId: nat
    const callId: string
    var terminated: bool
    var cpcmregEnabled: bool
    var bridge: bool
    var rings: bool        // upstream and downstream
    var recorder: bool
    var pumpInTasks: bool  // `tasks`, as the event pump
    var audioTasks: nat    // ... and the audio pumps that are not done
    var pump: L.Pump       // where the event pump is suspended
    var cancelled: bool    // the event pump has been cancelled

    ghost function Value(): L.Ctx
      reads this
    {
      L.Ctx(callId, terminated, cpcmregEnabled, bridge, rings, recorder, pumpInTasks, audioTasks, pump, cancelled)
    }

    constructor (modemCallId: nat, callId: string)
      ensures this.modemCallId == modemCallId && Value() == L.NewCtx(callId)
    {
      this.modemCallId, this.callId := modemCallId, callId;
      terminated, cpcmregEnabled, bridge, rings, recorder := false, false, false, false, false;
      pumpInTasks, audioTasks, pump, cancelled := true, 0, L.NotStarted, false;
    }

    /** teardown() from its start to its first real wait; `byPump` when the event pump runs it. */
    method Teardown(byPump: bool) returns (acts: seq<L.Act>, next: Option<L.Phase>)
      modifies this
      ensures L.Torn(Value(), acts, next) == L.TearTasks(old(Value()), byPump)
    {
      if !byPump && pumpInTasks && !pump.Done? {
        cancelled := true;
      }
      if audioTasks > 0 || (!byPump && pumpInTasks && !pump.Done?) {
        return [], Some(L.AwaitTasks);
      }
      acts, next := LeaveBridge();
    }

    /** teardown() resumed after the wait it was suspended in. */
    method TeardownResumed(phase: L.Phase) returns (acts: seq<L.Act>, next: Option<L.Phase>)
      modifies this
      ensures L.Torn(Value(), acts, next) == L.TearAfter(old(Value()), phase)
    {
      match phase
      case AwaitTasks => acts, next := LeaveBridge();
      case Leaving => acts, next := AfterLeave();
      case Disabling => acts := CloseRings(); next := None;
    }

    method LeaveBridge() returns (acts: seq<L.Act>, next: Option<L.Phase>)
      modifies this
      ensures L.Torn(Value(), acts, next) == L.TearBridge(old(Value()))
    {
      pumpInTasks := false;
      if bridge {
        return [], Some(L.Leaving);
      }
      acts, next := AfterLeave();
    }

    method AfterLeave() returns (acts: seq<L.Act>, next: Option<L.Phase>)
      modifies this
      ensures L.Torn(Value(), acts, next) == L.TearRest(old(Value()))
    {
      acts := [];
      if bridge {
        bridge := false;
        acts := [L.BridgeLeft];
      }
      if recorder {
        recorder := false;
        acts := acts + [L.Finalized];
      }
      if cpcmregEnabled {
        cpcmregEnabled := false;
        return acts + [L.PcmDisabled], Some(L.Disabling);
      }
      var closed := CloseRings();
      return acts + closed, None;
    }

    method CloseRings() returns (acts: seq<L.Act>)
      modifies this`rings
      ensures L.Torn(Value(), acts, None) == L.TearRings(old(Value()))
    {
      acts := if rings then [L.RingsClosed] else [];
      rings := false;
    }
  }

  /** A teardown's outcome replaces whatever the context held before. */
  lemma TearsForget(s: L.Edge, m: nat, c: L.Ctx, t: L.Torn, after: L.After)
    requires m in s.ctxs
    ensures L.PumpTears(L.With(s, m, c), m, t, after) == L.PumpTears(s, m, t, after)
  {
    hide L.Continue;
    assert s.ctxs[m := c][m := t.ctx] == s.ctxs[m := t.ctx];
  }

  lemma DoingForgets(s: L.Edge, m: nat, c: L.Ctx, d: L.Ctx, acts: seq<L.Act>)
    ensures L.Doing(L.With(s, m, c), m, d, acts) == L.Doing(s, m, d, acts)
  {
    assert s.ctxs[m := c][m := d] == s.ctxs[m := d];
  }

  lemma StopTearsForgets(s: L.Edge, m: nat, c: L.Ctx, t: L.Torn, keys: seq<string>)
    ensures L.StopTears(L.With(s, m, c), m, t, keys) == L.StopTears(s, m, t, keys)
  {
  }

  /** Building the audio path is switching CPCMREG on and then, unless that raises, adding the bridge. */
  lemma AudioPathInTwo(s: L.Edge, m: nat, lit: L.Ctx, recording: bool)
    requires m in s.ctxs && lit == s.ctxs[m].(cpcm := true, recording := recording)
    ensures var on := L.Doing(s, m, lit, L.PathBegun(recording));
      && m in on.ctxs && on.ctxs[m] == lit
      && L.PumpEnable(s, m, L.EnableOk(recording, false)) == L.PumpFinally(on, m)
      && L.PumpEnable(s, m, L.EnableOk(recording, true)) ==
         L.Doing(on, m, lit.(bridge := true, rings := true, pump := L.Joining), [L.BridgeBuilt])
  {
    hide L.PumpFinally, L.HandleHangup;
    var done := lit.(bridge := true, rings := true, pump := L.Joining);
    assert s.ctxs[m := lit][m := done] == s.ctxs[m := done];
    var first := L.PathBegun(recording);
    DeedsJoin(m, first, [L.BridgeBuilt]);
    assert s.deeds + (L.Deeds(m, first) + L.Deeds(m, [L.BridgeBuilt])) == s.deeds + L.Deeds(m, first) + L.Deeds(m, [L.BridgeBuilt]);
  }

  lemma {:induction false} DeedsJoin(m: nat, a: seq<L.Act>, b: seq<L.Act>)
    ensures L.Deeds(m, a + b) == L.Deeds(m, a) + L.Deeds(m, b)
    decreases |a|
  {
    if a == [] {
      assert a + b == b && [] + L.Deeds(m, b) == L.Deeds(m, b);
    } else {
      assert (a + b)[1..] == a[1..] + b;
      DeedsJoin(m, a[1..], b);
    }
  }

  class EdgeOrchestrator {
    const at: SerialATClient
    var calls: map<string, CallContext>
    var callback: L.Callback            // the serial cloud-message callback
    var stopping: L.Stop                // stop()
    var online: bool                    // the uplink is connected
    ghost var contexts: map<nat, CallContext>
    ghost var sent: seq<L.Sent>
    ghost var deeds: seq<L.Deed>

    ghost predicate Valid()
      reads this`contexts, this`calls
    {
      && (forall m :: m in contexts ==> contexts[m].modemCallId == m)
      && (forall k :: k in calls ==> calls[k].modemCallId in contexts && contexts[calls[k].modemCallId] == calls[k])
    }

    ghost predicate Knows(ctx: CallContext)
      reads this`contexts
    {
      ctx.modemCallId in contexts && contexts[ctx.modemCallId] == ctx
    }

    ghost function Registered(): map<string, nat>
      reads this`calls
    {
      map k | k in calls :: calls[k].modemCallId
    }

    ghost function Contexts(): map<nat, L.Ctx>
      reads this`contexts, contexts.Values
    {
      map m | m in contexts :: contexts[m].Value()
    }

    ghost function State(): L.Edge
      reads this, at, contexts.Values
    {
      L.Edge(at.State(), Registered(), Contexts(), callback, stopping, online, sent, deeds)
    }

    constructor ()
      ensures Valid() && fresh(at) && State() == L.BOOT
    {
      at := new SerialATClient();
      calls, callback, stopping, online := map[], L.Quiet, L.NoStop, false;
      contexts, sent, deeds := map[], [], [];
    }

    // ----- Bookkeeping -----------------------------------------------------------

    /** Nothing but ctx changed. */
    twostate lemma OnlyThisContext(ctx: CallContext)
      requires old(Valid()) && old(Knows(ctx)) && contexts == old(contexts)
      requires forall m :: m in contexts && m != ctx.modemCallId ==> contexts[m].Value() == old(contexts[m].Value())
      ensures Contexts() == old(Contexts())[ctx.modemCallId := ctx.Value()]
    {
    }

    ghost method Emit(owner: Option<nat>, call: string, msg: L.Msg)
      requires Valid()
      modifies this`sent
      ensures Valid() && State() == L.Emit(old(State()), owner, call, msg)
    {
      sent := sent + [L.Sent(owner, call, msg)];
    }

    method Pop(callId: string)
      requires Valid()
      modifies this`calls
      ensures Valid() && State() == L.Pop(old(State()), callId)
    {
      calls := calls - {callId};
      assert Registered() == old(Registered()) - {callId};
    }

    method SuspendPump(ctx: CallContext, pump: L.Pump)
      requires Valid() && Knows(ctx)
      modifies ctx`pump
      ensures Valid() && Knows(ctx) && State() == L.At(old(State()), ctx.modemCallId, pump)
    {
      ctx.pump := pump;
      OnlyThisContext(ctx);
    }

    /** self._calls[ctx.call_id] = ctx, for a context nobody knew. */
    method Register(ctx: CallContext)
      requires Valid() && ctx.modemCallId !in contexts
      modifies this`calls, this`contexts
      ensures Valid() && Knows(ctx)
      ensures State() == old(State()).(
                calls := old(Registered())[ctx.callId := ctx.modemCallId],
                ctxs := old(Contexts())[ctx.modemCallId := ctx.Value()])
    {
      contexts := contexts[ctx.modemCallId := ctx];
      calls := calls[ctx.callId := ctx];
      assert Registered() == old(Registered())[ctx.callId := ctx.modemCallId];
      assert Contexts() == old(Contexts())[ctx.modemCallId := ctx.Value()];
    }

    /** Notes what a context did to the audio path; ctx is the only context that changed. */
    ghost method Record(ctx: CallContext, acts: seq<L.Act>)
      requires Valid() && Knows(ctx)
      modifies this`deeds
      ensures Valid() && Knows(ctx) && deeds == old(deeds) + L.Deeds(ctx.modemCallId, acts)
    {
      deeds := deeds + L.Deeds(ctx.modemCallId, acts);
    }

    // ----- Dial and cancel -------------------------------------------------------

    /** _on_dial up to the await of the modem. */
    method OnDial(callId: string)
      requires Valid() && callback.Quiet?
      modifies this, at
      ensures Valid() && State() == L.DialStep(old(State()), callId)
    {
      if callId in calls {
        Emit(Some(calls[callId].modemCallId), callId, L.Duplicate);
        return;
      }
      var modemCallId := at.Dial();
      if modemCallId.None? {
        Emit(None, callId, L.Refused);
      } else {
        callback := L.Dialing(callId);
      }
    }

    /** _on_dial once dial() has returned: the context is registered and its pump created. */
    method DialReturned(failure: Option<string>) returns (ctx: CallContext)
      requires Valid() && callback.Dialing? && at.dialing.Some?
      requires at.dialing.value !in contexts  // call ids are drawn fresh
      modifies this, at
      ensures Valid() && fresh(ctx) && Knows(ctx) && ctx.modemCallId == old(at.dialing.value)
      ensures State() == L.DialDone(old(State()), failure)
    {
      hide A.DialFailed, A.DialAccepted;
      var modemCallId, callId := at.dialing.value, callback.call;
      at.DialReturned(failure);
      callback := L.Quiet;
      ctx := new CallContext(modemCallId, callId);
      assert Contexts() == old(Contexts());
      Register(ctx);
      Emit(Some(modemCallId), callId, L.Ack);
    }

    /** The task running the callback was cancelled. */
    method CallbackCancelled()
      requires Valid() && !callback.Quiet?
      modifies this`callback, at
      ensures Valid() && State() == L.Apply(old(State()), L.CallbackCancelled)
    {
      at.DialCancelled();
      callback := L.Quiet;
    }

    /** _on_cancel up to the await of the modem. */
    method OnCancel(callId: string)
      requires Valid() && callback.Quiet?
      modifies this`callback, at
      ensures Valid() && State() == L.CancelStep(old(State()), callId)
    {
      if callId !in calls {
        return;
      }
      var captured := at.Hangup(calls[callId].modemCallId);
      if captured.Some? {
        callback := L.Cancelling(captured.value);
      }
    }

    /** _on_cancel once hangup() has returned. */
    method CancelReturned()
      requires Valid() && callback.Cancelling?
      modifies this`callback, at
      ensures Valid() && State() == L.Apply(old(State()), L.CancelReturned)
    {
      at.HangupDone(callback.h);
      callback := L.Quiet;
    }

    // ----- The event pump ----------------------------------------------------------

    /** The `finally` of _pump_at_events. */
    method PumpFinally(ctx: CallContext)
      requires Valid() && Knows(ctx)
      modifies this`calls, this`deeds, ctx
      ensures Valid() && Knows(ctx) && State() == L.PumpFinally(old(State()), ctx.modemCallId)
    {
      hide L.TearTasks, L.Doing;
      if ctx.callId in calls {
        ghost var s := L.Pop(State(), ctx.callId);
        Pop(ctx.callId);
        var acts, next := TearDownByPump(ctx);
        DoingForgets(s, ctx.modemCallId, ctx.Value(), ctx.Value().(pump := L.FinalPump(next)), acts);
        Settle(ctx, acts, next);
      } else {
        SuspendPump(ctx, L.Done);
      }
    }

    method TearDownByPump(ctx: CallContext) returns (acts: seq<L.Act>, next: Option<L.Phase>)
      requires Valid() && Knows(ctx)
      modifies ctx
      ensures Valid() && Knows(ctx) && State() == L.With(old(State()), ctx.modemCallId, ctx.Value())
      ensures L.Torn(ctx.Value(), acts, next) == L.TearTasks(old(ctx.Value()), true)
    {
      hide L.TearTasks;
      acts, next := ctx.Teardown(true);
      OnlyThisContext(ctx);
    }

    /** The pump waits in the teardown of its `finally`, or is done. */
    method Settle(ctx: CallContext, acts: seq<L.Act>, next: Option<L.Phase>)
      requires Valid() && Knows(ctx)
      modifies this`deeds, ctx`pump
      ensures Valid() && Knows(ctx)
      ensures State() == L.Doing(old(State()), ctx.modemCallId, old(ctx.Value()).(pump := L.FinalPump(next)), acts)
    {
      ctx.pump := if next.Some? then L.Down(next.value, L.Finish) else L.Done;
      Record(ctx, acts);
      OnlyThisContext(ctx);
    }

    /** What follows a teardown the pump has run to its end. */
    method Continue(ctx: CallContext, after: L.After)
      requires Valid() && Knows(ctx)
      modifies this`calls, this`deeds, at, ctx
      ensures Valid() && Knows(ctx) && State() == L.Continue(old(State()), ctx.modemCallId, after)
    {
      match after
      case Resume => SuspendPump(ctx, L.Pulling);
      case Return => PumpFinally(ctx);
      case HangUp =>
        var captured := at.Hangup(ctx.modemCallId);
        SuspendPump(ctx, if captured.Some? then L.HangingUp(captured.value) else L.Pulling);
      case Finish => SuspendPump(ctx, L.Done);
    }

    /** The pump has run a teardown of ctx up to `next`: it waits there, or goes on. */
    method AfterTeardown(ctx: CallContext, acts: seq<L.Act>, next: Option<L.Phase>, after: L.After)
      requires Valid() && Knows(ctx)
      modifies this`calls, this`deeds, at, ctx
      ensures Valid() && Knows(ctx)
      ensures State() == L.PumpTears(old(State()), ctx.modemCallId, L.Torn(old(ctx.Value()), acts, next), after)
    {
      hide L.Continue;
      Record(ctx, acts);
      OnlyThisContext(ctx);
      if next.Some? {
        SuspendPump(ctx, L.Down(next.value, after));
      } else {
        Continue(ctx, after);
      }
    }

    method TerminateAndTearDown(ctx: CallContext) returns (acts: seq<L.Act>, next: Option<L.Phase>)
      requires Valid() && Knows(ctx)
      modifies ctx
      ensures Valid() && Knows(ctx) && State() == L.With(old(State()), ctx.modemCallId, ctx.Value())
      ensures L.Torn(ctx.Value(), acts, next) == L.TearTasks(old(ctx.Value()).(terminated := true), true)
    {
      hide L.TearTasks;
      ctx.terminated := true;
      acts, next := ctx.Teardown(true);
      OnlyThisContext(ctx);
    }

    method ResumeTearDown(ctx: CallContext, phase: L.Phase) returns (acts: seq<L.Act>, next: Option<L.Phase>)
      requires Valid() && Knows(ctx)
      modifies ctx
      ensures Valid() && Knows(ctx) && State() == L.With(old(State()), ctx.modemCallId, ctx.Value())
      ensures L.Torn(ctx.Value(), acts, next) == L.TearAfter(old(ctx.Value()), phase)
    {
      hide L.TearAfter;
      acts, next := ctx.TeardownResumed(phase);
      OnlyThisContext(ctx);
    }

    /** _handle_remote_hangup. */
    method HandleRemoteHangup(ctx: CallContext, after: L.After)
      requires Valid() && Knows(ctx)
      modifies this`calls, this`deeds, this`sent, at, ctx
      ensures Valid() && Knows(ctx) && State() == L.HandleHangup(old(State()), ctx.modemCallId, after)
    {
      hide L.Continue, L.TearTasks, L.PumpTears;
      if ctx.terminated {
        Continue(ctx, after);
        return;
      }
      ghost var m := ctx.modemCallId;
      ghost var s := L.Pop(L.Emit(State(), Some(m), ctx.callId, L.HangupEvent), ctx.callId);
      Emit(Some(ctx.modemCallId), ctx.callId, L.HangupEvent);
      Pop(ctx.callId);
      var acts, next := TerminateAndTearDown(ctx);
      TearsForget(s, m, ctx.Value(), L.Torn(ctx.Value(), acts, next), after);
      AfterTeardown(ctx, acts, next, after);
    }

    /** One turn of the pump's `async for`. */
    method PumpPulled(ctx: CallContext)
      requires Valid() && Knows(ctx) && ctx.modemCallId in at.streams
      modifies this`calls, this`deeds, this`sent, at, ctx
      ensures Valid() && Knows(ctx) && State() == L.PumpPull(old(State()), ctx.modemCallId)
    {
      hide A.Pull, L.HandleHangup, L.PumpFinally;
      var r := at.Next(ctx.modemCallId);
      match r
      case Blocked => SuspendPump(ctx, L.Pulling);
      case End => PumpFinally(ctx);
      case Yield(ev) =>
        if ev.Connected? {
          Emit(Some(ctx.modemCallId), ctx.callId, L.ConnectedEvent);
          SuspendPump(ctx, L.Enabling);
        } else {
          HandleRemoteHangup(ctx, L.Return);
        }
    }

    /** _handle_connected from the answer to CPCMREG up to the RTC join. */
    method PumpEnabled(ctx: CallContext, outcome: L.Enable)
      requires Valid() && Knows(ctx)
      modifies this`calls, this`deeds, this`sent, at, ctx
      ensures Valid() && Knows(ctx) && State() == L.PumpEnable(old(State()), ctx.modemCallId, outcome)
    {
      hide L.HandleHangup, L.PumpFinally;
      match outcome
      case EnableRefused =>
        if online {
          Emit(Some(ctx.modemCallId), ctx.callId, L.Alert);
          HandleRemoteHangup(ctx, L.HangUp);
        } else {
          PumpFinally(ctx);
        }
      case EnableCrashed => PumpFinally(ctx);
      case EnableOk(recording, built) => AudioPath(ctx, recording, built);
    }

    /** CPCMREG is on: rings, recorder and bridge, unless building them raises. */
    method AudioPath(ctx: CallContext, recording: bool, built: bool)
      requires Valid() && Knows(ctx)
      modifies this`calls, this`deeds, ctx
      ensures Valid() && Knows(ctx)
      ensures State() == L.PumpEnable(old(State()), ctx.modemCallId, L.EnableOk(recording, built))
    {
      hide L.PumpEnable, L.PumpFinally, L.HandleHangup, L.Doing;
      ghost var lit := ctx.Value().(cpcm := true, recording := recording);
      AudioPathInTwo(State(), ctx.modemCallId, lit, recording);
      CpcmregOn(ctx, recording);
      if built {
        BridgeBuilt(ctx);
      } else {
        PumpFinally(ctx);
      }
    }

    method CpcmregOn(ctx: CallContext, recording: bool)
      requires Valid() && Knows(ctx)
      modifies this`deeds, ctx
      ensures Valid() && Knows(ctx)
      ensures State() == L.Doing(old(State()), ctx.modemCallId,
                                 old(ctx.Value()).(cpcm := true, recording := recording), L.PathBegun(recording))
    {
      ctx.cpcmregEnabled := true;
      ctx.recorder := recording;
      Record(ctx, L.PathBegun(recording));
      OnlyThisContext(ctx);
    }

    method BridgeBuilt(ctx: CallContext)
      requires Valid() && Knows(ctx)
      modifies this`deeds, ctx
      ensures Valid() && Knows(ctx)
      ensures State() == L.Doing(old(State()), ctx.modemCallId,
                                 old(ctx.Value()).(bridge := true, rings := true, pump := L.Joining), [L.BridgeBuilt])
    {
      ctx.rings := true;
      ctx.bridge := true;
      ctx.pump := L.Joining;
      Record(ctx, [L.BridgeBuilt]);
      OnlyThisContext(ctx);
    }

    /** _handle_connected from the outcome of the RTC join. */
    method PumpJoined(ctx: CallContext, joined: bool, pumps: nat)
      requires Valid() && Knows(ctx)
      modifies this`calls, this`deeds, this`sent, at, ctx
      ensures Valid() && Knows(ctx) && State() == L.PumpJoin(old(State()), ctx.modemCallId, joined, pumps)
    {
      hide L.HandleHangup;
      if joined {
        ctx.audioTasks := pumps;
        ctx.pump := L.Pulling;
        Record(ctx, [L.AudioStarted]);
        OnlyThisContext(ctx);
      } else {
        HandleRemoteHangup(ctx, L.Resume);
      }
    }

    /** The modem hangup after a CPCMREG failure has returned. */
    method PumpHungUp(ctx: CallContext)
      requires Valid() && Knows(ctx) && L.Enabled(State(), L.PumpHungUp(ctx.modemCallId))
      modifies at, ctx`pump
      ensures Valid() && Knows(ctx) && State() == L.Apply(old(State()), L.PumpHungUp(ctx.modemCallId))
    {
      at.HangupDone(ctx.pump.h);
      SuspendPump(ctx, L.Pulling);
    }

    /** The wait the pump's teardown was suspended in is over. */
    method PumpTorn(ctx: CallContext)
      requires Valid() && Knows(ctx) && ctx.pump.Down?
      modifies this`calls, this`deeds, at, ctx
      ensures Valid() && Knows(ctx)
      ensures State() == L.PumpTears(old(State()), ctx.modemCallId,
                                     L.TearAfter(old(ctx.Value()), old(ctx.pump.phase)), old(ctx.pump.after))
    {
      hide L.Continue, L.TearAfter, L.PumpTears;
      var after := ctx.pump.after;
      var acts, next := ResumeTearDown(ctx, ctx.pump.phase);
      TearsForget(old(State()), ctx.modemCallId, ctx.Value(), L.Torn(ctx.Value(), acts, next), after);
      AfterTeardown(ctx, acts, next, after);
    }

    /** CancelledError is thrown into the pump where it is suspended. */
    method PumpCancelled(ctx: CallContext)
      requires Valid() && Knows(ctx) && ctx.modemCallId in at.streams
      modifies this`calls, this`deeds, at, ctx
      ensures Valid() && Knows(ctx) && State() == L.PumpCancel(old(State()), ctx.modemCallId)
    {
      hide A.Close, L.PumpFinally;
      match ctx.pump {
        case NotStarted => SuspendPump(ctx, L.Done);
        case Pulling =>
          at.CloseStream(ctx.modemCallId);
          PumpFinally(ctx);
        case Down(_, Finish) => SuspendPump(ctx, L.Done);
        case _ => PumpFinally(ctx);
      }
    }

    /** An audio pump of ctx has ended. */
    method AudioEnded(ctx: CallContext)
      requires Valid() && Knows(ctx) && ctx.audioTasks > 0
      modifies ctx`audioTasks
      ensures Valid() && Knows(ctx) && ctx.Value() == old(ctx.Value()).(audio := old(ctx.audioTasks) - 1)
      ensures State() == L.With(old(State()), ctx.modemCallId, ctx.Value())
    {
      ctx.audioTasks := ctx.audioTasks - 1;
      OnlyThisContext(ctx);
    }

    // ----- stop() --------------------------------------------------------------------

    /** stop() up to its loop: the snapshot of the keys, in whatever order. */
    method StopBegin() returns (keys: seq<string>)
      requires Valid() && stopping.NoStop?
      modifies this`stopping
      ensures Valid() && State().calls == old(State()).calls
      ensures L.Enabled(old(State()), L.StopCalled(keys)) && State() == L.Apply(old(State()), L.StopCalled(keys))
    {
      keys := [];
      var rest := calls.Keys;
      while rest != {}
        invariant rest <= calls.Keys && forall k :: k in keys <==> k in calls.Keys - rest
        decreases |rest|
      {
        var k :| k in rest;
        rest := rest - {k};
        keys := keys + [k];
      }
      assert (set k | k in keys) == Registered().Keys;
      stopping := L.Stopping(keys, None, L.AwaitTasks);
    }

    /** stop() pops the next call of its snapshot and starts tearing it down. */
    method StopNext()
      requires Valid() && stopping.Stopping? && stopping.keys != []
      modifies this`calls, this`deeds, this`stopping, contexts.Values
      ensures Valid()
      ensures State() == L.StopNext(old(State()))
    {
      hide L.TearTasks, L.StopTears;
      var callId, rest := stopping.keys[0], stopping.keys[1..];
      if callId in calls {
        StopOne(calls[callId], callId, rest);
      } else {
        stopping := L.Stopping(rest, None, L.AwaitTasks);
      }
    }

    method StopOne(ctx: CallContext, callId: string, rest: seq<string>)
      requires Valid() && Knows(ctx)
      modifies this`calls, this`deeds, this`stopping, ctx
      ensures Valid()
      ensures State() == L.StopTears(L.Pop(old(State()), callId), ctx.modemCallId, L.TearTasks(old(ctx.Value()), false), rest)
    {
      hide L.TearTasks, L.StopTears;
      ghost var s := L.Pop(State(), callId);
      Pop(callId);
      var acts, next := ctx.Teardown(false);
      OnlyThisContext(ctx);
      StopTearsForgets(s, ctx.modemCallId, ctx.Value(), L.Torn(ctx.Value(), acts, next), rest);
      StopTears(ctx, acts, next, rest);
    }

    method StopTears(ctx: CallContext, acts: seq<L.Act>, next: Option<L.Phase>, keys: seq<string>)
      requires Valid() && Knows(ctx)
      modifies this`deeds, this`stopping
      ensures Valid()
      ensures State() == L.StopTears(old(State()), ctx.modemCallId, L.Torn(ctx.Value(), acts, next), keys)
    {
      Record(ctx, acts);
      stopping := if next.Some? then L.Stopping(keys, Some(ctx.modemCallId), next.value) else L.Stopping(keys, None, L.AwaitTasks);
      assert Contexts() == old(Contexts())[ctx.modemCallId := ctx.Value()];
    }

    /** The wait stop()'s teardown was suspended in is over. */
    method StopTorn(ctx: CallContext)
      requires Valid() && Knows(ctx) && stopping.Stopping? && stopping.current == Some(ctx.modemCallId)
      modifies this`deeds, this`stopping, ctx
      ensures Valid()
      ensures State() == L.StopTears(old(State()), ctx.modemCallId,
                                     L.TearAfter(old(ctx.Value()), old(stopping.phase)), old(stopping.keys))
    {
      hide L.TearAfter, L.StopTears;
      var acts, next := ResumeTearDown(ctx, stopping.phase);
      StopTearsForgets(old(State()), ctx.modemCallId, ctx.Value(), L.Torn(ctx.Value(), acts, next), stopping.keys);
      StopTears(ctx, acts, next, stopping.keys);
    }
  }
}
