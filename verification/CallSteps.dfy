/**
What each step of the call lifecycle does, as the cloud, the modem and the audio path see
it, in every state a run can reach.
*/
module CallSteps {
  import opened Options
  import opened CallLifecycle
  import opened CallSafety
  import opened CallTheorems
  import A = AtCalls
  import O = CallOrigins

  // ----- Commands -------------------------------------------------------------------

  /**
  A dial command for a registered call is acknowledged as a duplicate, one that finds the
  modem busy is refused, and any other takes the modem; nothing else changes.
  */
  lemma DialCommandOutcome(xs: seq<Step>, call: string)
    requires Legal(BOOT, xs) && Run(BOOT, xs).callback.Quiet?
    ensures var s := Run(BOOT, xs); var t := Apply(s, DialCommand(call));
      if call in s.calls then t == s.(sent := s.sent + [Sent(Some(s.calls[call]), call, Duplicate)])
      else if s.at.active.Some? then t == s.(sent := s.sent + [Sent(None, call, Refused)])
      else t == s.(at := t.at, callback := Dialing(call)) && t.at.active == t.at.dialing == Some(s.at.next)
  {
    hide Run, Legal, Inv;
    RunFromBoot(xs);
  }

  /**
  When dial() returns, successful or not, the call is registered under a new context that
  has done nothing yet, with its pump among its tasks, and acknowledged once.
  */
  lemma DialReturnOutcome(xs: seq<Step>, failure: Option<string>)
    requires Legal(BOOT, xs) && Enabled(Run(BOOT, xs), DialReturned(failure))
    ensures var s := Run(BOOT, xs); var t := Apply(s, DialReturned(failure));
      var m, call := s.at.dialing.value, s.callback.call;
      && call !in s.calls && m !in s.ctxs
      && t.calls == s.calls[call := m] && t.ctxs.Keys == s.ctxs.Keys + {m}
      && (forall k :: k in s.ctxs ==> t.ctxs[k] == s.ctxs[k])
      && t.ctxs[m].call == call && Idle(t.ctxs[m]) && t.ctxs[m].tracked && t.ctxs[m].pump.NotStarted?
      && !t.ctxs[m].terminated && !t.ctxs[m].cancelled
      && t.sent == s.sent + [Sent(Some(m), call, Ack)] && t.callback.Quiet? && t.deeds == s.deeds
      && t.at == A.Apply(s.at, if failure.Some? then A.DialFail(failure.value) else A.DialOk)
  {
    hide Run, Legal, A.Inv, A.DialFailed, A.DialAccepted;
    RunFromBoot(xs);
    var s := Run(BOOT, xs);
    forall k | k in s.ctxs ensures k != s.at.dialing.value { assert CtxOk(s, k); StreamIsNotDialed(s.at, k); }
  }

  lemma StreamIsNotDialed(a: A.At, k: nat)
    requires A.Inv(a) && k in a.streams && a.dialing.Some?
    ensures k != a.dialing.value
  {
  }

  /**
  A cancel of a registered call that has the modem hangs the modem up: it captures that
  call's queue, and on its return puts a manual_hangup of that call at its end. A cancel
  of any other call changes nothing.
  */
  lemma CancelOutcome(xs: seq<Step>, call: string)
    requires Legal(BOOT, xs) && Run(BOOT, xs).callback.Quiet?
    ensures var s := Run(BOOT, xs); var t := Apply(s, CancelCommand(call));
      if call in s.calls && s.at.active == Some(s.calls[call]) then
        var h := A.Hangup(s.calls[call], s.calls[call]);
        && t == s.(at := s.at.(hangups := s.at.hangups + {h}), callback := Cancelling(h))
        && Enabled(t, CancelReturned)
        && var u := Apply(t, CancelReturned);
           u == t.(at := u.at, callback := Quiet)
           && O.Queued(t.at, u.at, s.calls[call], A.Event(A.RemoteHangup(s.calls[call], "manual_hangup")))
      else t == s
  {
    hide Run, Legal, Inv;
    RunFromBoot(xs);
    var s := Run(BOOT, xs);
    QueueIsActive(s);
  }

  lemma QueueIsActive(s: Edge)
    requires Inv(s)
    ensures s.at.queue == s.at.active
  {
  }

  /** However long the modem takes, a hangup that returns puts one manual_hangup at the end of its own call's queue. */
  lemma HangupReturns(xs: seq<Step>, x: Step)
    requires Legal(BOOT, xs) && Enabled(Run(BOOT, xs), x) && (x.CancelReturned? || x.PumpHungUp?)
    ensures var s := Run(BOOT, xs); var t := Apply(s, x);
      var h := if x.CancelReturned? then s.callback.h else s.ctxs[x.m].pump.h;
      && O.Queued(s.at, t.at, h.call, A.Event(A.RemoteHangup(h.call, "manual_hangup")))
      && t.sent == s.sent && t.calls == s.calls
      && (x.CancelReturned? ==> t.callback.Quiet? && t.ctxs == s.ctxs)
      && (x.PumpHungUp? ==> h.call == x.m && t.ctxs == s.ctxs[x.m := s.ctxs[x.m].(pump := Pulling)])
  {
    hide Run, Legal, A.Inv, Fits, PowerOn, VerdictOn, O.Queued, A.HangupEnd;
    RunFromBoot(xs);
    var s := Run(BOOT, xs);
    HangupsAreOwn(s.at);
    if x.PumpHungUp? {
      HungUpIsOwn(s, x.m);
      HangupEndIsQueued(s.at, s.ctxs[x.m].pump.h);
    } else {
      HangupEndIsQueued(s.at, s.callback.h);
    }
  }

  lemma HungUpIsOwn(s: Edge, m: nat)
    requires Inv(s) && m in s.ctxs && s.ctxs[m].pump.HangingUp?
    ensures s.ctxs[m].pump.h == A.Hangup(m, m)
  {
    hide A.Inv, Others;
    assert CtxOk(s, m);
  }

  lemma HangupEndIsQueued(a: A.At, h: A.Hangup)
    requires h.queue == h.call
    ensures O.Queued(a, A.HangupEnd(a, h), h.call, A.Event(A.RemoteHangup(h.call, "manual_hangup")))
  {
  }

  lemma HangupsAreOwn(a: A.At)
    requires A.Inv(a)
    ensures forall h :: h in a.hangups ==> h.queue == h.call
  {
  }

  // ----- The pump ----------------------------------------------------------------------

  /** m is reported as hung up, once, and unregistered. */
  predicate Reported(s: Edge, t: Edge, m: nat)
    requires m in s.ctxs
  {
    && t.sent == s.sent + [Sent(Some(m), s.ctxs[m].call, HangupEvent)]
    && s.ctxs[m].call !in t.calls && m in t.ctxs && t.ctxs[m].terminated
  }

  /** m is unregistered without a word. */
  predicate Discarded(s: Edge, t: Edge, m: nat)
    requires m in s.ctxs
  {
    t.sent == s.sent && s.ctxs[m].call !in t.calls && m in t.ctxs && !t.ctxs[m].terminated
  }

  lemma FinallyDiscards(s: Edge, m: nat)
    requires m in s.ctxs
    ensures var t := PumpFinally(s, m);
      t.sent == s.sent && s.ctxs[m].call !in t.calls && m in t.ctxs && t.ctxs[m].terminated == s.ctxs[m].terminated
  {
    hide TearTasks;
    TearKeepsIdentity(s.ctxs[m], true, AwaitTasks);
  }

  lemma ContinueSaysNothing(s: Edge, m: nat, after: After)
    requires m in s.ctxs
    ensures var t := Continue(s, m, after);
      && t.sent == s.sent && m in t.ctxs && t.ctxs[m].terminated == s.ctxs[m].terminated
      && (s.ctxs[m].call !in s.calls ==> s.ctxs[m].call !in t.calls)
  {
    hide PumpFinally;
    if after.Return? { FinallyDiscards(s, m); }
  }

  lemma TearsSayNothing(s: Edge, m: nat, t: Torn, after: After)
    requires m in s.ctxs && t.ctx.call == s.ctxs[m].call && t.ctx.call !in s.calls
    ensures var u := PumpTears(s, m, t, after);
      u.sent == s.sent && m in u.ctxs && u.ctxs[m].terminated == t.ctx.terminated && t.ctx.call !in u.calls
  {
    hide Continue;
    ContinueSaysNothing(Doing(s, m, t.ctx, t.acts), m, after);
  }

  lemma HangupReports(s: Edge, m: nat, after: After)
    requires m in s.ctxs && !s.ctxs[m].terminated
    ensures Reported(s, HandleHangup(s, m, after), m)
  {
    hide PumpTears, TearTasks;
    var c := s.ctxs[m].(terminated := true);
    TearKeepsIdentity(c, true, AwaitTasks);
    TearsSayNothing(Pop(Emit(s, Some(m), c.call, HangupEvent), c.call), m, TearTasks(c, true), after);
  }

  lemma PumpsAreKnown(s: Edge, m: nat)
    requires Inv(s) && m in s.ctxs
    ensures m in s.at.streams
    ensures s.ctxs[m].terminated && s.ctxs[m].pump.Pulling? ==> s.at.streams[m] == A.Open(m, true)
    ensures (s.ctxs[m].pump.Enabling? || s.ctxs[m].pump.Joining?) && !s.ctxs[m].cancelled ==> !s.ctxs[m].terminated
    ensures s.ctxs[m].pump.NotStarted? ==> !s.ctxs[m].terminated
  {
    hide A.Inv;
    assert CtxOk(s, m);
  }

  lemma SecondHangupSaysNothing(s: Edge, m: nat)
    requires m in s.ctxs && s.ctxs[m].terminated
    ensures HandleHangup(s, m, Return).sent == s.sent
  {
    FinallyDiscards(s, m);
  }

  /**
  A connected is reported and answered with CPCMREG; a remote_hangup is reported and the
  call unregistered, unless it has been; at the end of the stream the call is dropped;
  otherwise the pump waits on.
  */
  lemma PumpPulledOutcome(xs: seq<Step>, m: nat)
    requires Legal(BOOT, xs) && Enabled(Run(BOOT, xs), PumpPulled(m))
    ensures var s := Run(BOOT, xs); var t := Apply(s, PumpPulled(m)); var (at, r) := A.Pull(s.at, m);
      match r
      case Blocked => t == s.(at := at, ctxs := s.ctxs[m := s.ctxs[m].(pump := Pulling)])
      case Yield(Connected(_)) =>
        t == s.(at := at, ctxs := s.ctxs[m := s.ctxs[m].(pump := Enabling)],
                sent := s.sent + [Sent(Some(m), s.ctxs[m].call, ConnectedEvent)])
      case Yield(RemoteHangup(_, _)) => if s.ctxs[m].terminated then t.sent == s.sent else Reported(s, t, m)
      case End => t.sent == s.sent && s.ctxs[m].call !in t.calls
  {
    hide Run, Legal, Inv, A.Pull, HandleHangup, PumpFinally;
    var s := Run(BOOT, xs);
    var u := s.(at := A.Pull(s.at, m).0);
    FinallyDiscards(u, m);
    if s.ctxs[m].terminated { SecondHangupSaysNothing(u, m); } else { HangupReports(u, m, Return); }
  }

  /**
  CPCMREG refused while the uplink is up: an alert, then the hangup, and the call is
  unregistered. Refused while it is down, or raising: the call is dropped without a word.
  Accepted: enabled, recorded if a recorder was begun, and bridged, unless that raises.
  */
  lemma PumpEnabledOutcome(xs: seq<Step>, m: nat, outcome: Enable)
    requires Legal(BOOT, xs) && Enabled(Run(BOOT, xs), PumpEnabled(m, outcome))
    ensures var s := Run(BOOT, xs); var t := Apply(s, PumpEnabled(m, outcome)); var c := s.ctxs[m];
      match outcome
      case EnableRefused =>
        if s.online then Reported(s.(sent := s.sent + [Sent(Some(m), c.call, Alert)]), t, m) else Discarded(s, t, m)
      case EnableCrashed => Discarded(s, t, m)
      case EnableOk(recording, built) =>
        if built then
          && t == s.(ctxs := t.ctxs, deeds := t.deeds)
          && t.ctxs == s.ctxs[m := c.(cpcm := true, recording := recording, bridge := true, rings := true, pump := Joining)]
          && t.deeds == s.deeds + Deeds(m, [PcmEnabled] + (if recording then [RecordingBegun] else []) + [BridgeBuilt])
        else Discarded(s, t, m)
  {
    hide Run, Legal, Inv, HandleHangup, PumpFinally;
    RunFromBoot(xs);
    var s := Run(BOOT, xs);
    var c := s.ctxs[m];
    PumpsAreKnown(s, m);
    FinallyDiscards(s, m);
    HangupReports(Emit(s, Some(m), c.call, Alert), m, HangUp);
    if outcome.EnableOk? {
      FinallyDiscards(Doing(s, m, c.(cpcm := true, recording := outcome.recording), PathBegun(outcome.recording)), m);
      assert PathBegun(outcome.recording) + [BridgeBuilt] ==
             [PcmEnabled] + (if outcome.recording then [RecordingBegun] else []) + [BridgeBuilt];
    }
  }

  /** A successful join starts the audio pumps and goes back to the stream; a failed one is reported as a hangup. */
  lemma PumpJoinedOutcome(xs: seq<Step>, m: nat, joined: bool, pumps: nat)
    requires Legal(BOOT, xs) && Enabled(Run(BOOT, xs), PumpJoined(m, joined, pumps))
    ensures var s := Run(BOOT, xs); var t := Apply(s, PumpJoined(m, joined, pumps));
      if joined then
        && t == s.(ctxs := s.ctxs[m := s.ctxs[m].(audio := pumps, pump := Pulling)], deeds := s.deeds + [Deed(m, AudioStarted)])
        && pumps >= 1
      else Reported(s, t, m)
  {
    hide Run, Legal, Inv, HandleHangup;
    RunFromBoot(xs);
    var s := Run(BOOT, xs);
    PumpsAreKnown(s, m);
    HangupReports(s, m, Resume);
    assert Deeds(m, [AudioStarted]) == [Deed(m, AudioStarted)] + Deeds(m, []);
  }

  /**
  A cancelled pump is over at once: one that had not started runs nothing at all, one
  waiting on its stream closes it and gives the modem back; nothing is said, and nothing
  registered is touched.
  */
  lemma PumpCancelledOutcome(xs: seq<Step>, m: nat)
    requires Legal(BOOT, xs) && Enabled(Run(BOOT, xs), PumpCancelled(m))
    ensures var s := Run(BOOT, xs); var t := Apply(s, PumpCancelled(m));
      && t == s.(at := t.at, ctxs := s.ctxs[m := s.ctxs[m].(pump := Done)])
      && (if s.ctxs[m].pump.Pulling? then t.at.active.None? && t.at.streams == s.at.streams[m := A.Ended] else t.at == s.at)
  {
    hide Run, Legal, A.Inv;
    RunFromBoot(xs);
    var s := Run(BOOT, xs);
    CancelledIsUnregistered(s, m);
    if s.ctxs[m].pump.Pulling? { PumpOwnsModem(s, m); }
  }

  lemma CancelledIsUnregistered(s: Edge, m: nat)
    requires Inv(s) && Enabled(s, PumpCancelled(m))
    ensures s.ctxs[m].pump.NotStarted? || s.ctxs[m].call !in s.calls
    ensures !s.ctxs[m].pump.Down? && !s.ctxs[m].pump.HangingUp? && (s.ctxs[m].pump.Pulling? ==> s.at.streams[m].Open?)
  {
    hide A.Inv, Others;
    assert CtxOk(s, m);
    if !s.ctxs[m].pump.NotStarted? && !s.ctxs[m].pump.Down? { PumpOwnsModem(s, m); }
  }

  // ----- Teardown ----------------------------------------------------------------------

  /** What a teardown suspended in `phase` does when it resumes: bridge, recording, CPCMREG, rings, in that order. */
  function DoneIn(c: Ctx, phase: Phase): seq<Act> {
    match phase
    case AwaitTasks => []
    case Leaving => [BridgeLeft] + (if c.recording then [Finalized] else []) + [PcmDisabled]
    case Disabling => if c.rings then [RingsClosed] else []
  }

  /** Where it is suspended then, if it has not run to its end. */
  function NextIn(c: Ctx, phase: Phase): Option<Phase> {
    match phase
    case AwaitTasks => if c.bridge then Some(Leaving) else None
    case Leaving => Some(Disabling)
    case Disabling => None
  }

  lemma ResumedTeardown(c: Ctx, phase: Phase, power: Power)
    requires Held(c, Some(phase), power) && (phase.AwaitTasks? ==> c.audio == 0)
    ensures var t := TearAfter(c, phase);
      && t.acts == DoneIn(c, phase) && t.next == NextIn(c, phase)
      && (if t.next == Some(Leaving) then t.ctx == c.(tracked := false)
          else if t.next == Some(Disabling) then t.ctx == c.(bridge := false, recording := false, cpcm := false)
          else t.ctx == c.(rings := false, tracked := false))
  {
    assert [BridgeLeft] + [] + [PcmDisabled] == [BridgeLeft] + [PcmDisabled];
  }

  lemma TearingDown(s: Edge, m: nat)
    requires Inv(s) && m in s.ctxs && s.ctxs[m].pump.Down?
    ensures Held(s.ctxs[m], Some(s.ctxs[m].pump.phase), PowerOn(s.deeds, m))
  {
    hide A.Inv, Others, PowerOn, VerdictOn;
    assert CtxOk(s, m);
  }

  /** The finally of a pump whose teardown is over does nothing more to the audio path. */
  lemma FinallyRests(s: Edge, m: nat)
    requires m in s.ctxs && Idle(s.ctxs[m]) && !s.ctxs[m].tracked
    ensures var t := PumpFinally(s, m);
      t.deeds == s.deeds && t.sent == s.sent && m in t.ctxs && t.ctxs[m] == s.ctxs[m].(pump := Done)
  {
    hide TearTasks;
    NothingLeftToTear(s.ctxs[m], true);
    assert s.deeds + Deeds(m, []) == s.deeds;
  }

  lemma ContinueRests(s: Edge, m: nat, after: After)
    requires m in s.ctxs && Idle(s.ctxs[m]) && !s.ctxs[m].tracked
    ensures var t := Continue(s, m, after);
      t.deeds == s.deeds && t.sent == s.sent && m in t.ctxs && t.ctxs[m] == s.ctxs[m].(pump := t.ctxs[m].pump) && !t.ctxs[m].pump.Down?
  {
    hide PumpFinally, A.HangupBegin;
    if after.Return? { FinallyRests(s, m); }
  }

  lemma EndsIdle(c: Ctx, phase: Phase, power: Power)
    requires Held(c, Some(phase), power) && (phase.AwaitTasks? ==> c.audio == 0)
    ensures NextIn(c, phase).None? ==> Idle(c.(rings := false, tracked := false))
  {
  }

  /** A teardown of a pump goes on in order, one await at a time, and says nothing; at its end nothing is left on. */
  lemma PumpTornOutcome(xs: seq<Step>, m: nat)
    requires Legal(BOOT, xs) && Enabled(Run(BOOT, xs), PumpTorn(m))
    ensures var s := Run(BOOT, xs); var t := Apply(s, PumpTorn(m)); var c := s.ctxs[m]; var next := NextIn(c, c.pump.phase);
      && t.sent == s.sent && t.deeds == s.deeds + Deeds(m, DoneIn(c, c.pump.phase)) && m in t.ctxs
      && (next.Some? ==> t.ctxs[m].pump == Down(next.value, c.pump.after) && t.calls == s.calls && t.at == s.at)
      && (next.None? ==> !t.ctxs[m].pump.Down? && Idle(t.ctxs[m]))
  {
    hide Run, Legal, Inv, DoneIn, Held, Continue, TearAfter, Deeds, PowerOn;
    RunFromBoot(xs);
    var s := Run(BOOT, xs);
    var c := s.ctxs[m];
    TearingDown(s, m);
    ResumedTeardown(c, c.pump.phase, PowerOn(s.deeds, m));
    EndsIdle(c, c.pump.phase, PowerOn(s.deeds, m));
    var t := TearAfter(c, c.pump.phase);
    if t.next.None? { ContinueRests(Doing(s, m, t.ctx, t.acts), m, c.pump.after); }
  }

  lemma StopTearsDown(s: Edge)
    requires Inv(s) && Enabled(s, StopTorn)
    ensures Held(s.ctxs[s.stop.current.value], Some(s.stop.phase), PowerOn(s.deeds, s.stop.current.value))
  {
    hide A.Inv, Others, PowerOn, VerdictOn, StreamFits;
    assert CtxOk(s, s.stop.current.value);
  }

  /** The teardown of stop() goes on in the same order. */
  lemma StopTornOutcome(xs: seq<Step>)
    requires Legal(BOOT, xs) && Enabled(Run(BOOT, xs), StopTorn)
    ensures var s := Run(BOOT, xs); var t := Apply(s, StopTorn); var m := s.stop.current.value;
      var c := s.ctxs[m]; var next := NextIn(c, s.stop.phase);
      && t == s.(ctxs := t.ctxs, deeds := s.deeds + Deeds(m, DoneIn(c, s.stop.phase)), stop := t.stop)
      && t.ctxs.Keys == s.ctxs.Keys && (forall k :: k in s.ctxs && k != m ==> t.ctxs[k] == s.ctxs[k])
      && (if next.Some? then t.stop == s.stop.(phase := next.value)
          else t.stop == Stopping(s.stop.keys, None, AwaitTasks) && Idle(t.ctxs[m]))
  {
    hide Run, Legal, Inv, DoneIn, Held, TearAfter, Deeds, PowerOn;
    RunFromBoot(xs);
    var s := Run(BOOT, xs);
    var m := s.stop.current.value;
    StopTearsDown(s);
    ResumedTeardown(s.ctxs[m], s.stop.phase, PowerOn(s.deeds, m));
    EndsIdle(s.ctxs[m], s.stop.phase, PowerOn(s.deeds, m));
  }

  // ----- stop() ----------------------------------------------------------------------------

  lemma RegisteredIsRunning(s: Edge, k: string)
    requires Inv(s) && k in s.calls
    ensures s.calls[k] in s.ctxs
    ensures var c := s.ctxs[s.calls[k]]; c.tracked && !c.cancelled && !c.pump.Done? && !c.pump.Down?
  {
    hide A.Inv, Others, PowerOn, VerdictOn, StreamFits, AudioOk;
    assert CtxOk(s, s.calls[k]);
  }

  /**
  stop() takes the next key: a registered call is unregistered without a word, its pump is
  cancelled, and stop() waits for it; a key no longer registered is passed over.
  */
  lemma StopAdvancedOutcome(xs: seq<Step>)
    requires Legal(BOOT, xs) && Enabled(Run(BOOT, xs), StopAdvanced)
    ensures var s := Run(BOOT, xs); var t := Apply(s, StopAdvanced); var k, rest := s.stop.keys[0], s.stop.keys[1..];
      if k in s.calls then
        var m := s.calls[k];
        t == s.(calls := s.calls - {k}, ctxs := s.ctxs[m := s.ctxs[m].(cancelled := true)], stop := Stopping(rest, Some(m), AwaitTasks))
      else t == s.(stop := Stopping(rest, None, AwaitTasks))
  {
    hide Run, Legal, Inv;
    RunFromBoot(xs);
    var s := Run(BOOT, xs);
    if s.stop.keys[0] in s.calls { RegisteredIsRunning(s, s.stop.keys[0]); }
    assert s.deeds + [] == s.deeds;
  }

  /** stop() still has every registered call before it. */
  predicate StopCovers(s: Edge) {
    s.stop.Stopping? && forall k :: k in s.calls ==> k in s.stop.keys
  }

  /** Neither a new call nor the return of stop(). */
  predicate KeepsStopping(ys: seq<Step>) {
    forall i :: 0 <= i < |ys| ==> !ys[i].DialReturned? && !ys[i].StopReturned?
  }

  lemma PumpStepKeepsCover(s: Edge, x: Step)
    requires Inv(s) && StopCovers(s) && Enabled(s, x) && IsPumpStep(x)
    ensures StopCovers(Apply(s, x))
  {
    hide Inv, Apply, Enabled;
    PumpTouchesOnlyItsOwn(s, x);
    PumpStepPopsOwnKey(s, x);
  }

  lemma OtherStepKeepsCover(s: Edge, x: Step)
    requires StopCovers(s) && Enabled(s, x) && !IsPumpStep(x) && !x.DialReturned? && !x.StopReturned?
    ensures StopCovers(Apply(s, x))
  {
  }

  lemma {:induction false} RunKeepsCover(s: Edge, ys: seq<Step>)
    requires Inv(s) && StopCovers(s) && Legal(s, ys) && KeepsStopping(ys)
    ensures Inv(Run(s, ys)) && StopCovers(Run(s, ys))
    decreases |ys|
  {
    hide Inv, StopCovers, Apply, Enabled;
    if ys != [] {
      StepKeepsInv(s, ys[0]);
      if IsPumpStep(ys[0]) { PumpStepKeepsCover(s, ys[0]); } else { OtherStepKeepsCover(s, ys[0]); }
      RunKeepsCover(Apply(s, ys[0]), ys[1..]);
    }
  }

  lemma StopStartsCovering(s: Edge, keys: seq<string>)
    requires Enabled(s, StopCalled(keys))
    ensures StopCovers(Apply(s, StopCalled(keys)))
  {
    assert forall k :: k in s.calls ==> k in (set q | q in keys);
  }

  /** An unregistered call is over or on its way out. */
  predicate Released(c: Ctx) {
    c.terminated || (c.pump.Done? && Idle(c)) || (c.pump.Down? && c.pump.after.Finish?)
  }

  lemma CoveredIsReleased(u: Edge, m: nat)
    requires Inv(u) && StopCovers(u) && Enabled(u, StopReturned)
    ensures u.calls == map[] && (m in u.ctxs ==> Released(u.ctxs[m]))
  {
    hide A.Inv, Others, StreamFits;
    if m in u.ctxs { assert CtxOk(u, m); }
  }

  /**
  When stop() is about to return and no dial has returned meanwhile, no call is registered,
  and every call is over: reported, or with its pump gone and nothing left on the audio
  path, or in the last teardown of its own pump.
  */
  lemma StopReleasesEverything(xs: seq<Step>, keys: seq<string>, ys: seq<Step>, m: nat)
    requires Legal(BOOT, xs) && Enabled(Run(BOOT, xs), StopCalled(keys))
    requires var t := Apply(Run(BOOT, xs), StopCalled(keys)); Legal(t, ys) && KeepsStopping(ys) && Enabled(Run(t, ys), StopReturned)
    ensures var u := Run(Apply(Run(BOOT, xs), StopCalled(keys)), ys);
      && u.calls == map[]
      && (m in u.ctxs ==> Released(u.ctxs[m]))
  {
    hide Run, Legal, Inv, StopCovers, Apply, Enabled, Released;
    RunFromBoot(xs);
    var s := Run(BOOT, xs);
    var t := Apply(s, StopCalled(keys));
    StepKeepsInv(s, StopCalled(keys));
    StopStartsCovering(s, keys);
    RunKeepsCover(t, ys);
    CoveredIsReleased(Run(t, ys), m);
  }
}
