/** What the invariant of CallSafety means for the cloud, for the modem and for the audio path. */
module CallTheorems {
  import opened Options
  import opened CallLifecycle
  import opened CallSafety
  import A = AtCalls

  // ----- The messages of one context ---------------------------------------------

  predicate Says(sent: seq<Sent>, i: int, m: nat, msg: Msg)
    requires 0 <= i < |sent|
  {
    sent[i].owner == Some(m) && sent[i].msg == msg
  }

  predicate Speaks(sent: seq<Sent>, i: int, m: nat)
    requires 0 <= i < |sent|
  {
    sent[i].owner == Some(m)
  }

  /**
  The messages sent for m: an ack before anything else and once; at most one
  connected; an alert only after it, followed by nothing but the hangup; nothing
  after the hangup; never a refusal.
  */
  ghost predicate WellSpoken(sent: seq<Sent>, m: nat) {
    && (forall i :: 0 <= i < |sent| && Speaks(sent, i, m) ==>
          && !Says(sent, i, m, Refused)
          && (Says(sent, i, m, Ack) <==> forall j :: 0 <= j < i ==> !Speaks(sent, j, m)))
    && (forall i, j :: 0 <= i < j < |sent| && Says(sent, i, m, ConnectedEvent) ==> !Says(sent, j, m, ConnectedEvent))
    && (forall i, j :: 0 <= i < j < |sent| && Says(sent, i, m, Alert) && Speaks(sent, j, m) ==> Says(sent, j, m, HangupEvent))
    && (forall i :: 0 <= i < |sent| && Says(sent, i, m, Alert) ==> exists j :: 0 <= j < i && Says(sent, j, m, ConnectedEvent))
    && (forall i, j :: 0 <= i < j < |sent| && Says(sent, i, m, HangupEvent) ==> !Speaks(sent, j, m))
  }

  ghost predicate Said(sent: seq<Sent>, m: nat, msg: Msg) {
    exists i :: 0 <= i < |sent| && Says(sent, i, m, msg)
  }

  ghost predicate Spoke(sent: seq<Sent>, m: nat) {
    exists i :: 0 <= i < |sent| && Speaks(sent, i, m)
  }

  /** What each verdict stands for. */
  ghost predicate VerdictMeans(sent: seq<Sent>, m: nat, v: Verdict) {
    && (v == Silent <==> !Spoke(sent, m))
    && (v == Over <==> Said(sent, m, HangupEvent))
    && (v == Alerted <==> Said(sent, m, Alert) && !Said(sent, m, HangupEvent))
    && (v == Acked ==> !Said(sent, m, ConnectedEvent))
    && (v == Talking ==> Said(sent, m, ConnectedEvent))
  }

  lemma SpokenMore(sent: seq<Sent>, last: Sent, m: nat, msg: Msg)
    ensures var more := sent + [last];
      && (Said(more, m, msg) <==> Said(sent, m, msg) || (last.owner == Some(m) && last.msg == msg))
      && (Spoke(more, m) <==> Spoke(sent, m) || last.owner == Some(m))
  {
    var more := sent + [last];
    if Said(sent, m, msg) {
      var i :| 0 <= i < |sent| && Says(sent, i, m, msg);
      assert Says(more, i, m, msg);
    }
    if Spoke(sent, m) {
      var i :| 0 <= i < |sent| && Speaks(sent, i, m);
      assert Speaks(more, i, m);
    }
    assert last.owner == Some(m) ==> Speaks(more, |sent|, m);
    assert last.owner == Some(m) && last.msg == msg ==> Says(more, |sent|, m, msg);
    if Said(more, m, msg) && !(last.owner == Some(m) && last.msg == msg) {
      var i :| 0 <= i < |more| && Says(more, i, m, msg);
      assert Says(sent, i, m, msg);
    }
    if Spoke(more, m) && last.owner != Some(m) {
      var i :| 0 <= i < |more| && Speaks(more, i, m);
      assert Speaks(sent, i, m);
    }
  }

  lemma WellSpokenMore(sent: seq<Sent>, last: Sent, m: nat)
    requires WellSpoken(sent, m)
    requires VerdictMeans(sent, m, VerdictOn(sent, m)) && VerdictOn(sent, m) != Bad
    requires last.owner == Some(m) ==> NextVerdict(VerdictOn(sent, m), last.msg) != Bad
    ensures WellSpoken(sent + [last], m)
  {
    var more := sent + [last];
    var v := VerdictOn(sent, m);
    forall i | 0 <= i < |more| && Speaks(more, i, m)
      ensures !Says(more, i, m, Refused)
      ensures Says(more, i, m, Ack) <==> forall j :: 0 <= j < i ==> !Speaks(more, j, m)
    {
      if i < |sent| {
        assert Speaks(sent, i, m);
        assert Says(sent, i, m, Ack) == Says(more, i, m, Ack);
        assert Says(sent, i, m, Refused) == Says(more, i, m, Refused);
        assert forall j :: 0 <= j < i ==> Speaks(more, j, m) == Speaks(sent, j, m);
      } else {
        assert forall j :: 0 <= j < i ==> Speaks(more, j, m) == Speaks(sent, j, m);
      }
    }
    forall i, j | 0 <= i < j < |more| && Says(more, i, m, ConnectedEvent) ensures !Says(more, j, m, ConnectedEvent) {
      assert Says(sent, i, m, ConnectedEvent);
      if j < |sent| { assert Says(sent, j, m, ConnectedEvent) == Says(more, j, m, ConnectedEvent); }
    }
    forall i, j | 0 <= i < j < |more| && Says(more, i, m, Alert) && Speaks(more, j, m) ensures Says(more, j, m, HangupEvent) {
      assert Says(sent, i, m, Alert);
      if j < |sent| { assert Speaks(sent, j, m) && Says(sent, j, m, HangupEvent); }
    }
    forall i | 0 <= i < |more| && Says(more, i, m, Alert) ensures exists j :: 0 <= j < i && Says(more, j, m, ConnectedEvent) {
      if i < |sent| {
        assert Says(sent, i, m, Alert);
        var j :| 0 <= j < i && Says(sent, j, m, ConnectedEvent);
        assert Says(more, j, m, ConnectedEvent);
      } else {
        var j :| 0 <= j < |sent| && Says(sent, j, m, ConnectedEvent);
        assert Says(more, j, m, ConnectedEvent);
      }
    }
    forall i, j | 0 <= i < j < |more| && Says(more, i, m, HangupEvent) ensures !Speaks(more, j, m) {
      assert Says(sent, i, m, HangupEvent);
      if j < |sent| { assert Speaks(sent, j, m) == Speaks(more, j, m); }
    }
  }

  /** A trace the automaton accepts is well spoken, and its verdict says how far it got. */
  lemma {:induction false} AcceptedIsWellSpoken(sent: seq<Sent>, m: nat)
    requires VerdictOn(sent, m) != Bad
    ensures WellSpoken(sent, m) && VerdictMeans(sent, m, VerdictOn(sent, m))
    decreases |sent|
  {
    if sent == [] {
      assert !Spoke(sent, m) && !Said(sent, m, HangupEvent) && !Said(sent, m, Alert);
    } else {
      var rest, last := sent[..|sent| - 1], sent[|sent| - 1];
      assert sent == rest + [last];
      AcceptedIsWellSpoken(rest, m);
      WellSpokenMore(rest, last, m);
      SpokenMore(rest, last, m, HangupEvent);
      SpokenMore(rest, last, m, Alert);
      SpokenMore(rest, last, m, ConnectedEvent);
      if Said(rest, m, ConnectedEvent) {
        var i :| 0 <= i < |rest| && Says(rest, i, m, ConnectedEvent);
        assert Speaks(rest, i, m);
      }
    }
  }

  lemma RunFromBoot(xs: seq<Step>)
    requires Legal(BOOT, xs)
    ensures Inv(Run(BOOT, xs))
  {
    RunKeepsInv(BOOT, xs);
  }

  /**
  In every interleaving, the messages sent for one accepted call are well spoken,
  the hangup is among them exactly when the context is marked terminated, and two
  contexts under the same cloud call id never interleave.
  */
  lemma TraceSafety(xs: seq<Step>)
    requires Legal(BOOT, xs)
    ensures var s := Run(BOOT, xs);
      && InTurn(s.sent)
      && forall m :: m in s.ctxs ==>
           && WellSpoken(s.sent, m)
           && Said(s.sent, m, Ack)
           && (Said(s.sent, m, HangupEvent) <==> s.ctxs[m].terminated)
  {
    RunKeepsInv(BOOT, xs);
    var s := Run(BOOT, xs);
    forall m | m in s.ctxs
      ensures WellSpoken(s.sent, m) && Said(s.sent, m, Ack) && (Said(s.sent, m, HangupEvent) <==> s.ctxs[m].terminated)
    {
      Split(s, m);
      AcceptedIsWellSpoken(s.sent, m);
      FirstIsAck(s.sent, m);
    }
  }

  lemma FirstIsAck(sent: seq<Sent>, m: nat)
    requires WellSpoken(sent, m) && Spoke(sent, m)
    ensures Said(sent, m, Ack)
  {
    var i :| 0 <= i < |sent| && Speaks(sent, i, m);
    EarliestSpeaker(sent, m, i);
  }

  lemma {:induction false} EarliestSpeaker(sent: seq<Sent>, m: nat, i: nat)
    requires WellSpoken(sent, m) && i < |sent| && Speaks(sent, i, m)
    ensures Said(sent, m, Ack)
    decreases i
  {
    if j :| 0 <= j < i && Speaks(sent, j, m) {
      EarliestSpeaker(sent, m, j);
    } else {
      assert Says(sent, i, m, Ack);
    }
  }

  // ----- Cleanup touches only its own context ----------------------------------------

  /** t has at most the map entry under m's call id removed, and no other context changed. */
  predicate OwnKeyOnly(s: Edge, t: Edge, m: nat)
    requires m in s.ctxs
  {
    && (t.calls == s.calls || t.calls == s.calls - {s.ctxs[m].call})
    && t.ctxs.Keys == s.ctxs.Keys && t.stop == s.stop
    && forall k :: k in s.ctxs && k != m ==> t.ctxs[k] == s.ctxs[k]
  }

  lemma FinallyPopsOwnKey(s: Edge, m: nat)
    requires m in s.ctxs
    ensures OwnKeyOnly(s, PumpFinally(s, m), m)
  {
  }

  lemma ContinuePopsOwnKey(s: Edge, m: nat, after: After)
    requires m in s.ctxs
    ensures OwnKeyOnly(s, Continue(s, m, after), m)
  {
    if after.Return? { FinallyPopsOwnKey(s, m); }
  }

  lemma TearsPopOwnKey(s: Edge, m: nat, t: Torn, after: After)
    requires m in s.ctxs && t.ctx.call == s.ctxs[m].call
    ensures OwnKeyOnly(s, PumpTears(s, m, t, after), m)
  {
    ContinuePopsOwnKey(Doing(s, m, t.ctx, t.acts), m, after);
  }

  /** A teardown renames nobody and reports nothing. */
  predicate SameIdentity(c: Ctx, d: Ctx) {
    d.call == c.call && d.terminated == c.terminated
  }

  lemma RestKeepsIdentity(c: Ctx)
    ensures SameIdentity(c, TearRest(c).ctx)
  {
  }

  lemma BridgeKeepsIdentity(c: Ctx)
    ensures SameIdentity(c, TearBridge(c).ctx)
  {
  }

  lemma TearKeepsIdentity(c: Ctx, byPump: bool, phase: Phase)
    ensures SameIdentity(c, TearTasks(c, byPump).ctx) && SameIdentity(c, TearAfter(c, phase).ctx)
  {
    hide TearRest, TearBridge;
    RestKeepsIdentity(c);
    BridgeKeepsIdentity(c);
    BridgeKeepsIdentity(c.(cancelled := true));
  }

  lemma HangupPopsOwnKey(s: Edge, m: nat, after: After)
    requires m in s.ctxs
    ensures OwnKeyOnly(s, HandleHangup(s, m, after), m)
  {
    var c := s.ctxs[m];
    if c.terminated {
      ContinuePopsOwnKey(s, m, after);
    } else {
      var u := Pop(Emit(s, Some(m), c.call, HangupEvent), c.call);
      TearKeepsIdentity(c.(terminated := true), true, AwaitTasks);
      TearsPopOwnKey(u, m, TearTasks(c.(terminated := true), true), after);
      assert u.calls - {c.call} == u.calls;
    }
  }

  lemma GotPopsOwnKey(s: Edge, m: nat, r: A.Pulled)
    requires m in s.ctxs
    ensures OwnKeyOnly(s, PumpGot(s, m, r), m)
  {
    FinallyPopsOwnKey(s, m);
    HangupPopsOwnKey(s, m, Return);
  }

  lemma EnablePopsOwnKey(s: Edge, m: nat, r: Enable)
    requires m in s.ctxs
    ensures OwnKeyOnly(s, PumpEnable(s, m, r), m)
  {
    var c := s.ctxs[m];
    match r
    case EnableRefused =>
      FinallyPopsOwnKey(s, m);
      HangupPopsOwnKey(Emit(s, Some(m), c.call, Alert), m, HangUp);
    case EnableCrashed => FinallyPopsOwnKey(s, m);
    case EnableOk(recording, built) =>
      FinallyPopsOwnKey(Doing(s, m, c.(cpcm := true, recording := recording), PathBegun(recording)), m);
  }

  lemma CancelPopsOwnKey(s: Edge, m: nat)
    requires m in s.ctxs && m in s.at.streams
    ensures OwnKeyOnly(s, PumpCancel(s, m), m)
  {
  }

  lemma PumpStepPopsOwnKey(s: Edge, x: Step)
    requires Enabled(s, x) && IsPumpStep(x)
    ensures OwnKeyOnly(s, Apply(s, x), x.m)
  {
    match x
    case PumpPulled(m) => GotPopsOwnKey(s.(at := A.Pull(s.at, m).0), m, A.Pull(s.at, m).1);
    case PumpEnabled(m, r) => EnablePopsOwnKey(s, m, r);
    case PumpJoined(m, _, _) => HangupPopsOwnKey(s, m, Resume);
    case PumpHungUp(m) =>
    case PumpTorn(m) =>
      TearKeepsIdentity(s.ctxs[m], true, s.ctxs[m].pump.phase);
      TearsPopOwnKey(s, m, TearAfter(s.ctxs[m], s.ctxs[m].pump.phase), s.ctxs[m].pump.after);
    case PumpCancelled(m) => CancelPopsOwnKey(s, m);
  }

  lemma InFinallyLeavesMap(s: Edge, m: nat)
    requires Enabled(s, PumpTorn(m)) && s.ctxs[m].pump.after.Finish?
    ensures Apply(s, PumpTorn(m)).calls == s.calls
  {
  }

  lemma NeverStartedLeavesMap(s: Edge, m: nat)
    requires Enabled(s, PumpCancelled(m)) && s.ctxs[m].pump.NotStarted?
    ensures Apply(s, PumpCancelled(m)).calls == s.calls
  {
  }

  /** When m steps, a registered context under its call id is m itself, unless the step leaves the map alone. */
  lemma PumpFindsOwnEntry(s: Edge, x: Step, m: nat)
    requires Inv(s) && m in s.ctxs && IsPumpStep(x) && x.m == m && Enabled(s, x)
    ensures Apply(s, x).calls == s.calls || (s.ctxs[m].call in s.calls ==> Live(s, m))
  {
    hide Global, Others, A.Inv;
    var p := s.ctxs[m].pump;
    assert CtxOk(s, m);
    if p.NotStarted? && s.at.streams[m].Single? {
      NotStartedIsLiveOrCancelled(s, m);
      if x.PumpCancelled? { NeverStartedLeavesMap(s, m); }
    } else if p.Down? && p.after.Finish? {
      DownIsNotCancelled(s, m);
      InFinallyLeavesMap(s, m);
    } else {
      PumpOwnsModem(s, m);
    }
  }

  lemma NotStartedIsLiveOrCancelled(s: Edge, m: nat)
    requires m in s.ctxs && CtxOk(s, m) && s.ctxs[m].pump.NotStarted?
    ensures Live(s, m) || s.ctxs[m].cancelled
  {
  }

  lemma DownIsNotCancelled(s: Edge, m: nat)
    requires m in s.ctxs && CtxOk(s, m) && s.ctxs[m].pump.Down?
    ensures !s.ctxs[m].cancelled
  {
  }

  lemma PumpTouchesOnlyItsOwn(s: Edge, x: Step)
    requires Inv(s) && Enabled(s, x) && IsPumpStep(x)
    ensures var t := Apply(s, x);
      && (forall c :: c in s.calls && s.calls[c] != x.m ==> c in t.calls && t.calls[c] == s.calls[c])
      && (forall c :: c in t.calls ==> c in s.calls && t.calls[c] == s.calls[c])
      && (forall k :: k in s.ctxs && k != x.m ==> k in t.ctxs && t.ctxs[k] == s.ctxs[k])
  {
    hide Global, Others, A.Inv;
    PumpStepPopsOwnKey(s, x);
    PumpFindsOwnEntry(s, x, x.m);
  }

  /**
  A pump step removes and tears down nothing but its own context: whatever the cloud
  redials in the meantime, every other registered call stays registered, and every
  other context is untouched.
  */
  lemma CleanupTouchesOnlyItsOwn(xs: seq<Step>, x: Step)
    requires Legal(BOOT, xs) && IsPumpStep(x) && Enabled(Run(BOOT, xs), x)
    ensures var s := Run(BOOT, xs); var t := Apply(s, x);
      && (forall c :: c in s.calls && s.calls[c] != x.m ==> c in t.calls && t.calls[c] == s.calls[c])
      && (forall c :: c in t.calls ==> c in s.calls && t.calls[c] == s.calls[c])
      && (forall k :: k in s.ctxs && k != x.m ==> k in t.ctxs && t.ctxs[k] == s.ctxs[k])
  {
    hide Run, Legal, Inv, Enabled, Apply;
    RunFromBoot(xs);
    PumpTouchesOnlyItsOwn(Run(BOOT, xs), x);
  }

  predicate StopTakes(s: Edge, c: string) {
    s.stop.Stopping? && s.stop.keys != [] && s.stop.keys[0] == c
  }

  lemma UnregisteringStep(s: Edge, x: Step, c: string)
    requires Inv(s) && Enabled(s, x) && c in s.calls && c !in Apply(s, x).calls
    ensures (x == StopAdvanced && StopTakes(s, c)) || (IsPumpStep(x) && x.m == s.calls[c])
  {
    hide Global, Others, A.Inv;
    if IsPumpStep(x) { PumpTouchesOnlyItsOwn(s, x); }
  }

  /** stop() aside, only its own pump ever unregisters a call. */
  lemma OnlyPumpAndStopUnregister(xs: seq<Step>, x: Step, c: string)
    requires Legal(BOOT, xs) && Enabled(Run(BOOT, xs), x)
    requires c in Run(BOOT, xs).calls && c !in Apply(Run(BOOT, xs), x).calls
    ensures var s := Run(BOOT, xs);
      (x == StopAdvanced && StopTakes(s, c)) || (IsPumpStep(x) && x.m == s.calls[c])
  {
    hide Run, Legal, Inv, Enabled, Apply, StopTakes;
    RunFromBoot(xs);
    UnregisteringStep(Run(BOOT, xs), x, c);
  }

  // ----- The audio path -------------------------------------------------------------------

  /** How often m did `act`. */
  function Times(deeds: seq<Deed>, m: nat, act: Act): nat {
    if deeds == [] then 0
    else
      var last := deeds[|deeds| - 1];
      Times(deeds[..|deeds| - 1], m, act) + if last == Deed(m, act) then 1 else 0
  }

  /** The counts behind each state of the audio path. */
  predicate PowerCounts(deeds: seq<Deed>, m: nat, p: Power) {
    && Times(deeds, m, PcmEnabled) == (if p.Dark? then 0 else 1)
    && Times(deeds, m, PcmDisabled) == (if p.Off? || p.OffWithRings? || p.Shut? then 1 else 0)
    && Times(deeds, m, BridgeBuilt) == (if p.Dark? || p.Lit? || p.Off? then 0 else 1)
    && Times(deeds, m, BridgeLeft) == (if p.Departed? || p.OffWithRings? || p.Shut? then 1 else 0)
    && Times(deeds, m, RingsClosed) == (if p.Shut? then 1 else 0)
    && Times(deeds, m, RecordingBegun) == (if p.Dark? || p.Wrong? || p.tape.Blank? then 0 else 1)
    && Times(deeds, m, Finalized) == (if p.Dark? || p.Wrong? || !p.tape.Written? then 0 else 1)
    && (p.Bridged? ==> Times(deeds, m, AudioStarted) == 0) && (p.OnAir? ==> Times(deeds, m, AudioStarted) == 1)
    && Times(deeds, m, AudioStarted) <= 1 && (p.Dark? || p.Lit? || p.Off? ==> Times(deeds, m, AudioStarted) == 0)
  }

  lemma {:induction false} PowerIsCounted(deeds: seq<Deed>, m: nat)
    requires PowerOn(deeds, m) != Wrong
    ensures PowerCounts(deeds, m, PowerOn(deeds, m))
    decreases |deeds|
  {
    if deeds != [] {
      PowerIsCounted(deeds[..|deeds| - 1], m);
    }
  }

  lemma {:induction false} PowerOfPrefix(deeds: seq<Deed>, m: nat, i: nat)
    requires PowerOn(deeds, m) != Wrong && i <= |deeds|
    ensures PowerOn(deeds[..i], m) != Wrong
    decreases |deeds|
  {
    if i < |deeds| {
      assert deeds[..|deeds| - 1][..i] == deeds[..i];
      PowerOfPrefix(deeds[..|deeds| - 1], m, i);
    } else {
      assert deeds[..i] == deeds;
    }
  }

  /**
  A disable comes after exactly one enable that had not been disabled yet, and once
  the bridge, if one was built, has left; the rings close only after it, once. An
  audio start comes between the build and the leave.
  */
  predicate Balanced(deeds: seq<Deed>, m: nat) {
    forall i :: 0 <= i < |deeds| && deeds[i].owner == m ==>
      var before := deeds[..i];
      match deeds[i].act
      case PcmEnabled => Times(before, m, PcmEnabled) == 0
      case PcmDisabled =>
        && Times(before, m, PcmEnabled) == 1 && Times(before, m, PcmDisabled) == 0
        && Times(before, m, BridgeLeft) == Times(before, m, BridgeBuilt) && Times(before, m, RingsClosed) == 0
        && Times(before, m, Finalized) == Times(before, m, RecordingBegun)
      case RingsClosed => Times(before, m, PcmDisabled) == 1 && Times(before, m, RingsClosed) == 0
      case AudioStarted =>
        Times(before, m, BridgeBuilt) == 1 && Times(before, m, AudioStarted) == 0 && Times(before, m, BridgeLeft) == 0
      case BridgeLeft => Times(before, m, BridgeBuilt) == 1 && Times(before, m, BridgeLeft) == 0 && Times(before, m, PcmDisabled) == 0
      case BridgeBuilt => Times(before, m, PcmEnabled) == 1 && Times(before, m, BridgeBuilt) == 0
      case RecordingBegun =>
        Times(before, m, RecordingBegun) == 0 && Times(before, m, PcmEnabled) == 1 && Times(before, m, BridgeBuilt) == 0
      case Finalized =>
        && Times(before, m, RecordingBegun) == 1 && Times(before, m, Finalized) == 0
        && Times(before, m, BridgeLeft) == Times(before, m, BridgeBuilt) && Times(before, m, PcmDisabled) == 0
  }

  lemma PoweredIsBalanced(deeds: seq<Deed>, m: nat)
    requires PowerOn(deeds, m) != Wrong
    ensures Balanced(deeds, m)
  {
    forall i | 0 <= i < |deeds| && deeds[i].owner == m
      ensures PowerCounts(deeds[..i], m, PowerOn(deeds[..i], m))
      ensures NextPower(PowerOn(deeds[..i], m), deeds[i].act) != Wrong
    {
      PowerOfPrefix(deeds, m, i);
      PowerOfPrefix(deeds, m, i + 1);
      PowerIsCounted(deeds[..i], m);
      assert deeds[..i + 1][..i] == deeds[..i];
    }
  }

  lemma HeldIsPowered(c: Ctx, hold: Option<Phase>, p: Power)
    requires Held(c, hold, p)
    ensures p != Wrong && (c.audio > 0 ==> p.OnAir?)
    ensures c.cpcm <==> p.Bridged? || p.OnAir?
    ensures c.bridge <==> p.Bridged? || p.OnAir?
    ensures c.recording <==> !p.Dark? && p.tape.Rolling?
  {
  }

  /**
  Over every run the audio path of every call is balanced. A recording that has begun is
  finalized exactly once it is given up; a registered call back in its event loop with a
  bridge has had its audio pumps started, and none is alive before that or once the bridge
  has left. A call whose pump is done and that stop() is not visiting has as many disables
  as enables, as many wavs as recordings, and nothing left running.
  */
  lemma ResourceBalance(xs: seq<Step>, m: nat)
    requires Legal(BOOT, xs) && m in Run(BOOT, xs).ctxs
    ensures var s := Run(BOOT, xs); var c := s.ctxs[m];
      && Balanced(s.deeds, m)
      && (c.cpcm <==> Times(s.deeds, m, PcmEnabled) > Times(s.deeds, m, PcmDisabled))
      && (c.bridge <==> Times(s.deeds, m, BridgeBuilt) > Times(s.deeds, m, BridgeLeft))
      && (c.recording <==> Times(s.deeds, m, RecordingBegun) > Times(s.deeds, m, Finalized))
      && (c.audio > 0 ==> Times(s.deeds, m, AudioStarted) == 1 && Times(s.deeds, m, BridgeLeft) == 0)
      && (Live(s, m) && c.pump.Pulling? && c.bridge ==> Times(s.deeds, m, AudioStarted) == 1)
      && (c.pump.Done? && StopOn(s) != Some(m) ==>
            && Idle(c)
            && Times(s.deeds, m, PcmEnabled) == Times(s.deeds, m, PcmDisabled)
            && Times(s.deeds, m, RecordingBegun) == Times(s.deeds, m, Finalized)
            && Times(s.deeds, m, BridgeBuilt) == Times(s.deeds, m, BridgeLeft) == Times(s.deeds, m, RingsClosed))
  {
    RunKeepsInv(BOOT, xs);
    var s := Run(BOOT, xs);
    assert CtxOk(s, m);
    HeldIsPowered(s.ctxs[m], HoldOf(s.ctxs[m], Live(s, m), StopOn(s) == Some(m), PhaseOf(s)), PowerOn(s.deeds, m));
    PoweredIsBalanced(s.deeds, m);
    PowerIsCounted(s.deeds, m);
  }

  // ----- Teardown ---------------------------------------------------------------------------

  lemma OneTeardownAtATime(s: Edge, m: nat)
    requires Inv(s) && m in s.ctxs
    ensures s.ctxs[m].pump.Down? ==> StopOn(s) != Some(m) && !s.ctxs[m].cancelled && !Live(s, m)
    ensures StopOn(s) == Some(m) ==> s.ctxs[m].cancelled && !Live(s, m)
    ensures s.ctxs[m].terminated ==> !Live(s, m) && StopOn(s) != Some(m)
  {
    assert CtxOk(s, m);
  }

  /**
  At most one teardown runs on a context at any time, the pump running one is never
  cancelled, and the tasks a teardown waits for never include the one running it.
  */
  lemma TeardownsNeverOverlap(xs: seq<Step>, m: nat)
    requires Legal(BOOT, xs) && m in Run(BOOT, xs).ctxs
    ensures var s := Run(BOOT, xs);
      && (s.ctxs[m].pump.Down? ==> StopOn(s) != Some(m) && !s.ctxs[m].cancelled && !Live(s, m))
      && (StopOn(s) == Some(m) ==> s.ctxs[m].cancelled && !Live(s, m))
      && (s.ctxs[m].terminated ==> !Live(s, m) && StopOn(s) != Some(m))
  {
    hide Run, Legal, Inv;
    RunFromBoot(xs);
    OneTeardownAtATime(Run(BOOT, xs), m);
  }

  lemma StopWaitsForOthers(c: Ctx, st: A.Stream, m: nat, phase: Phase, power: Power, v: Verdict)
    requires Fits(c, st, m, false, true, phase, power, v) && !TasksDone(c, false)
    ensures c.audio > 0 || (c.cancelled && !c.pump.Done?)
  {
  }

  lemma PumpTeardownCanMove(s: Edge, m: nat)
    requires m in s.ctxs && CtxOk(s, m) && s.ctxs[m].pump.Down?
    ensures Enabled(s, PumpTorn(m)) || Enabled(s, AudioEnded(m))
  {
    hide A.Inv;
    DownIsNotCancelled(s, m);
  }

  lemma StopTeardownCanMove(s: Edge, m: nat)
    requires m in s.ctxs && CtxOk(s, m) && StopOn(s) == Some(m)
    ensures Enabled(s, StopTorn) || Enabled(s, AudioEnded(m)) || Enabled(s, PumpCancelled(m))
  {
    hide A.Inv;
    assert s.ctxs[m].cancelled && !Live(s, m);
    if !TasksDone(s.ctxs[m], false) {
      StopWaitsForOthers(s.ctxs[m], s.at.streams[m], m, PhaseOf(s), PowerOn(s.deeds, m), VerdictOn(s.sent, m));
    }
  }

  /** Whatever a teardown is waiting for can always make progress by itself. */
  lemma TeardownNeverDeadlocks(xs: seq<Step>, m: nat)
    requires Legal(BOOT, xs) && m in Run(BOOT, xs).ctxs
    ensures var s := Run(BOOT, xs);
      && (StopOn(s) == Some(m) ==> Enabled(s, StopTorn) || Enabled(s, AudioEnded(m)) || Enabled(s, PumpCancelled(m)))
      && (s.ctxs[m].pump.Down? ==> Enabled(s, PumpTorn(m)) || Enabled(s, AudioEnded(m)))
  {
    hide Run, Legal, Global, CtxOk, Enabled;
    RunFromBoot(xs);
    var s := Run(BOOT, xs);
    if s.ctxs[m].pump.Down? { PumpTeardownCanMove(s, m); }
    if StopOn(s) == Some(m) { StopTeardownCanMove(s, m); }
  }

  /** m has a bridge that neither stop() nor the `finally` of its pump is taking down. */
  predicate OnAir(s: Edge, m: nat) {
    && m in s.ctxs && s.ctxs[m].bridge && StopOn(s) != Some(m)
    && !(s.ctxs[m].pump.Down? && s.ctxs[m].pump.after.Finish?)
  }

  lemma OnAirIsUnique(s: Edge, m: nat, k: nat)
    requires Inv(s) && OnAir(s, m) && OnAir(s, k)
    ensures m == k && s.at.active == Some(m)
  {
    OnAirOwnsModem(s, m);
    OnAirOwnsModem(s, k);
  }

  /** Outside stop() and the `finally` of a broken pump, only the call that owns the modem has audio. */
  lemma OneCallOnAir(xs: seq<Step>, m: nat, k: nat)
    requires Legal(BOOT, xs) && OnAir(Run(BOOT, xs), m) && OnAir(Run(BOOT, xs), k)
    ensures m == k && Run(BOOT, xs).at.active == Some(m)
  {
    hide Run, Legal, Inv;
    RunFromBoot(xs);
    OnAirIsUnique(Run(BOOT, xs), m, k);
  }

  lemma OnAirOwnsModem(s: Edge, m: nat)
    requires Inv(s) && OnAir(s, m)
    ensures s.at.active == Some(m)
  {
    assert CtxOk(s, m);
    PumpOwnsModem(s, m);
  }
}
