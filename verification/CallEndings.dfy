/** How calls end: what a failed join leaves behind, and which calls end without a word. */
module CallEndings {
  import opened Options
  import opened CallLifecycle
  import opened CallSafety
  import opened CallTheorems
  import A = AtCalls

  // ----- A failed join ------------------------------------------------------------------------

  /** A reported call whose pump will go back to its stream. */
  predicate HoldsModem(s: Edge, m: nat) {
    && m in s.ctxs && s.ctxs[m].terminated
    && match s.ctxs[m].pump
       case Pulling => true
       case HangingUp(_) => true
       case Down(_, Resume) => true
       case Down(_, HangUp) => true
       case _ => false
  }

  /** The pump of m takes a remote_hangup, or the end, off its stream. */
  predicate LetsGo(s: Edge, x: Step, m: nat)
    requires Enabled(s, x)
  {
    x == PumpPulled(m) && var r := A.Pull(s.at, m).1; r.End? || (r.Yield? && r.ev.RemoteHangup?)
  }

  lemma HoldersOwnTheModem(s: Edge, m: nat)
    requires Inv(s) && HoldsModem(s, m)
    ensures s.at.active == Some(m) && m in s.at.streams && s.at.streams[m] == A.Open(m, true) && !s.ctxs[m].cancelled
    ensures StopOn(s) != Some(m) && !Live(s, m) && s.at.dialing.None?
  {
    hide A.Inv, Others;
    assert CtxOk(s, m);
    PumpOwnsModem(s, m);
    A.OpenStreamIsAlone(s.at, m);
  }

  lemma PullHolds(s: Edge, m: nat, r: A.Pulled)
    requires HoldsModem(s, m) && r.Blocked?
    ensures HoldsModem(PumpGot(s, m, r), m)
  {
  }

  lemma OwnStepHolds(s: Edge, x: Step, m: nat)
    requires Inv(s) && HoldsModem(s, m) && IsPumpStep(x) && x.m == m && Enabled(s, x) && !LetsGo(s, x, m)
    ensures HoldsModem(Apply(s, x), m)
  {
    hide A.Inv, A.Pull, PumpTears, PumpGot, PumpFinally, CtxOk;
    HoldersOwnTheModem(s, m);
    match x
    case PumpPulled(_) =>
      A.PullOutcome(s.at, m);
      PullHolds(s.(at := A.Pull(s.at, m).0), m, A.Pull(s.at, m).1);
    case PumpHungUp(_) =>
    case PumpTorn(_) => TornHolds(s, m);
  }

  lemma AtHolds(s: Edge, m: nat, pump: Pump)
    requires m in s.ctxs && s.ctxs[m].terminated && (pump.Pulling? || pump.HangingUp?)
    ensures HoldsModem(At(s, m, pump), m)
  {
  }

  lemma ContinueHolds(s: Edge, m: nat, after: After)
    requires m in s.ctxs && s.ctxs[m].terminated && (after.Resume? || after.HangUp?)
    ensures HoldsModem(Continue(s, m, after), m)
  {
    hide PumpFinally, At, HoldsModem, A.HangupBegin;
    AtHolds(s, m, Pulling);
    if A.HangupTarget(s.at, m).Some? {
      AtHolds(s.(at := A.HangupBegin(s.at, m)), m, HangingUp(A.Hangup(m, A.HangupTarget(s.at, m).value)));
    }
  }

  lemma TearsHold(s: Edge, m: nat, t: Torn, after: After)
    requires m in s.ctxs && t.ctx.terminated && (after.Resume? || after.HangUp?)
    ensures HoldsModem(PumpTears(s, m, t, after), m)
  {
    hide Continue;
    ContinueHolds(Doing(s, m, t.ctx, t.acts), m, after);
  }

  lemma TornHolds(s: Edge, m: nat)
    requires HoldsModem(s, m) && Enabled(s, PumpTorn(m))
    ensures HoldsModem(Apply(s, PumpTorn(m)), m)
  {
    hide TearAfter, PumpTears;
    var c := s.ctxs[m];
    TearKeepsIdentity(c, true, c.pump.phase);
    TearsHold(s, m, TearAfter(c, c.pump.phase), c.pump.after);
  }

  lemma OtherPumpStepHolds(s: Edge, x: Step, m: nat)
    requires Inv(s) && HoldsModem(s, m) && IsPumpStep(x) && x.m != m && Enabled(s, x)
    ensures HoldsModem(Apply(s, x), m)
  {
    hide Inv, Apply, Enabled;
    PumpTouchesOnlyItsOwn(s, x);
  }

  lemma OtherStepHolds(s: Edge, x: Step, m: nat)
    requires HoldsModem(s, m) && Global(s) && Enabled(s, x) && !IsPumpStep(x)
    requires StopOn(s) != Some(m) && !Live(s, m) && s.at.dialing.None?
    ensures HoldsModem(Apply(s, x), m)
  {
    hide A.Inv;
  }

  lemma StepHolds(s: Edge, x: Step, m: nat)
    requires Inv(s) && HoldsModem(s, m) && Enabled(s, x) && !LetsGo(s, x, m)
    ensures HoldsModem(Apply(s, x), m)
  {
    hide Apply, Enabled, CtxOk, Global, HoldsModem, LetsGo;
    HoldersOwnTheModem(s, m);
    if !IsPumpStep(x) {
      OtherStepHolds(s, x, m);
    } else if x.m == m {
      OwnStepHolds(s, x, m);
    } else {
      OtherPumpStepHolds(s, x, m);
    }
  }

  /** A run in which the pump of m takes neither a remote_hangup nor the end off its stream. */
  predicate StaysInCall(s: Edge, ys: seq<Step>, m: nat)
    requires Legal(s, ys)
    decreases |ys|
  {
    ys == [] || (!LetsGo(s, ys[0], m) && StaysInCall(Apply(s, ys[0]), ys[1..], m))
  }

  lemma {:induction false} RunHolds(s: Edge, ys: seq<Step>, m: nat)
    requires Inv(s) && HoldsModem(s, m) && Legal(s, ys) && StaysInCall(s, ys, m)
    ensures Inv(Run(s, ys)) && HoldsModem(Run(s, ys), m)
    decreases |ys|
  {
    hide Inv, HoldsModem, LetsGo, Apply, Enabled;
    if ys != [] {
      StepKeepsInv(s, ys[0]);
      StepHolds(s, ys[0], m);
      RunHolds(Apply(s, ys[0]), ys[1..], m);
    }
  }

  lemma HangupHolds(s: Edge, m: nat)
    requires m in s.ctxs && !s.ctxs[m].terminated
    ensures var t := HandleHangup(s, m, Resume); HoldsModem(t, m) && s.ctxs[m].call !in t.calls
  {
    hide TearTasks, HoldsModem;
    var c := s.ctxs[m].(terminated := true);
    var u := Pop(Emit(s, Some(m), c.call, HangupEvent), c.call);
    TearKeepsIdentity(c, true, AwaitTasks);
    TearsHold(u, m, TearTasks(c, true), Resume);
  }

  lemma FailedJoinHolds(s: Edge, m: nat, pumps: nat)
    requires Inv(s) && Enabled(s, PumpJoined(m, false, pumps))
    ensures var t := Apply(s, PumpJoined(m, false, pumps));
      m in s.ctxs && s.ctxs[m].call !in t.calls && HoldsModem(t, m)
  {
    hide Global, CtxOk, HandleHangup, HoldsModem;
    JoiningIsLive(s, m);
    HangupHolds(s, m);
  }

  lemma JoiningIsLive(s: Edge, m: nat)
    requires m in s.ctxs && CtxOk(s, m) && s.ctxs[m].pump.Joining? && !s.ctxs[m].cancelled
    ensures Live(s, m) && !s.ctxs[m].terminated
  {
  }

  /**
  When the RTC join fails the cloud is told and the call unregistered, but the modem is
  left in the call: over every later run, until the pump of the call takes a
  remote_hangup or the end off its stream, the modem stays busy with it and every dial
  of an unregistered call is refused.
  */
  lemma JoinFailureKeepsTheModem(xs: seq<Step>, m: nat, pumps: nat, ys: seq<Step>, call: string)
    requires Legal(BOOT, xs) && Enabled(Run(BOOT, xs), PumpJoined(m, false, pumps))
    requires var t := Apply(Run(BOOT, xs), PumpJoined(m, false, pumps)); Legal(t, ys) && StaysInCall(t, ys, m)
    ensures var s := Run(BOOT, xs); var t := Apply(s, PumpJoined(m, false, pumps)); var u := Run(t, ys);
      && m in s.ctxs && s.ctxs[m].call !in t.calls
      && m in u.ctxs && u.ctxs[m].terminated && u.at.active == Some(m)
      && (call !in u.calls ==> DialStep(u, call) == Emit(u, None, call, Refused))
  {
    hide Run, Legal, Inv, Enabled, Apply, StaysInCall;
    RunFromBoot(xs);
    var s := Run(BOOT, xs);
    var t := Apply(s, PumpJoined(m, false, pumps));
    FailedJoinHolds(s, m, pumps);
    StepKeepsInv(s, PumpJoined(m, false, pumps));
    RunHolds(t, ys, m);
    HoldersOwnTheModem(Run(t, ys), m);
  }

  // ----- Calls that end without a word -----------------------------------------------------------

  /** Pump steps that end a call without a remote_hangup event. */
  predicate EndsSilently(s: Edge, x: Step)
    requires Enabled(s, x) && IsPumpStep(x)
  {
    match x
    case PumpPulled(m) => A.Pull(s.at, m).1.End?
    case PumpEnabled(m, EnableRefused) => !s.online
    case PumpEnabled(m, EnableCrashed) => true
    case PumpEnabled(m, EnableOk(_, built)) => !built
    case _ => false
  }

  lemma FinallyKeepsTerminated(s: Edge, m: nat)
    requires m in s.ctxs
    ensures m in PumpFinally(s, m).ctxs && PumpFinally(s, m).ctxs[m].terminated == s.ctxs[m].terminated
    ensures s.ctxs[m].call !in PumpFinally(s, m).calls
    ensures PumpFinally(s, m).ctxs[m].call == s.ctxs[m].call
  {
  }

  lemma ContinueKeepsTerminated(s: Edge, m: nat, after: After)
    requires m in s.ctxs
    ensures m in Continue(s, m, after).ctxs && Continue(s, m, after).ctxs[m].terminated == s.ctxs[m].terminated
  {
    if after.Return? { FinallyKeepsTerminated(s, m); }
  }

  lemma TearsKeepTerminated(s: Edge, m: nat, t: Torn, after: After)
    requires m in s.ctxs
    ensures m in PumpTears(s, m, t, after).ctxs && PumpTears(s, m, t, after).ctxs[m].terminated == t.ctx.terminated
  {
    ContinueKeepsTerminated(Doing(s, m, t.ctx, t.acts), m, after);
  }

  lemma HangupTerminates(s: Edge, m: nat, after: After)
    requires m in s.ctxs
    ensures m in HandleHangup(s, m, after).ctxs && HandleHangup(s, m, after).ctxs[m].terminated
  {
    if s.ctxs[m].terminated {
      ContinueKeepsTerminated(s, m, after);
    } else {
      var c := s.ctxs[m].(terminated := true);
      TearKeepsIdentity(c, true, AwaitTasks);
      TearsKeepTerminated(Pop(Emit(s, Some(m), c.call, HangupEvent), c.call), m, TearTasks(c, true), after);
    }
  }

  lemma GotEndsSilently(s: Edge, m: nat, r: A.Pulled)
    requires m in s.ctxs && Live(s, m) && !s.ctxs[m].terminated
    ensures var t := PumpGot(s, m, r); m in t.ctxs && (!Live(t, m) && !t.ctxs[m].terminated <==> r.End?)
  {
    FinallyKeepsTerminated(s, m);
    HangupTerminates(s, m, Return);
  }

  lemma EnableEndsSilently(s: Edge, m: nat, r: Enable)
    requires Enabled(s, PumpEnabled(m, r)) && Live(s, m) && !s.ctxs[m].terminated
    ensures var t := PumpEnable(s, m, r);
      m in t.ctxs && (!Live(t, m) && !t.ctxs[m].terminated <==> EndsSilently(s, PumpEnabled(m, r)))
  {
    var c := s.ctxs[m];
    FinallyKeepsTerminated(s, m);
    HangupTerminates(Emit(s, Some(m), c.call, Alert), m, HangUp);
    if r.EnableOk? {
      FinallyKeepsTerminated(Doing(s, m, c.(cpcm := true, recording := r.recording), PathBegun(r.recording)), m);
    }
  }

  lemma LiveFacts(s: Edge, m: nat)
    requires m in s.ctxs && CtxOk(s, m) && Live(s, m)
    ensures !s.ctxs[m].terminated && !s.ctxs[m].cancelled
    ensures !s.ctxs[m].pump.Down? && !s.ctxs[m].pump.HangingUp? && !s.ctxs[m].pump.Done?
  {
  }

  lemma SilentStep(s: Edge, x: Step, m: nat)
    requires Inv(s) && m in s.ctxs && Live(s, m)
    requires IsPumpStep(x) && x.m == m && Enabled(s, x)
    ensures var t := Apply(s, x);
      m in t.ctxs && (!Live(t, m) && !t.ctxs[m].terminated <==> EndsSilently(s, x))
  {
    assert CtxOk(s, m);
    LiveFacts(s, m);
    match x
    case PumpPulled(_) => GotEndsSilently(s.(at := A.Pull(s.at, m).0), m, A.Pull(s.at, m).1);
    case PumpEnabled(_, r) => EnableEndsSilently(s, m, r);
    case PumpJoined(_, joined, _) => if !joined { HangupTerminates(s, m, Resume); }
  }

  /**
  A step of its own pump takes a registered call out of the map unreported exactly
  when the stream ended without a hangup (the port was closed), CPCMREG was refused
  while the uplink was down, or setting up the audio path raised.
  */
  lemma SilentExactly(xs: seq<Step>, x: Step, m: nat)
    requires Legal(BOOT, xs) && IsPumpStep(x) && x.m == m && Enabled(Run(BOOT, xs), x)
    requires m in Run(BOOT, xs).ctxs && Live(Run(BOOT, xs), m)
    ensures var s := Run(BOOT, xs); var t := Apply(s, x);
      m in t.ctxs && (!Live(t, m) && !t.ctxs[m].terminated <==> EndsSilently(s, x))
  {
    hide Run, Legal, Inv, Enabled, Apply, EndsSilently;
    RunFromBoot(xs);
    SilentStep(Run(BOOT, xs), x, m);
  }

  lemma GotStaysTerminated(s: Edge, m: nat, r: A.Pulled)
    requires m in s.ctxs && s.ctxs[m].terminated
    ensures m in PumpGot(s, m, r).ctxs && PumpGot(s, m, r).ctxs[m].terminated
  {
    FinallyKeepsTerminated(s, m);
    HangupTerminates(s, m, Return);
  }

  lemma EnableStaysTerminated(s: Edge, m: nat, r: Enable)
    requires m in s.ctxs && s.ctxs[m].terminated
    ensures m in PumpEnable(s, m, r).ctxs && PumpEnable(s, m, r).ctxs[m].terminated
  {
    var c := s.ctxs[m];
    match r
    case EnableRefused =>
      FinallyKeepsTerminated(s, m);
      HangupTerminates(Emit(s, Some(m), c.call, Alert), m, HangUp);
    case EnableCrashed => FinallyKeepsTerminated(s, m);
    case EnableOk(recording, _) =>
      FinallyKeepsTerminated(Doing(s, m, c.(cpcm := true, recording := recording), PathBegun(recording)), m);
  }

  // ----- Which calls are never reported -----------------------------------------------------------

  /** No longer registered, and its hangup never sent. */
  predicate Dropped(s: Edge, m: nat) {
    m in s.ctxs && !Live(s, m) && !s.ctxs[m].terminated
  }

  /** The step takes m out of the map unreported: its own pump's, or that of stop(). */
  predicate DropsCall(s: Edge, x: Step, m: nat)
    requires Enabled(s, x)
  {
    && m in s.ctxs && Live(s, m)
    && ((IsPumpStep(x) && x.m == m && EndsSilently(s, x)) || (x == StopAdvanced && StopTakes(s, s.ctxs[m].call)))
  }

  lemma CancelKeepsTerminated(s: Edge, m: nat)
    requires m in s.ctxs && m in s.at.streams
    ensures m in PumpCancel(s, m).ctxs && PumpCancel(s, m).ctxs[m].terminated == s.ctxs[m].terminated
  {
    hide PumpFinally, A.Close;
    FinallyKeepsTerminated(s, m);
    FinallyKeepsTerminated(s.(at := A.Close(s.at, m)), m);
  }

  lemma TerminatedStays(s: Edge, x: Step, m: nat)
    requires m in s.ctxs && IsPumpStep(x) && x.m == m && Enabled(s, x) && s.ctxs[m].terminated
    ensures m in Apply(s, x).ctxs && Apply(s, x).ctxs[m].terminated
  {
    match x
    case PumpPulled(_) => GotStaysTerminated(s.(at := A.Pull(s.at, m).0), m, A.Pull(s.at, m).1);
    case PumpEnabled(_, r) => EnableStaysTerminated(s, m, r);
    case PumpJoined(_, _, _) => HangupTerminates(s, m, Resume);
    case PumpHungUp(_) =>
    case PumpTorn(_) =>
      TearKeepsIdentity(s.ctxs[m], true, s.ctxs[m].pump.phase);
      TearsKeepTerminated(s, m, TearAfter(s.ctxs[m], s.ctxs[m].pump.phase), s.ctxs[m].pump.after);
    case PumpCancelled(_) => CancelKeepsTerminated(s, m);
  }

  lemma DroppedPumpsOnlyFinish(s: Edge, x: Step, m: nat)
    requires m in s.ctxs && CtxOk(s, m) && Dropped(s, m) && IsPumpStep(x) && x.m == m && Enabled(s, x)
    ensures x.PumpTorn? || x.PumpCancelled?
  {
  }

  lemma DroppedKeepsSilent(s: Edge, x: Step, m: nat)
    requires m in s.ctxs && CtxOk(s, m) && Dropped(s, m) && IsPumpStep(x) && x.m == m && Enabled(s, x)
    ensures m in Apply(s, x).ctxs && !Apply(s, x).ctxs[m].terminated
  {
    DroppedPumpsOnlyFinish(s, x, m);
    hide CtxOk, TearAfter, PumpTears, PumpCancel;
    if x.PumpTorn? {
      TearKeepsIdentity(s.ctxs[m], true, s.ctxs[m].pump.phase);
      TearsKeepTerminated(s, m, TearAfter(s.ctxs[m], s.ctxs[m].pump.phase), s.ctxs[m].pump.after);
    } else {
      CancelKeepsTerminated(s, m);
    }
  }

  /** Nobody comes back into the map. */
  lemma StaysUnregistered(s: Edge, t: Edge, m: nat)
    requires Global(s) && Global(t) && m in s.ctxs && m in t.ctxs && !Live(s, m)
    requires forall c :: c in t.calls ==> c in s.calls && t.calls[c] == s.calls[c]
    ensures !Live(t, m)
  {
  }

  lemma OwnStepDrops(s: Edge, x: Step, m: nat)
    requires Inv(s) && m in s.ctxs && IsPumpStep(x) && x.m == m && Enabled(s, x)
    ensures Dropped(Apply(s, x), m) <==> Dropped(s, m) || DropsCall(s, x, m)
  {
    hide Global, CtxOk, Apply, Enabled, EndsSilently;
    assert CtxOk(s, m);
    if Live(s, m) {
      SilentStep(s, x, m);
    } else if s.ctxs[m].terminated {
      TerminatedStays(s, x, m);
    } else {
      DroppedKeepsSilent(s, x, m);
      PumpTouchesOnlyItsOwn(s, x);
      StepKeepsInv(s, x);
      StaysUnregistered(s, Apply(s, x), m);
    }
  }

  lemma OtherPumpStepDrops(s: Edge, x: Step, m: nat)
    requires Inv(s) && IsPumpStep(x) && x.m != m && Enabled(s, x)
    ensures Dropped(Apply(s, x), m) <==> Dropped(s, m)
  {
    hide Inv, Apply, Enabled;
    PumpTouchesOnlyItsOwn(s, x);
    PumpStepPopsOwnKey(s, x);
  }

  lemma StopStepDrops(s: Edge, x: Step, m: nat)
    requires Global(s) && Enabled(s, x) && (x.StopAdvanced? || x.StopTorn?)
    ensures var t := Apply(s, x);
      && (m in t.ctxs <==> m in s.ctxs)
      && (m in s.ctxs ==> t.ctxs[m].call == s.ctxs[m].call && t.ctxs[m].terminated == s.ctxs[m].terminated)
      && t.calls == if x.StopAdvanced? then s.calls - {s.stop.keys[0]} else s.calls
  {
    hide A.Inv, TearTasks, TearAfter;
    if x.StopAdvanced? {
      var k := s.stop.keys[0];
      if k in s.calls { TearKeepsIdentity(s.ctxs[s.calls[k]], false, AwaitTasks); }
    } else {
      TearKeepsIdentity(s.ctxs[s.stop.current.value], false, s.stop.phase);
    }
  }

  lemma BackgroundStepDrops(s: Edge, x: Step, m: nat)
    requires Global(s) && Enabled(s, x) && !IsPumpStep(x) && !x.StopAdvanced? && !x.StopTorn?
    requires x.DialReturned? ==> s.at.dialing.value !in s.ctxs
    ensures Dropped(Apply(s, x), m) <==> Dropped(s, m)
  {
    hide A.Inv;
  }

  lemma DialledIsNew(s: Edge)
    requires Inv(s) && s.at.dialing.Some?
    ensures s.at.dialing.value !in s.ctxs
  {
    forall m | m in s.ctxs ensures m != s.at.dialing.value { assert CtxOk(s, m); }
  }

  lemma PumpStepIsKnown(s: Edge, x: Step)
    requires IsPumpStep(x) && Enabled(s, x)
    ensures x.m in s.ctxs
  {
  }

  lemma StepDrops(s: Edge, x: Step, m: nat)
    requires Inv(s) && Enabled(s, x)
    ensures Dropped(Apply(s, x), m) <==> Dropped(s, m) || DropsCall(s, x, m)
  {
    if IsPumpStep(x) {
      hide Apply, Enabled, Global, CtxOk;
      PumpStepIsKnown(s, x);
      if x.m == m { OwnStepDrops(s, x, m); } else { OtherPumpStepDrops(s, x, m); }
    } else if x.StopAdvanced? || x.StopTorn? {
      StopDrops(s, x, m);
    } else {
      if x.DialReturned? { DialledIsNew(s); }
      BackgroundStepDrops(s, x, m);
    }
  }

  lemma StopDrops(s: Edge, x: Step, m: nat)
    requires Inv(s) && Enabled(s, x) && (x.StopAdvanced? || x.StopTorn?)
    ensures Dropped(Apply(s, x), m) <==> Dropped(s, m) || DropsCall(s, x, m)
  {
    hide Global, CtxOk, Apply, EndsSilently;
    StopStepDrops(s, x, m);
    if m in s.ctxs && Live(s, m) { LiveIsNotOver(s, m); }
  }

  lemma LiveIsNotOver(s: Edge, m: nat)
    requires Inv(s) && m in s.ctxs && Live(s, m)
    ensures !s.ctxs[m].terminated
  {
    hide A.Inv;
    assert CtxOk(s, m);
  }

  /** Some step of the run drops m. */
  predicate DroppedOnTheWay(s: Edge, xs: seq<Step>, m: nat)
    requires Legal(s, xs)
    decreases |xs|
  {
    xs != [] && (DropsCall(s, xs[0], m) || DroppedOnTheWay(Apply(s, xs[0]), xs[1..], m))
  }

  lemma {:induction false} RunDrops(s: Edge, xs: seq<Step>, m: nat)
    requires Inv(s) && Legal(s, xs)
    ensures Dropped(Run(s, xs), m) <==> Dropped(s, m) || DroppedOnTheWay(s, xs, m)
    decreases |xs|
  {
    hide Inv, Dropped, DropsCall, Apply, Enabled;
    if xs != [] {
      StepKeepsInv(s, xs[0]);
      StepDrops(s, xs[0], m);
      RunDrops(Apply(s, xs[0]), xs[1..], m);
    }
  }

  /**
  Call by call: a call that is no longer registered has never been reported if and only
  if one of its own silent steps, or stop(), took it out of the map.
  */
  lemma UnreportedExactlyWhenDropped(xs: seq<Step>, m: nat)
    requires Legal(BOOT, xs) && m in Run(BOOT, xs).ctxs
    ensures var t := Run(BOOT, xs);
      (!Live(t, m) && !Said(t.sent, m, HangupEvent)) <==> DroppedOnTheWay(BOOT, xs, m)
  {
    hide Run, Legal, Inv, Said, WellSpoken, InTurn, DroppedOnTheWay;
    RunFromBoot([]);
    NothingDroppedAtBoot(m);
    RunDrops(BOOT, xs, m);
    TraceSafety(xs);
  }

  lemma NothingDroppedAtBoot(m: nat)
    ensures Legal(BOOT, []) && Run(BOOT, []) == BOOT && !Dropped(BOOT, m)
  {
  }

  /** No stop(), and no step that ends a call unreported. */
  predicate Loud(s: Edge, x: Step)
    requires Enabled(s, x)
  {
    !IsStopStep(x) && (IsPumpStep(x) ==> !EndsSilently(s, x))
  }

  predicate LoudRun(s: Edge, xs: seq<Step>)
    requires Legal(s, xs)
    decreases |xs|
  {
    xs == [] || (Loud(s, xs[0]) && LoudRun(Apply(s, xs[0]), xs[1..]))
  }

  lemma {:induction false} LoudRunDropsNothing(s: Edge, xs: seq<Step>, m: nat)
    requires Legal(s, xs) && LoudRun(s, xs)
    ensures !DroppedOnTheWay(s, xs, m)
    decreases |xs|
  {
    hide EndsSilently, Enabled, Apply;
    if xs != [] { LoudRunDropsNothing(Apply(s, xs[0]), xs[1..], m); }
  }

  /**
  In a run without stop() and without a silent ending, every context that is no
  longer registered has reported its hangup; so has every call whose pump is done.
  */
  lemma LoudRunReportsEveryCall(xs: seq<Step>, m: nat)
    requires Legal(BOOT, xs) && LoudRun(BOOT, xs) && m in Run(BOOT, xs).ctxs
    ensures var t := Run(BOOT, xs);
      (!Live(t, m) || t.ctxs[m].pump.Done?) ==> t.ctxs[m].terminated && Said(t.sent, m, HangupEvent)
  {
    hide Run, Legal, LoudRun, Global, Said, WellSpoken, InTurn, DroppedOnTheWay;
    RunFromBoot(xs);
    LoudRunDropsNothing(BOOT, xs, m);
    UnreportedExactlyWhenDropped(xs, m);
    TraceSafety(xs);
    var t := Run(BOOT, xs);
    assert CtxOk(t, m);
    if Live(t, m) { LiveFacts(t, m); }
  }

  // ----- One of them --------------------------------------------------------------------------------

  lemma RunStarts(s: Edge, x: Step, xs: seq<Step>)
    requires Enabled(s, x) && Legal(Apply(s, x), xs)
    ensures Legal(s, [x] + xs) && Run(s, [x] + xs) == Run(Apply(s, x), xs)
  {
    hide Enabled, Apply;
    assert ([x] + xs)[1..] == xs;
  }

  /** The link breaks while CPCMREG is on its way, and the modem refuses it. */
  const REFUSED_OFFLINE: seq<Step> := [LinkChanged(false)] + ([PumpEnabled(0, EnableRefused)] + [])

  /** A call is dialled while the uplink is up, answered, reported as connected, and then that. */
  const CONNECTED_THEN_REFUSED: seq<Step> :=
    [LinkChanged(true)] + ([DialCommand("a")] + ([DialReturned(None)] + ([PumpPulled(0)] + ([PollerWoke(0)]
      + ([PollerAnswered(0, A.ActiveCall)] + ([PumpPulled(0)] + REFUSED_OFFLINE))))))

  /** Call 0 is registered under "a" with its pump at `pump`, its stream at `stream`, and `items` in its queue. */
  predicate OneCall(s: Edge, pump: Pump, stream: A.Stream, items: seq<A.Item>, sent: seq<Sent>) {
    && s.calls == map["a" := 0] && s.ctxs == map[0 := NewCtx("a").(pump := pump)] && s.sent == sent && s.stop.NoStop?
    && s.at.active == Some(0) && s.at.queue == Some(0) && 0 in s.at.streams && s.at.streams[0] == stream
    && A.QueueItems(s.at, 0) == items
  }

  predicate Polling(s: Edge, asking: bool) {
    0 in s.at.polling && s.at.polling[0] == asking
  }

  const ACK: Sent := Sent(Some(0), "a", Ack)
  const CONNECTED: Sent := Sent(Some(0), "a", ConnectedEvent)

  lemma Dialled()
    ensures Enabled(BOOT, LinkChanged(true)) && Enabled(Apply(BOOT, LinkChanged(true)), DialCommand("a"))
    ensures var s := Apply(Apply(BOOT, LinkChanged(true)), DialCommand("a"));
      && Enabled(s, DialReturned(None))
      && OneCall(Apply(s, DialReturned(None)), NotStarted, A.Fresh, [], [ACK]) && Polling(Apply(s, DialReturned(None)), false)
  {
  }

  lemma StartsRinging(s: Edge)
    requires OneCall(s, NotStarted, A.Fresh, [], [ACK]) && Polling(s, false)
    ensures Enabled(s, PumpPulled(0))
    ensures var t := Apply(s, PumpPulled(0)); OneCall(t, Pulling, A.Open(0, false), [], [ACK]) && Polling(t, false)
  {
    assert A.Scan([], false) == ([], A.Blocked);
  }

  lemma IsAnswered(s: Edge)
    requires OneCall(s, Pulling, A.Open(0, false), [], [ACK]) && Polling(s, false)
    ensures Enabled(s, PollerWoke(0)) && Enabled(Apply(s, PollerWoke(0)), PollerAnswered(0, A.ActiveCall))
    ensures OneCall(Apply(Apply(s, PollerWoke(0)), PollerAnswered(0, A.ActiveCall)),
                    Pulling, A.Open(0, false), [A.Event(A.Connected(0))], [ACK])
  {
  }

  lemma IsReported(s: Edge)
    requires OneCall(s, Pulling, A.Open(0, false), [A.Event(A.Connected(0))], [ACK])
    ensures Enabled(s, PumpPulled(0)) && OneCall(Apply(s, PumpPulled(0)), Enabling, A.Open(0, true), [], [ACK, CONNECTED])
  {
    var items := [A.Event(A.Connected(0))];
    assert items[1..] == [];
    assert A.Scan(items, false) == ([], A.Yield(A.Connected(0)));
  }

  lemma IsDropped(s: Edge)
    requires OneCall(s, Enabling, A.Open(0, true), [], [ACK, CONNECTED])
    ensures Enabled(s, LinkChanged(false)) && Enabled(Apply(s, LinkChanged(false)), PumpEnabled(0, EnableRefused))
    ensures var t := Apply(Apply(s, LinkChanged(false)), PumpEnabled(0, EnableRefused));
      Dropped(t, 0) && t.ctxs[0].pump.Done? && t.sent == [ACK, CONNECTED]
  {
  }

  /** A call the cloud knows as connected is dropped without a word: CPCMREG is refused while the uplink is down. */
  lemma SomeCallsEndSilently()
    ensures Legal(BOOT, CONNECTED_THEN_REFUSED)
    ensures var t := Run(BOOT, CONNECTED_THEN_REFUSED);
      0 in t.ctxs && !Live(t, 0) && t.ctxs[0].pump.Done? && !Said(t.sent, 0, HangupEvent) && Said(t.sent, 0, ConnectedEvent)
  {
    hide Enabled, Apply, OneCall, Polling, Live;
    Dialled();
    var s1 := Apply(BOOT, LinkChanged(true));
    var s2 := Apply(s1, DialCommand("a"));
    var s3 := Apply(s2, DialReturned(None));
    StartsRinging(s3);
    var s4 := Apply(s3, PumpPulled(0));
    IsAnswered(s4);
    var s5 := Apply(s4, PollerWoke(0));
    var s6 := Apply(s5, PollerAnswered(0, A.ActiveCall));
    IsReported(s6);
    var s7 := Apply(s6, PumpPulled(0));
    IsDropped(s7);
    RunStarts(Apply(s7, LinkChanged(false)), PumpEnabled(0, EnableRefused), []);
    RunStarts(s7, LinkChanged(false), [PumpEnabled(0, EnableRefused)] + []);
    RunStarts(s6, PumpPulled(0), REFUSED_OFFLINE);
    var r6 := [PumpPulled(0)] + REFUSED_OFFLINE;
    RunStarts(s5, PollerAnswered(0, A.ActiveCall), r6);
    var r5 := [PollerAnswered(0, A.ActiveCall)] + r6;
    RunStarts(s4, PollerWoke(0), r5);
    RunStarts(s3, PumpPulled(0), [PollerWoke(0)] + r5);
    var r3 := [PumpPulled(0)] + ([PollerWoke(0)] + r5);
    RunStarts(s2, DialReturned(None), r3);
    RunStarts(s1, DialCommand("a"), [DialReturned(None)] + r3);
    RunStarts(BOOT, LinkChanged(true), [DialCommand("a")] + ([DialReturned(None)] + r3));
    assert Says([ACK, CONNECTED], 1, 0, ConnectedEvent);
  }
}
