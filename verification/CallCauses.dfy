/**
Why the cloud hears what it hears: every step of the edge process is at most one action of
the modem-call layer, and every event reported has its cause on the way.
*/
module CallCauses {
  import opened Options
  import opened CallLifecycle
  import opened CallSafety
  import opened CallTheorems
  import A = AtCalls
  import O = CallOrigins
  import S = CallSteps

  // ----- One step, one action ---------------------------------------------------------

  /** The step x is where the code performs the action a. */
  predicate Performs(s: Edge, x: Step, a: A.Action) {
    match a
    case Dial => x.DialCommand?
    case DialOk => x == DialReturned(None)
    case DialFail(cause) => x == DialReturned(Some(cause))
    case DialAbort => x.CallbackCancelled?
    case HangupCall(m) => x.CancelCommand? || x == PumpTorn(m) || x == PumpEnabled(m, EnableRefused)
    case HangupDone(h) =>
      || (x.CancelReturned? && s.callback == Cancelling(h))
      || (x.PumpHungUp? && x.m == h.call && x.m in s.ctxs && s.ctxs[x.m].pump == HangingUp(h))
    case Urc(cause) => x == UrcArrived(cause)
    case Wake(m) => x == PollerWoke(m)
    case Answered(m, answer) => x == PollerAnswered(m, answer)
    case PullNext(m) => x == PumpPulled(m)
    case CloseStream(m) => x == StreamClosed(m) || x == PumpCancelled(m)
    case Shutdown => x == AtClosed
  }

  /** From s to t the layer below did the actions, of which there is at most one. */
  predicate Moves(s: Edge, x: Step, t: Edge, acts: seq<A.Action>) {
    if acts == [] then t.at == s.at
    else |acts| == 1 && A.Enabled(s.at, acts[0]) && t.at == A.Apply(s.at, acts[0]) && Performs(s, x, acts[0])
  }

  lemma FinallyFrame(s: Edge, m: nat)
    requires m in s.ctxs
    ensures PumpFinally(s, m).at == s.at && PumpFinally(s, m).sent == s.sent
  {
    hide TearTasks;
  }

  lemma ContinueFrame(s: Edge, m: nat, after: After)
    requires m in s.ctxs
    ensures var t := Continue(s, m, after);
      t.sent == s.sent && t.at == if after.HangUp? then A.HangupBegin(s.at, m) else s.at
  {
    hide PumpFinally;
    if after.Return? { FinallyFrame(s, m); }
  }

  lemma TearsFrame(s: Edge, m: nat, t: Torn, after: After)
    requires m in s.ctxs
    ensures var u := PumpTears(s, m, t, after);
      u.sent == s.sent && (u.at == s.at || (after.HangUp? && u.at == A.HangupBegin(s.at, m)))
  {
    hide Continue, Deeds, A.HangupBegin;
    ContinueFrame(Doing(s, m, t.ctx, t.acts), m, after);
  }

  lemma HangupFrame(s: Edge, m: nat, after: After)
    requires m in s.ctxs
    ensures var u := HandleHangup(s, m, after);
      && (u.at == s.at || (after.HangUp? && u.at == A.HangupBegin(s.at, m)))
      && (u.sent == s.sent || u.sent == s.sent + [Sent(Some(m), s.ctxs[m].call, HangupEvent)])
  {
    hide Continue, PumpTears, TearTasks, A.HangupBegin;
    var c := s.ctxs[m];
    if c.terminated {
      ContinueFrame(s, m, after);
    } else {
      TearsFrame(Pop(Emit(s, Some(m), c.call, HangupEvent), c.call), m, TearTasks(c.(terminated := true), true), after);
    }
  }

  lemma PumpPullMoves(s: Edge, m: nat)
    requires Enabled(s, PumpPulled(m))
    ensures Moves(s, PumpPulled(m), Apply(s, PumpPulled(m)), [A.PullNext(m)])
  {
    hide HandleHangup, PumpFinally, A.Pull, A.HangupBegin;
    var u := s.(at := A.Pull(s.at, m).0);
    FinallyFrame(u, m);
    HangupFrame(u, m, Return);
  }

  lemma OtherPumpMoves(s: Edge, x: Step) returns (acts: seq<A.Action>)
    requires Enabled(s, x) && (x.PumpEnabled? || x.PumpJoined? || x.PumpTorn? || x.PumpCancelled?)
    ensures Moves(s, x, Apply(s, x), acts)
  {
    hide HandleHangup, PumpFinally, PumpTears, TearAfter, Deeds, A.HangupBegin, A.Close;
    var t := Apply(s, x);
    match x
    case PumpEnabled(m, outcome) =>
      HangupFrame(Emit(s, Some(m), s.ctxs[m].call, Alert), m, HangUp);
      FinallyFrame(s, m);
      if outcome.EnableOk? {
        FinallyFrame(Doing(s, m, s.ctxs[m].(cpcm := true, recording := outcome.recording), PathBegun(outcome.recording)), m);
      }
      acts := if t.at == s.at then [] else [A.HangupCall(m)];
    case PumpJoined(m, _, _) =>
      HangupFrame(s, m, Resume);
      acts := [];
    case PumpTorn(m) =>
      TearsFrame(s, m, TearAfter(s.ctxs[m], s.ctxs[m].pump.phase), s.ctxs[m].pump.after);
      acts := if t.at == s.at then [] else [A.HangupCall(m)];
    case PumpCancelled(m) =>
      FinallyFrame(s, m);
      FinallyFrame(s.(at := A.Close(s.at, m)), m);
      acts := if s.ctxs[m].pump.Pulling? then [A.CloseStream(m)] else [];
  }

  /** The steps of the message callback. */
  predicate IsCallback(x: Step) {
    x.DialCommand? || x.DialReturned? || x.CancelCommand? || x.CancelReturned? || x.CallbackCancelled?
  }

  lemma CallbackMoves(s: Edge, x: Step) returns (acts: seq<A.Action>)
    requires Inv(s) && Enabled(s, x) && IsCallback(x)
    ensures Moves(s, x, Apply(s, x), acts)
  {
    hide A.Inv, CtxOk, A.HangupBegin, A.HangupEnd, A.DialBegin, A.DialAccepted, A.DialFailed, A.DialAborted;
    match x
    case DialCommand(call) => acts := if call !in s.calls && s.at.active.None? then [A.Dial] else [];
    case DialReturned(failure) => acts := if failure.Some? then [A.DialFail(failure.value)] else [A.DialOk];
    case CancelCommand(call) =>
      acts := if call in s.calls then [A.HangupCall(s.calls[call])] else [];
      if call in s.calls { NoTarget(s.at, s.calls[call]); }
    case CancelReturned => acts := [A.HangupDone(s.callback.h)];
    case CallbackCancelled =>
      acts := if s.callback.Dialing? then [A.DialAbort] else [];
      NoDial(s.at);
  }

  lemma NoDial(a: A.At)
    ensures a.dialing.None? ==> A.DialAborted(a) == a
  {
  }

  lemma RestMoves(s: Edge, x: Step) returns (acts: seq<A.Action>)
    requires Inv(s) && Enabled(s, x) && !IsCallback(x)
    requires !x.PumpPulled? && !x.PumpEnabled? && !x.PumpJoined? && !x.PumpTorn? && !x.PumpCancelled?
    ensures Moves(s, x, Apply(s, x), acts)
  {
    hide Inv, TearTasks, TearAfter, Deeds, A.HangupEnd, A.Close, A.Aclose, A.PollAnswer, A.PollWake, A.OnUrc;
    if x.PumpHungUp? { HungUpIsCaptured(s, x.m); }
    acts :=
      match x
      case UrcArrived(cause) => [A.Urc(cause)]
      case PollerWoke(m) => [A.Wake(m)]
      case PollerAnswered(m, answer) => [A.Answered(m, answer)]
      case PumpHungUp(m) => [A.HangupDone(s.ctxs[m].pump.h)]
      case StreamClosed(m) => [A.CloseStream(m)]
      case AtClosed => [A.Shutdown]
      case _ => [];
  }

  lemma HungUpIsCaptured(s: Edge, m: nat)
    requires Inv(s) && m in s.ctxs && s.ctxs[m].pump.HangingUp?
    ensures s.ctxs[m].pump.h == A.Hangup(m, m) && s.ctxs[m].pump.h in s.at.hangups
  {
    hide A.Inv, Fits;
    S.HungUpIsOwn(s, m);
    assert CtxOk(s, m);
  }

  lemma NoTarget(a: A.At, m: nat)
    ensures A.HangupTarget(a, m).None? ==> A.HangupBegin(a, m) == a
  {
  }

  /** Every step of the edge process is at most one action of the layer below, and of its own kind. */
  lemma StepMovesAt(s: Edge, x: Step) returns (acts: seq<A.Action>)
    requires Inv(s) && Enabled(s, x)
    ensures Moves(s, x, Apply(s, x), acts)
  {
    hide Inv, Apply, Enabled, Moves;
    if x.PumpPulled? {
      PumpPullMoves(s, x.m);
      acts := [A.PullNext(x.m)];
    } else if x.PumpEnabled? || x.PumpJoined? || x.PumpTorn? || x.PumpCancelled? {
      acts := OtherPumpMoves(s, x);
    } else if IsCallback(x) {
      acts := CallbackMoves(s, x);
    } else {
      acts := RestMoves(s, x);
    }
  }

  lemma {:induction false} RunMore(s: Edge, xs: seq<Step>, x: Step)
    requires Legal(s, xs + [x])
    ensures Legal(s, xs) && Enabled(Run(s, xs), x) && Run(s, xs + [x]) == Apply(Run(s, xs), x)
    decreases |xs|
  {
    hide Enabled, Apply;
    if xs == [] {
      assert xs + [x] == [x] && [x][1..] == [];
    } else {
      assert (xs + [x])[1..] == xs[1..] + [x];
      RunMore(Apply(s, xs[0]), xs[1..], x);
    }
  }

  lemma {:induction false} LegalMore(a: A.At, acts: seq<A.Action>, x: A.Action)
    requires A.Legal(a, acts) && A.Enabled(A.Run(a, acts), x)
    ensures A.Legal(a, acts + [x]) && A.Run(a, acts + [x]) == A.Apply(A.Run(a, acts), x)
    decreases |acts|
  {
    hide A.Enabled, A.Apply;
    if acts == [] {
      assert acts + [x] == [x] && [x][1..] == [];
    } else {
      assert (acts + [x])[1..] == acts[1..] + [x];
      LegalMore(A.Apply(a, acts[0]), acts[1..], x);
    }
  }

  /** So what is proved of every run of the modem-call layer holds of it inside every run of the edge process. */
  lemma {:induction false} EdgeRunsAreAtRuns(xs: seq<Step>) returns (acts: seq<A.Action>)
    requires Legal(BOOT, xs)
    ensures A.Legal(A.IDLE, acts) && A.Run(A.IDLE, acts) == Run(BOOT, xs).at
    decreases |xs|
  {
    hide Legal, Run, Apply, Enabled, Inv, A.Enabled, A.Apply;
    if xs == [] {
      acts := [];
      NothingHasRun();
    } else {
      var rest, x := xs[..|xs| - 1], xs[|xs| - 1];
      assert xs == rest + [x];
      RunMore(BOOT, rest, x);
      acts := EdgeRunsAreAtRuns(rest);
      RunFromBoot(rest);
      var more := StepMovesAt(Run(BOOT, rest), x);
      if more != [] {
        LegalMore(A.IDLE, acts, more[0]);
        acts := acts + [more[0]];
      }
    }
  }

  lemma NothingHasRun()
    ensures Run(BOOT, []) == BOOT && A.Legal(A.IDLE, []) && A.Run(A.IDLE, []) == BOOT.at
  {
  }

  // ----- Causes ---------------------------------------------------------------------------

  /** The one step that brings `ev` into being. */
  predicate Brings(s: Edge, x: Step, ev: A.AtEvent) {
    match ev
    case Connected(m) => x == PollerAnswered(m, A.ActiveCall)
    case RemoteHangup(m, cause) =>
      || (x == UrcArrived(Some(cause)) && s.at.active == Some(m))
      || (cause == "manual_hangup" && x.CancelReturned? && s.callback.Cancelling? && s.callback.h.call == m)
      || (cause == "manual_hangup" && x == PumpHungUp(m))
      || (x == DialReturned(Some(cause)) && s.at.dialing == Some(m))
  }

  predicate OnTheWay(xs: seq<Step>, ev: A.AtEvent)
    requires Legal(BOOT, xs)
    decreases |xs|
  {
    xs != [] && Legal(BOOT, xs[..|xs| - 1])
    && (Brings(Run(BOOT, xs[..|xs| - 1]), xs[|xs| - 1], ev) || OnTheWay(xs[..|xs| - 1], ev))
  }

  lemma PerformedCauseBrings(s: Edge, x: Step, a: A.Action, ev: A.AtEvent)
    requires Performs(s, x, a) && O.Causes(s.at, a, ev)
    ensures Brings(s, x, ev)
  {
  }

  lemma {:induction false} KnownWasBrought(xs: seq<Step>, m: nat, ev: A.AtEvent)
    requires Legal(BOOT, xs) && ev.id == m && O.Known(Run(BOOT, xs).at, m, ev)
    ensures OnTheWay(xs, ev)
    decreases |xs|
  {
    hide Legal, Run, Apply, Enabled, Inv, A.Enabled, A.Apply, A.Inv, O.Known, O.Causes, Brings, Performs;
    if xs == [] {
      NothingKnown(m, ev);
    } else {
      var rest, x := xs[..|xs| - 1], xs[|xs| - 1];
      assert xs == rest + [x];
      RunMore(BOOT, rest, x);
      RunFromBoot(rest);
      var s := Run(BOOT, rest);
      var acts := StepMovesAt(s, x);
      if O.Known(s.at, m, ev) {
        KnownWasBrought(rest, m, ev);
      } else if acts != [] {
        AtIsSound(s);
        O.StepCauses(s.at, acts[0], m, ev);
        PerformedCauseBrings(s, x, acts[0], ev);
      }
    }
  }

  lemma AtIsSound(s: Edge)
    requires Inv(s)
    ensures A.Inv(s.at)
  {
  }

  lemma NothingKnown(m: nat, ev: A.AtEvent)
    ensures !O.Known(Run(BOOT, []).at, m, ev)
  {
  }

  // ----- What is said ------------------------------------------------------------------------

  /** Why a step may send e. */
  predicate Reason(s: Edge, x: Step, e: Sent) {
    match e.msg
    case ConnectedEvent => x.PumpPulled? && e.owner == Some(x.m) && x.m in s.at.streams && Pulled(s, x.m, true)
    case HangupEvent =>
      || (x.PumpPulled? && e.owner == Some(x.m) && x.m in s.at.streams && Pulled(s, x.m, false))
      || (x.PumpEnabled? && x.outcome.EnableRefused? && e.owner == Some(x.m))
      || (x.PumpJoined? && !x.joined && e.owner == Some(x.m))
    case _ => true
  }

  predicate Pulled(s: Edge, m: nat, connected: bool)
    requires m in s.at.streams
  {
    A.Pull(s.at, m).1.Yield? && A.Pull(s.at, m).1.ev.Connected? == connected
  }

  ghost predicate Adds(s: Edge, x: Step, t: Edge, more: seq<Sent>) {
    t.sent == s.sent + more && forall e :: e in more ==> Reason(s, x, e)
  }

  /** The hangup a pump may report. */
  function Report(s: Edge, m: nat): Sent
    requires m in s.ctxs
  {
    Sent(Some(m), s.ctxs[m].call, HangupEvent)
  }

  lemma PumpPullSays(s: Edge, m: nat) returns (more: seq<Sent>)
    requires Enabled(s, PumpPulled(m))
    ensures Adds(s, PumpPulled(m), Apply(s, PumpPulled(m)), more)
  {
    hide HandleHangup, PumpFinally, A.Pull, A.HangupBegin;
    var u := s.(at := A.Pull(s.at, m).0);
    FinallyFrame(u, m);
    HangupFrame(u, m, Return);
    assert s.sent + [] == s.sent;
    more := if Apply(s, PumpPulled(m)).sent == s.sent then []
            else if Pulled(s, m, true) then [Sent(Some(m), s.ctxs[m].call, ConnectedEvent)]
            else [Report(s, m)];
  }

  lemma OtherPumpSays(s: Edge, x: Step) returns (more: seq<Sent>)
    requires Enabled(s, x) && (x.PumpEnabled? || x.PumpJoined? || x.PumpTorn? || x.PumpCancelled?)
    ensures Adds(s, x, Apply(s, x), more)
  {
    hide HandleHangup, PumpFinally, PumpTears, TearAfter, Deeds, A.HangupBegin, A.Close;
    var t := Apply(s, x);
    assert s.sent + [] == s.sent;
    match x
    case PumpEnabled(m, outcome) =>
      var alerted := Emit(s, Some(m), s.ctxs[m].call, Alert);
      HangupFrame(alerted, m, HangUp);
      FinallyFrame(s, m);
      if outcome.EnableOk? {
        FinallyFrame(Doing(s, m, s.ctxs[m].(cpcm := true, recording := outcome.recording), PathBegun(outcome.recording)), m);
      }
      assert alerted.sent + [Report(s, m)] == s.sent + [Sent(Some(m), s.ctxs[m].call, Alert), Report(s, m)];
      more := if t.sent == s.sent then []
              else if t.sent == alerted.sent then [Sent(Some(m), s.ctxs[m].call, Alert)]
              else [Sent(Some(m), s.ctxs[m].call, Alert), Report(s, m)];
    case PumpJoined(m, _, _) =>
      HangupFrame(s, m, Resume);
      more := if t.sent == s.sent then [] else [Report(s, m)];
    case PumpTorn(m) =>
      TearsFrame(s, m, TearAfter(s.ctxs[m], s.ctxs[m].pump.phase), s.ctxs[m].pump.after);
      more := [];
    case PumpCancelled(m) =>
      FinallyFrame(s, m);
      FinallyFrame(s.(at := A.Close(s.at, m)), m);
      more := [];
  }

  lemma RestSays(s: Edge, x: Step) returns (more: seq<Sent>)
    requires Enabled(s, x) && !x.PumpPulled? && !x.PumpEnabled? && !x.PumpJoined? && !x.PumpTorn? && !x.PumpCancelled?
    ensures Adds(s, x, Apply(s, x), more)
  {
    hide TearTasks, TearAfter, Deeds, A.HangupBegin, A.HangupEnd, A.Close, A.Aclose, A.DialAccepted, A.DialFailed, A.DialBegin, A.PollAnswer, A.PollWake, A.OnUrc;
    assert s.sent + [] == s.sent;
    var t := Apply(s, x);
    more := if t.sent == s.sent then [] else [t.sent[|s.sent|]];
  }

  lemma StepSays(s: Edge, x: Step) returns (more: seq<Sent>)
    requires Enabled(s, x)
    ensures Adds(s, x, Apply(s, x), more)
  {
    hide Apply, Enabled, Adds;
    if x.PumpPulled? {
      more := PumpPullSays(s, x.m);
    } else if x.PumpEnabled? || x.PumpJoined? || x.PumpTorn? || x.PumpCancelled? {
      more := OtherPumpSays(s, x);
    } else {
      more := RestSays(s, x);
    }
  }

  lemma SaidAnew(sent: seq<Sent>, more: seq<Sent>, m: nat, msg: Msg) returns (e: Sent)
    requires Said(sent + more, m, msg) && !Said(sent, m, msg)
    ensures e in more && e.owner == Some(m) && e.msg == msg
  {
    var all := sent + more;
    var i :| 0 <= i < |all| && Says(all, i, m, msg);
    e := all[i];
    if i < |sent| { assert Says(sent, i, m, msg); }
    assert e == more[i - |sent|];
  }

  lemma PulledIsKnown(a: A.At, m: nat)
    requires A.Inv(a) && m in a.streams && A.Pull(a, m).1.Yield?
    ensures var ev := A.Pull(a, m).1.ev; ev.id == m && O.Known(A.Pull(a, m).0, m, ev)
  {
    A.InvForStream(a, m);
    if a.streams[m].Fresh? { A.ScanKeepsTags(A.QueueItems(a, m), false, m); }
    if a.streams[m].Open? { A.ScanKeepsTags(A.QueueItems(a, m), a.streams[m].seen, m); }
  }

  lemma PullSetsAt(s: Edge, m: nat)
    requires Enabled(s, PumpPulled(m))
    ensures Apply(s, PumpPulled(m)).at == A.Pull(s.at, m).0
  {
    hide A.Pull, HandleHangup, PumpFinally;
    PumpPullMoves(s, m);
  }

  /** CPCMREG was refused for m, or its RTC join failed. */
  ghost predicate PathFailed(xs: seq<Step>, m: nat) {
    exists i :: 0 <= i < |xs| && (xs[i] == PumpEnabled(m, EnableRefused) || (xs[i].PumpJoined? && xs[i].m == m && !xs[i].joined))
  }

  ghost predicate HungUpOnTheWay(xs: seq<Step>, m: nat)
    requires Legal(BOOT, xs)
  {
    exists cause :: OnTheWay(xs, A.RemoteHangup(m, cause))
  }

  lemma MoreOnTheWay(xs: seq<Step>, x: Step, m: nat)
    requires Legal(BOOT, xs) && Legal(BOOT, xs + [x])
    ensures OnTheWay(xs, A.Connected(m)) ==> OnTheWay(xs + [x], A.Connected(m))
    ensures HungUpOnTheWay(xs, m) ==> HungUpOnTheWay(xs + [x], m)
    ensures PathFailed(xs, m) ==> PathFailed(xs + [x], m)
  {
    hide Legal, Run, Brings;
    var all := xs + [x];
    assert all[..|all| - 1] == xs;
    if HungUpOnTheWay(xs, m) {
      var cause :| OnTheWay(xs, A.RemoteHangup(m, cause));
      assert OnTheWay(all, A.RemoteHangup(m, cause));
    }
    if PathFailed(xs, m) {
      var i :| 0 <= i < |xs| && (xs[i] == PumpEnabled(m, EnableRefused) || (xs[i].PumpJoined? && xs[i].m == m && !xs[i].joined));
      assert all[i] == xs[i];
    }
  }

  /** What the cloud has been told of m is not out of nothing. */
  ghost predicate Founded(xs: seq<Step>, m: nat)
    requires Legal(BOOT, xs)
  {
    && (Said(Run(BOOT, xs).sent, m, ConnectedEvent) ==> OnTheWay(xs, A.Connected(m)))
    && (Said(Run(BOOT, xs).sent, m, HangupEvent) ==> HungUpOnTheWay(xs, m) || PathFailed(xs, m))
  }

  lemma NewsIsFounded(xs: seq<Step>, x: Step, m: nat, msg: Msg)
    requires Legal(BOOT, xs) && Enabled(Run(BOOT, xs), x) && Legal(BOOT, xs + [x]) && Run(BOOT, xs + [x]) == Apply(Run(BOOT, xs), x)
    requires !Said(Run(BOOT, xs).sent, m, msg) && Said(Apply(Run(BOOT, xs), x).sent, m, msg)
    ensures msg == ConnectedEvent ==> OnTheWay(xs + [x], A.Connected(m))
    ensures msg == HangupEvent ==> HungUpOnTheWay(xs + [x], m) || PathFailed(xs + [x], m)
  {
    hide Legal, Run, Apply, Inv, OnTheWay, Said, O.Known, A.Pull, A.Inv;
    var s := Run(BOOT, xs);
    RunFromBoot(xs);
    AtIsSound(s);
    var more := StepSays(s, x);
    var e := SaidAnew(s.sent, more, m, msg);
    assert Reason(s, x, e);
    if x.PumpPulled? && x.m in s.at.streams && A.Pull(s.at, x.m).1.Yield? {
      PulledIsKnown(s.at, x.m);
      PullSetsAt(s, x.m);
      KnownWasBrought(xs + [x], x.m, A.Pull(s.at, x.m).1.ev);
    }
    assert (xs + [x])[|xs|] == x;
  }

  /**
  The cloud is told of a connected call only if a poller of that call was told of an active
  one, and of a hung up call only if a hangup-class URC was read while it was active, a
  hangup() of it returned, its dial failed, its CPCMREG was refused or its RTC join failed.
  */
  lemma {:induction false} NothingIsReportedWithoutACause(xs: seq<Step>, m: nat)
    requires Legal(BOOT, xs)
    ensures Founded(xs, m)
    decreases |xs|
  {
    hide Legal, Run, Apply, Enabled, OnTheWay, Said, HungUpOnTheWay, PathFailed;
    if xs == [] {
      NothingSaid(m);
    } else {
      var rest, x := xs[..|xs| - 1], xs[|xs| - 1];
      assert xs == rest + [x];
      RunMore(BOOT, rest, x);
      NothingIsReportedWithoutACause(rest, m);
      MoreOnTheWay(rest, x, m);
      var s, t := Run(BOOT, rest), Run(BOOT, xs);
      if Said(t.sent, m, ConnectedEvent) && !Said(s.sent, m, ConnectedEvent) { NewsIsFounded(rest, x, m, ConnectedEvent); }
      if Said(t.sent, m, HangupEvent) && !Said(s.sent, m, HangupEvent) { NewsIsFounded(rest, x, m, HangupEvent); }
    }
  }

  lemma NothingSaid(m: nat)
    ensures forall msg :: !Said(Run(BOOT, []).sent, m, msg)
  {
  }
}
