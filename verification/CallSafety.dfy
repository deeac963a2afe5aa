/** Safety of the call lifecycle over every run: one inductive invariant, read off in several ways. */
module CallSafety {
  import opened Options
  import opened CallLifecycle
  import A = AtCalls

  // ----- What a context has told the cloud, and done to the audio path ---------

  /** How far the message trace of one context has got. */
  datatype Verdict = Silent | Acked | Talking | Alerted | Over | Bad

  function NextVerdict(v: Verdict, msg: Msg): Verdict {
    match (v, msg)
    case (Silent, Ack) => Acked
    case (Acked, Duplicate) => Acked
    case (Talking, Duplicate) => Talking
    case (Acked, ConnectedEvent) => Talking
    case (Talking, Alert) => Alerted
    case (Acked, HangupEvent) => Over
    case (Talking, HangupEvent) => Over
    case (Alerted, HangupEvent) => Over
    case _ => Bad
  }

  function VerdictOn(sent: seq<Sent>, m: nat): Verdict {
    if sent == [] then Silent
    else
      var v, last := VerdictOn(sent[..|sent| - 1], m), sent[|sent| - 1];
      if last.owner == Some(m) then NextVerdict(v, last.msg) else v
  }

  /** How far the audio path of one context has got. */
  datatype Power =
    | Dark
    | Lit(tape: Tape)
    | Bridged(tape: Tape)
    | OnAir(tape: Tape)
    | Departed(tape: Tape)
    | Off(tape: Tape)
    | OffWithRings(tape: Tape)
    | Shut(tape: Tape)
    | Wrong

  /** How far its recording has got. */
  datatype Tape = Blank | Rolling | Written

  function NextPower(p: Power, act: Act): Power {
    match (p, act)
    case (Dark, PcmEnabled) => Lit(Blank)
    case (Lit(Blank), RecordingBegun) => Lit(Rolling)
    case (Lit(t), BridgeBuilt) => Bridged(t)
    case (Bridged(t), AudioStarted) => OnAir(t)
    case (Bridged(t), BridgeLeft) => Departed(t)
    case (OnAir(t), BridgeLeft) => Departed(t)
    case (Lit(Rolling), Finalized) => Lit(Written)
    case (Departed(Rolling), Finalized) => Departed(Written)
    case (Lit(t), PcmDisabled) => if t.Rolling? then Wrong else Off(t)
    case (Departed(t), PcmDisabled) => if t.Rolling? then Wrong else OffWithRings(t)
    case (OffWithRings(t), RingsClosed) => Shut(t)
    case _ => Wrong
  }

  /** Nothing is on, nothing is being recorded. */
  predicate AtRest(p: Power) {
    p.Dark? || ((p.Off? || p.Shut?) && !p.tape.Rolling?)
  }

  /** The bridge is in RTC, and a recording runs exactly when c has a recorder. */
  predicate InRtc(p: Power, c: Ctx) {
    (p.Bridged? || p.OnAir?) && (p.tape.Rolling? <==> c.recording)
  }

  function PowerOn(deeds: seq<Deed>, m: nat): Power {
    if deeds == [] then Dark
    else
      var p, last := PowerOn(deeds[..|deeds| - 1], m), deeds[|deeds| - 1];
      if last.owner == m then NextPower(p, last.act) else p
  }

  function PowerAfter(p: Power, acts: seq<Act>): Power
    decreases |acts|
  {
    if acts == [] then p else PowerAfter(NextPower(p, acts[0]), acts[1..])
  }

  lemma EmitVerdict(s: Edge, owner: Option<nat>, call: string, msg: Msg, m: nat)
    ensures VerdictOn(Emit(s, owner, call, msg).sent, m) ==
            if owner == Some(m) then NextVerdict(VerdictOn(s.sent, m), msg) else VerdictOn(s.sent, m)
  {
  }

  lemma PowerOfOne(deeds: seq<Deed>, d: Deed, k: nat)
    ensures PowerOn(deeds + [d], k) == if d.owner == k then NextPower(PowerOn(deeds, k), d.act) else PowerOn(deeds, k)
  {
  }

  lemma {:induction false} DeedsPower(deeds: seq<Deed>, m: nat, acts: seq<Act>, k: nat)
    ensures PowerOn(deeds + Deeds(m, acts), k) ==
            if k == m then PowerAfter(PowerOn(deeds, k), acts) else PowerOn(deeds, k)
    decreases |acts|
  {
    if acts == [] {
      assert deeds + Deeds(m, acts) == deeds;
    } else {
      var first := deeds + [Deed(m, acts[0])];
      assert deeds + Deeds(m, acts) == first + Deeds(m, acts[1..]);
      PowerOfOne(deeds, Deed(m, acts[0]), k);
      DeedsPower(first, m, acts[1..], k);
    }
  }

  // ----- The invariant ----------------------------------------------------------

  /** m is the context the cloud reaches under its call id. */
  predicate Live(s: Edge, m: nat)
    requires m in s.ctxs
  {
    s.ctxs[m].call in s.calls && s.calls[s.ctxs[m].call] == m
  }

  /** Control point of the pump against the generator it iterates. */
  predicate StreamFits(c: Ctx, st: A.Stream, m: nat) {
    match c.pump
    case NotStarted => st.Fresh? || st.Single?
    case Pulling => st.Open? && (c.terminated ==> st == A.Open(m, true))
    case Enabling => st == A.Open(m, true)
    case Joining => st == A.Open(m, true)
    case HangingUp(h) => st == A.Open(m, true) && h == A.Hangup(m, m)
    case Down(_, Finish) => true
    case Down(_, Return) => st.AtHangup?
    case Down(_, _) => st == A.Open(m, true)
    case Done => true
  }

  /** Who may be doing what with m. */
  predicate RolesOk(c: Ctx, live: bool, stopping: bool, phase: Phase) {
    && (live ==>
          && !c.terminated && !c.cancelled && c.tracked && !stopping
          && (c.pump.NotStarted? || c.pump.Pulling? || c.pump.Enabling? || c.pump.Joining?))
    && (!live && !c.terminated && !c.cancelled ==> c.pump.Done? || (c.pump.Down? && c.pump.after.Finish?))
    && (c.cancelled ==>
          && !c.terminated
          && (c.pump.Done? || c.pump.NotStarted? || c.pump.Pulling? || c.pump.Enabling? || c.pump.Joining?)
          && (!c.pump.Done? ==> stopping && phase.AwaitTasks? && c.tracked))
    && (c.terminated ==> !stopping && (c.pump.Pulling? || c.pump.HangingUp? || c.pump.Down? || c.pump.Done?))
    && (c.pump.HangingUp? ==> c.terminated)
    && (c.pump.Down? && !c.pump.after.Finish? ==> c.terminated)
    && (c.pump.Down? ==> !stopping)
    && (stopping ==> c.cancelled)
  }

  /** Nothing of the call is left on the audio path. */
  predicate Idle(c: Ctx) {
    !c.cpcm && !c.bridge && !c.rings && !c.recording && c.audio == 0
  }

  /** The audio path under a teardown suspended in `phase` (a running call counts as AwaitTasks). */
  predicate Held(c: Ctx, phase: Option<Phase>, power: Power) {
    match phase
    case None => Idle(c) && AtRest(power)
    case Some(AwaitTasks) =>
      if c.bridge then c.cpcm && c.rings && InRtc(power, c) && (c.audio > 0 ==> power.OnAir?)
      else Idle(c) && AtRest(power)
    case Some(Leaving) =>
      c.bridge && c.cpcm && c.rings && c.audio == 0 && !c.tracked && InRtc(power, c)
    case Some(Disabling) =>
      && !c.cpcm && !c.bridge && !c.recording && c.audio == 0 && !c.tracked
      && (if c.rings then power.OffWithRings? else power.Off?) && !power.tape.Rolling?
  }

  function HoldOf(c: Ctx, live: bool, stopping: bool, phase: Phase): Option<Phase> {
    if live then Some(AwaitTasks)
    else if c.pump.Down? then Some(c.pump.phase)
    else if stopping then Some(phase)
    else None
  }

  /** Before the first `connected`: nothing switched on, nothing but the ack sent. */
  predicate Unconnected(c: Ctx, st: A.Stream) {
    c.pump.NotStarted? || (c.pump.Pulling? && st.Open? && !st.seen)
  }

  predicate AudioOk(c: Ctx, st: A.Stream, live: bool, hold: Option<Phase>, power: Power) {
    && Held(c, hold, power)
    && (live && (Unconnected(c, st) || c.pump.Enabling?) ==> Idle(c) && power == Dark)
    && (live && c.pump.Joining? ==> c.bridge && c.audio == 0 && power.Bridged?)
    && (live && c.pump.Pulling? && c.bridge ==> power.OnAir?)
  }

  /** What m has told the cloud, by its control point. */
  predicate TraceOk(c: Ctx, st: A.Stream, live: bool, v: Verdict) {
    && v != Bad && v != Silent && v != Alerted
    && (v == Over <==> c.terminated)
    && (live && Unconnected(c, st) ==> v == Acked)
    && (live && (c.pump.Enabling? || c.pump.Joining?) ==> v == Talking)
  }

  function PhaseOf(s: Edge): Phase {
    if s.stop.Stopping? then s.stop.phase else AwaitTasks
  }

  /** Where m stands among the calls of the process. */
  predicate PlaceOk(s: Edge, m: nat)
    requires m in s.ctxs
  {
    && m in s.at.streams
    && (s.at.active.Some? ==> m <= s.at.active.value)
    && (s.ctxs[m].call in s.calls ==> m <= s.calls[s.ctxs[m].call])
  }

  /** The local state of m against what the rest of the process knows of it. */
  predicate Fits(c: Ctx, st: A.Stream, m: nat, live: bool, stopping: bool, phase: Phase, power: Power, v: Verdict) {
    && StreamFits(c, st, m)
    && RolesOk(c, live, stopping, phase)
    && AudioOk(c, st, live, HoldOf(c, live, stopping, phase), power)
    && TraceOk(c, st, live, v)
  }

  predicate CtxOk(s: Edge, m: nat)
    requires m in s.ctxs
  {
    && PlaceOk(s, m)
    && Fits(s.ctxs[m], s.at.streams[m], m, Live(s, m), StopOn(s) == Some(m), PhaseOf(s),
            PowerOn(s.deeds, m), VerdictOn(s.sent, m))
    && (s.ctxs[m].pump.HangingUp? ==> s.ctxs[m].pump.h in s.at.hangups)
  }

  /** Contexts sharing a call id never interleave their messages. */
  predicate InTurn(sent: seq<Sent>) {
    forall i, j :: 0 <= i < j < |sent| && sent[i].owner.Some? && sent[j].owner.Some? && sent[i].call == sent[j].call
      ==> sent[i].owner.value <= sent[j].owner.value
  }

  predicate Global(s: Edge) {
    && A.Inv(s.at)
    && (forall k :: k in s.calls ==> s.calls[k] in s.ctxs && s.ctxs[s.calls[k]].call == k)
    && (s.callback.Dialing? <==> s.at.dialing.Some?)
    && (s.callback.Dialing? ==> s.callback.call !in s.calls)
    && (s.callback.Cancelling? ==> s.callback.h in s.at.hangups)
    && (StopOn(s).Some? ==> StopOn(s).value in s.ctxs)
    && (forall i :: 0 <= i < |s.sent| && s.sent[i].owner.Some? ==>
          s.sent[i].owner.value in s.ctxs && s.ctxs[s.sent[i].owner.value].call == s.sent[i].call)
    && (forall i :: 0 <= i < |s.deeds| ==> s.deeds[i].owner in s.ctxs)
    && InTurn(s.sent)
  }

  predicate Inv(s: Edge) {
    Global(s) && forall m :: m in s.ctxs ==> CtxOk(s, m)
  }

  // ----- Teardown on one context --------------------------------------------------

  /** What a teardown may start from: a running or idle call, or one whose audio path failed to build. */
  predicate TearReady(c: Ctx, power: Power) {
    || Held(c, Some(AwaitTasks), power)
    || (c.cpcm && !c.bridge && !c.rings && c.audio == 0 && power == Lit(if c.recording then Rolling else Blank))
  }

  predicate SameCall(c: Ctx, d: Ctx) {
    d.call == c.call && d.terminated == c.terminated && d.pump == c.pump
  }

  lemma TearRestHolds(c: Ctx, power: Power)
    requires TearReady(c, power) && c.audio == 0 && !c.tracked
    ensures var t := TearRest(c); SameCall(c, t.ctx) && t.ctx.cancelled == c.cancelled && !t.ctx.tracked
    ensures var t := TearRest(c); Held(t.ctx, t.next, PowerAfter(power, t.acts)) && t.next != Some(AwaitTasks)
  {
    var t := TearRest(c);
    var left, final := if c.bridge then [BridgeLeft] else [], if c.recording then [Finalized] else [];
    var p1 := if c.bridge then Departed(power.tape) else power;
    assert PowerAfter(power, left) == p1;
    assert PowerAfter(p1, final) == if c.recording then NextPower(p1, Finalized) else p1;
    PowerAfterJoin(power, left, final);
    if c.cpcm {
      PowerAfterJoin(power, left + final, [PcmDisabled]);
    } else {
      assert t.acts == [];
    }
  }

  lemma {:induction false} PowerAfterJoin(p: Power, xs: seq<Act>, ys: seq<Act>)
    ensures PowerAfter(p, xs + ys) == PowerAfter(PowerAfter(p, xs), ys)
    decreases |xs|
  {
    if xs == [] {
      assert xs + ys == ys;
    } else {
      assert (xs + ys)[1..] == xs[1..] + ys;
      PowerAfterJoin(NextPower(p, xs[0]), xs[1..], ys);
    }
  }

  lemma TearTasksHolds(c: Ctx, byPump: bool, power: Power)
    requires if byPump then TearReady(c, power) else Held(c, Some(AwaitTasks), power)
    ensures var t := TearTasks(c, byPump); SameCall(c, t.ctx) && Held(t.ctx, t.next, PowerAfter(power, t.acts))
    ensures var t := TearTasks(c, byPump); t.ctx.cancelled == (c.cancelled || (!byPump && c.tracked && !c.pump.Done?))
    ensures var t := TearTasks(c, byPump); !byPump && c.tracked && !c.pump.Done? ==> t.next == Some(AwaitTasks) && t.ctx.tracked
  {
    hide A.Inv;
    var d := if !byPump && c.tracked && !c.pump.Done? then c.(cancelled := true) else c;
    if TasksDone(d, byPump) {
      if !d.bridge { TearRestHolds(d.(tracked := false), power); }
    }
  }

  lemma TearAfterHolds(c: Ctx, phase: Phase, power: Power)
    requires Held(c, Some(phase), power)
    requires phase.AwaitTasks? ==> c.audio == 0
    ensures var t := TearAfter(c, phase); SameCall(c, t.ctx) && t.ctx.cancelled == c.cancelled
    ensures var t := TearAfter(c, phase); Held(t.ctx, t.next, PowerAfter(power, t.acts)) && t.next != Some(AwaitTasks)
  {
    match phase
    case AwaitTasks => if !c.bridge { TearRestHolds(c.(tracked := false), power); }
    case Leaving => TearRestHolds(c, power);
    case Disabling =>
  }

  lemma NothingLeftToTear(c: Ctx, byPump: bool)
    requires Idle(c) && !c.tracked
    ensures TearTasks(c, byPump) == Torn(c, [], None)
  {
  }

  /** Once a teardown has run to its end, whoever repeats it does nothing and waits for nothing. */
  lemma TeardownTwice(c: Ctx, phase: Phase, power: Power, first: bool, again: bool)
    requires Held(c, Some(phase), power) && (phase.AwaitTasks? ==> c.audio == 0)
    ensures var t := TearAfter(c, phase); t.next.None? ==> TearTasks(t.ctx, again) == Torn(t.ctx, [], None)
    ensures var t := TearTasks(c, first); phase.AwaitTasks? && t.next.None? ==> TearTasks(t.ctx, again) == Torn(t.ctx, [], None)
  {
    var t, u := TearAfter(c, phase), TearTasks(c, first);
    TearAfterHolds(c, phase, power);
    if t.next.None? { NothingLeftToTear(t.ctx, again); }
    if phase.AwaitTasks? {
      TearTasksHolds(c, first, power);
      if u.next.None? { NothingLeftToTear(u.ctx, again); }
    }
  }

  // ----- One step on one context ----------------------------------------------------

  /** t differs from s, as far as the other contexts can tell, only in m. */
  predicate Frame(s: Edge, t: Edge, m: nat) {
    && t.ctxs.Keys == s.ctxs.Keys + {m}
    && (forall k :: k in s.ctxs && k != m ==>
          && t.ctxs[k] == s.ctxs[k]
          && (k in s.at.streams ==> k in t.at.streams && t.at.streams[k] == s.at.streams[k])
          && Live(t, k) == Live(s, k)
          && (t.ctxs[k].call in t.calls ==> k <= t.calls[t.ctxs[k].call] || (t.ctxs[k].call in s.calls && s.calls[t.ctxs[k].call] == t.calls[t.ctxs[k].call]))
          && (StopOn(t) == Some(k)) == (StopOn(s) == Some(k))
          && (StopOn(s) == Some(k) ==> PhaseOf(t) == PhaseOf(s))
          && PowerOn(t.deeds, k) == PowerOn(s.deeds, k)
          && VerdictOn(t.sent, k) == VerdictOn(s.sent, k))
    && (t.at.active == s.at.active || t.at.active == None)
    && s.at.hangups <= t.at.hangups
  }

  predicate Others(s: Edge, m: nat) {
    forall k :: k in s.ctxs && k != m ==> CtxOk(s, k)
  }

  lemma FrameKeeps(s: Edge, t: Edge, m: nat, k: nat)
    requires Frame(s, t, m) && k in s.ctxs && k != m && CtxOk(s, k)
    ensures CtxOk(t, k)
  {
  }

  lemma OthersKeep(s: Edge, t: Edge, m: nat)
    requires Frame(s, t, m) && Others(s, m)
    ensures Others(t, m)
  {
    forall k | k in t.ctxs && k != m ensures CtxOk(t, k) { FrameKeeps(s, t, m, k); }
  }

  /** Everything but the local state of m is in order. */
  predicate InvBut(s: Edge, m: nat) {
    Global(s) && m in s.ctxs && PlaceOk(s, m) && Others(s, m)
  }

  /** Switching the local state of m, with acts, from a state in order elsewhere. */
  lemma LocalKeeps(s: Edge, m: nat, c: Ctx, acts: seq<Act>)
    requires InvBut(s, m) && c.call == s.ctxs[m].call
    ensures InvBut(Doing(s, m, c, acts), m)
    ensures PowerOn(Doing(s, m, c, acts).deeds, m) == PowerAfter(PowerOn(s.deeds, m), acts)
  {
    var t := Doing(s, m, c, acts);
    DeedsPower(s.deeds, m, acts, m);
    LocalGlobal(s, m, c, acts);
    assert Frame(s, t, m) by {
      forall k | k in s.ctxs && k != m ensures PowerOn(t.deeds, k) == PowerOn(s.deeds, k) { DeedsPower(s.deeds, m, acts, k); }
    }
    OthersKeep(s, t, m);
  }

  lemma LocalGlobal(s: Edge, m: nat, c: Ctx, acts: seq<Act>)
    requires Global(s) && m in s.ctxs && c.call == s.ctxs[m].call
    ensures Global(Doing(s, m, c, acts))
  {
    DeedOwners(m, acts);
  }

  lemma {:induction false} DeedOwners(m: nat, acts: seq<Act>)
    ensures forall i :: 0 <= i < |Deeds(m, acts)| ==> Deeds(m, acts)[i].owner == m
    decreases |acts|
  {
    if acts != [] { DeedOwners(m, acts[1..]); }
  }

  lemma PopKeeps(s: Edge, m: nat)
    requires InvBut(s, m)
    requires s.ctxs[m].call in s.calls ==> Live(s, m)
    ensures InvBut(Pop(s, s.ctxs[m].call), m)
  {
    var t := Pop(s, s.ctxs[m].call);
    PopFrame(s, m);
    OthersKeep(s, t, m);
    PopGlobal(s, m);
  }

  lemma PopFrame(s: Edge, m: nat)
    requires m in s.ctxs
    requires s.ctxs[m].call in s.calls ==> Live(s, m)
    ensures Frame(s, Pop(s, s.ctxs[m].call), m)
  {
  }

  lemma PopGlobal(s: Edge, m: nat)
    requires Global(s) && m in s.ctxs
    ensures Global(Pop(s, s.ctxs[m].call))
  {
  }

  lemma EmitKeeps(s: Edge, m: nat, msg: Msg)
    requires InvBut(s, m) && Live(s, m)
    ensures InvBut(Emit(s, Some(m), s.ctxs[m].call, msg), m)
    ensures VerdictOn(Emit(s, Some(m), s.ctxs[m].call, msg).sent, m) == NextVerdict(VerdictOn(s.sent, m), msg)
  {
    EmitVerdict(s, Some(m), s.ctxs[m].call, msg, m);
    EmitFrame(s, m, msg);
    OthersKeep(s, Emit(s, Some(m), s.ctxs[m].call, msg), m);
    EmitInTurn(s, m, msg);
    EmitGlobal(s, m, msg);
  }

  lemma EmitFrame(s: Edge, m: nat, msg: Msg)
    requires m in s.ctxs
    ensures Frame(s, Emit(s, Some(m), s.ctxs[m].call, msg), m)
  {
    hide VerdictOn, PowerOn;
    var t := Emit(s, Some(m), s.ctxs[m].call, msg);
    forall k | k in s.ctxs && k != m ensures VerdictOn(t.sent, k) == VerdictOn(s.sent, k) {
      EmitVerdict(s, Some(m), s.ctxs[m].call, msg, k);
    }
  }

  lemma EmitGlobal(s: Edge, m: nat, msg: Msg)
    requires Global(s) && m in s.ctxs && InTurn(Emit(s, Some(m), s.ctxs[m].call, msg).sent)
    ensures Global(Emit(s, Some(m), s.ctxs[m].call, msg))
  {
  }

  lemma EmitInTurn(s: Edge, m: nat, msg: Msg)
    requires InvBut(s, m) && Live(s, m)
    ensures InTurn(Emit(s, Some(m), s.ctxs[m].call, msg).sent)
  {
  }

  /** Changing the modem-call layer under the stream of m. */
  lemma AtKeeps(s: Edge, m: nat, at: A.At)
    requires InvBut(s, m) && A.Inv(at) && A.FrameFor(s.at, at, m)
    ensures InvBut(s.(at := at), m)
  {
    OthersKeepUnder(s, m, at);
  }

  lemma OthersKeepUnder(s: Edge, m: nat, at: A.At)
    requires Others(s, m) && m in s.ctxs && A.FrameFor(s.at, at, m)
    ensures Others(s.(at := at), m)
  {
  }

  /** A new local state for m that fits makes the whole state good again. */
  lemma Settle(s: Edge, m: nat, c: Ctx, acts: seq<Act>)
    requires InvBut(s, m) && c.call == s.ctxs[m].call
    requires Fits(c, s.at.streams[m], m, Live(s, m), StopOn(s) == Some(m), PhaseOf(s),
                  PowerAfter(PowerOn(s.deeds, m), acts), VerdictOn(s.sent, m))
    requires c.pump.HangingUp? ==> c.pump.h in s.at.hangups
    ensures Inv(Doing(s, m, c, acts))
  {
    hide A.Inv;
    LocalKeeps(s, m, c, acts);
    Whole(Doing(s, m, c, acts), m);
  }

  lemma SettleAt(s: Edge, m: nat, c: Ctx)
    requires InvBut(s, m) && c.call == s.ctxs[m].call
    requires Fits(c, s.at.streams[m], m, Live(s, m), StopOn(s) == Some(m), PhaseOf(s),
                  PowerOn(s.deeds, m), VerdictOn(s.sent, m))
    requires c.pump.HangingUp? ==> c.pump.h in s.at.hangups
    ensures Inv(With(s, m, c))
  {
    assert s.deeds + Deeds(m, []) == s.deeds;
    assert Doing(s, m, c, []) == With(s, m, c);
    Settle(s, m, c, []);
  }

  lemma Whole(s: Edge, m: nat)
    requires InvBut(s, m) && CtxOk(s, m)
    ensures Inv(s)
  {
  }

  lemma Split(s: Edge, m: nat)
    requires Inv(s) && m in s.ctxs
    ensures InvBut(s, m) && CtxOk(s, m)
  {
  }

  // ----- The pump ---------------------------------------------------------------------

  predicate Sound(c: Ctx, v: Verdict) {
    v != Bad && v != Silent && v != Alerted && (v == Over <==> c.terminated)
  }

  /** m may enter its `finally`: still registered and ready for teardown, or gone already. */
  predicate FinallyReady(c: Ctx, live: bool, gone: bool, stopping: bool, phase: Phase, power: Power, v: Verdict) {
    && Sound(c, v)
    && if live then
         !c.terminated && !c.cancelled && !stopping && TearReady(c, power)
       else
         && gone && (c.terminated ==> !c.cancelled && !stopping) && (stopping ==> c.cancelled)
         && Held(c, if stopping then Some(phase) else None, power)
  }

  lemma FinishFits(t: Torn, st: A.Stream, m: nat, phase: Phase, power: Power, v: Verdict)
    requires Sound(t.ctx, v) && !t.ctx.cancelled && Held(t.ctx, t.next, power)
    ensures Fits(t.ctx.(pump := if t.next.Some? then Down(t.next.value, Finish) else Done),
                 st, m, false, false, phase, power, v)
  {
  }

  lemma PumpFinallyKeeps(s: Edge, m: nat)
    requires InvBut(s, m)
    requires FinallyReady(s.ctxs[m], Live(s, m), s.ctxs[m].call !in s.calls, StopOn(s) == Some(m), PhaseOf(s),
                          PowerOn(s.deeds, m), VerdictOn(s.sent, m))
    ensures Inv(PumpFinally(s, m))
  {
    hide A.Inv;
    var c := s.ctxs[m];
    if c.call in s.calls {
      var t := TearTasks(c, true);
      TearTasksHolds(c, true, PowerOn(s.deeds, m));
      var d := t.ctx.(pump := if t.next.Some? then Down(t.next.value, Finish) else Done);
      FinishFits(t, s.at.streams[m], m, PhaseOf(s), PowerAfter(PowerOn(s.deeds, m), t.acts), VerdictOn(s.sent, m));
      PopKeeps(s, m);
      Settle(Pop(s, c.call), m, d, t.acts);
    } else {
      SettleAt(s, m, c.(pump := Done));
    }
  }

  /** m is out of the map with a finished teardown and goes on with `after`. */
  predicate ContinueReady(c: Ctx, st: A.Stream, m: nat, after: After, power: Power, v: Verdict) {
    && Sound(c, v) && !c.cancelled && Held(c, None, power)
    && (!after.Finish? ==> c.terminated)
    && (after.Resume? || after.HangUp? ==> st == A.Open(m, true))
  }

  lemma ContinueKeeps(s: Edge, m: nat, after: After)
    requires InvBut(s, m) && !Live(s, m) && (after.Finish? || s.ctxs[m].call !in s.calls) && StopOn(s) != Some(m)
    requires ContinueReady(s.ctxs[m], s.at.streams[m], m, after, PowerOn(s.deeds, m), VerdictOn(s.sent, m))
    ensures Inv(Continue(s, m, after))
  {
    hide A.Inv;
    var c := s.ctxs[m];
    match after
    case Return => PumpFinallyKeeps(s, m);
    case Finish => SettleAt(s, m, c.(pump := Done));
    case Resume => SettleAt(s, m, c.(pump := Pulling));
    case HangUp =>
      A.InvForStream(s.at, m);
      A.HangupKeepsInv(s.at, m);
      AtKeeps(s, m, A.HangupBegin(s.at, m));
      SettleAt(s.(at := A.HangupBegin(s.at, m)), m, c.(pump := HangingUp(A.Hangup(m, m))));
  }

  /** The outcome of a teardown the pump of m runs, with the map entry already popped. */
  predicate TearsReady(t: Torn, st: A.Stream, m: nat, after: After, power: Power, v: Verdict) {
    && Sound(t.ctx, v) && !t.ctx.cancelled && Held(t.ctx, t.next, power)
    && (!after.Finish? ==> t.ctx.terminated)
    && (after.Resume? || after.HangUp? ==> st == A.Open(m, true))
    && (after.Return? ==> st.AtHangup? || t.next.None?)
  }

  lemma DownFits(t: Torn, st: A.Stream, m: nat, after: After, phase: Phase, power: Power, v: Verdict)
    requires TearsReady(t, st, m, after, power, v) && t.next.Some?
    ensures Fits(t.ctx.(pump := Down(t.next.value, after)), st, m, false, false, phase, power, v)
  {
  }

  lemma PumpTearsKeeps(s: Edge, m: nat, t: Torn, after: After)
    requires InvBut(s, m) && t.ctx.call == s.ctxs[m].call && StopOn(s) != Some(m)
    requires !Live(s, m) && (after.Finish? || s.ctxs[m].call !in s.calls)
    requires TearsReady(t, s.at.streams[m], m, after, PowerAfter(PowerOn(s.deeds, m), t.acts), VerdictOn(s.sent, m))
    ensures Inv(PumpTears(s, m, t, after))
  {
    hide A.Inv;
    var power := PowerAfter(PowerOn(s.deeds, m), t.acts);
    LocalKeeps(s, m, t.ctx, t.acts);
    var u := Doing(s, m, t.ctx, t.acts);
    if t.next.Some? {
      DownFits(t, s.at.streams[m], m, after, PhaseOf(s), power, VerdictOn(s.sent, m));
      SettleAt(u, m, t.ctx.(pump := Down(t.next.value, after)));
    } else {
      ContinueKeeps(u, m, after);
    }
  }

  /** The pump of m is about to run _handle_remote_hangup. */
  predicate HangupReady(c: Ctx, st: A.Stream, m: nat, after: After, live: bool, gone: bool, power: Power, v: Verdict) {
    && !c.cancelled && !after.Finish?
    && (after.Resume? || after.HangUp? ==> st == A.Open(m, true))
    && if c.terminated then gone && Held(c, None, power) && v == Over
       else
         && live && TearReady(c, power)
         && (v == Acked || v == Talking || v == Alerted)
         && (after.Return? ==> st.AtHangup? || Idle(c))
  }

  lemma ReportedAndPopped(s: Edge, m: nat)
    requires InvBut(s, m) && Live(s, m)
    ensures var u := Pop(Emit(s, Some(m), s.ctxs[m].call, HangupEvent), s.ctxs[m].call);
      InvBut(u, m) && VerdictOn(u.sent, m) == NextVerdict(VerdictOn(s.sent, m), HangupEvent)
  {
    EmitKeeps(s, m, HangupEvent);
    PopKeeps(Emit(s, Some(m), s.ctxs[m].call, HangupEvent), m);
  }

  lemma HangupTears(c: Ctx, st: A.Stream, m: nat, after: After, live: bool, gone: bool, power: Power, v: Verdict)
    requires HangupReady(c, st, m, after, live, gone, power, v) && !c.terminated
    ensures var t := TearTasks(c.(terminated := true), true);
      TearsReady(t, st, m, after, PowerAfter(power, t.acts), NextVerdict(v, HangupEvent)) && t.ctx.call == c.call
  {
    TearTasksHolds(c.(terminated := true), true, power);
  }

  lemma HandleHangupKeeps(s: Edge, m: nat, after: After)
    requires InvBut(s, m) && StopOn(s) != Some(m)
    requires HangupReady(s.ctxs[m], s.at.streams[m], m, after, Live(s, m), s.ctxs[m].call !in s.calls,
                         PowerOn(s.deeds, m), VerdictOn(s.sent, m))
    ensures Inv(HandleHangup(s, m, after))
  {
    hide A.Inv;
    var c := s.ctxs[m];
    if c.terminated {
      ContinueKeeps(s, m, after);
    } else {
      ReportedAndPopped(s, m);
      HangupTears(c, s.at.streams[m], m, after, Live(s, m), c.call !in s.calls, PowerOn(s.deeds, m), VerdictOn(s.sent, m));
      var u := Pop(Emit(s, Some(m), c.call, HangupEvent), c.call);
      PumpTearsKeeps(u, m, TearTasks(c.(terminated := true), true), after);
    }
  }

  // ----- Every step keeps the invariant: the pump ------------------------------------------

  /** The stream of a pump between NotStarted and Done is open, unless the dial failed. */
  lemma PumpOwnsModem(s: Edge, m: nat)
    requires Inv(s) && m in s.ctxs
    requires var p := s.ctxs[m].pump; !p.Done? && !(p.Down? && p.after.Finish?) && !(p.NotStarted? && s.at.streams[m].Single?)
    ensures s.at.active == Some(m)
    ensures s.ctxs[m].call in s.calls ==> Live(s, m)
  {
  }

  lemma PulledKeeps(s: Edge, m: nat)
    requires Inv(s) && Enabled(s, PumpPulled(m))
    ensures InvBut(s.(at := A.Pull(s.at, m).0), m)
  {
    Split(s, m);
    A.PullKeepsInv(s.at, m);
    A.PullFrame(s.at, m);
    AtKeeps(s, m, A.Pull(s.at, m).0);
  }

  lemma PulledNothing(s: Edge, m: nat)
    requires Inv(s) && Enabled(s, PumpPulled(m)) && A.Pull(s.at, m).1.Blocked?
    ensures Inv(PumpPull(s, m))
  {
    Split(s, m);
    PulledKeeps(s, m);
    A.PullOutcome(s.at, m);
    var u := s.(at := A.Pull(s.at, m).0);
    WaitingFits(s.ctxs[m], s.at.streams[m], u.at.streams[m], m, Live(s, m), PhaseOf(s), StopOn(s) == Some(m),
                PowerOn(s.deeds, m), VerdictOn(s.sent, m));
    SettleAt(u, m, s.ctxs[m].(pump := Pulling));
  }

  lemma WaitingFits(c: Ctx, was: A.Stream, now: A.Stream, m: nat, live: bool, phase: Phase, stopping: bool, power: Power, v: Verdict)
    requires Fits(c, was, m, live, stopping, phase, power, v) && !c.cancelled
    requires c.pump.NotStarted? || c.pump.Pulling?
    requires if was.Fresh? then now == A.Open(m, false) else was == now && was.Open?
    ensures Fits(c.(pump := Pulling), now, m, live, stopping, phase, power, v)
  {
  }

  lemma PulledEnd(s: Edge, m: nat)
    requires Inv(s) && Enabled(s, PumpPulled(m)) && A.Pull(s.at, m).1.End?
    ensures Inv(PumpPull(s, m))
  {
    hide Global, Others;
    Split(s, m);
    PulledKeeps(s, m);
    if !s.at.streams[m].Single? { PumpOwnsModem(s, m); }
    PumpFinallyKeeps(s.(at := A.Pull(s.at, m).0), m);
  }

  lemma PulledConnected(s: Edge, m: nat)
    requires Inv(s) && Enabled(s, PumpPulled(m)) && A.Pull(s.at, m).1.Yield? && A.Pull(s.at, m).1.ev.Connected?
    ensures Inv(PumpPull(s, m))
  {
    Split(s, m);
    A.PullOutcome(s.at, m);
    ConnectedFits(s.ctxs[m], s.at.streams[m], m, Live(s, m), StopOn(s) == Some(m), PhaseOf(s),
                  PowerOn(s.deeds, m), VerdictOn(s.sent, m));
    PulledKeeps(s, m);
    ConnectedKeeps(s.(at := A.Pull(s.at, m).0), m);
  }

  lemma ConnectedFits(c: Ctx, was: A.Stream, m: nat, live: bool, stopping: bool, phase: Phase, power: Power, v: Verdict)
    requires Fits(c, was, m, live, stopping, phase, power, v) && !c.cancelled
    requires c.pump.NotStarted? || c.pump.Pulling?
    requires was.Fresh? || was == A.Open(m, false)
    ensures live && !stopping && v == Acked
    ensures Fits(c.(pump := Enabling), A.Open(m, true), m, live, stopping, phase, power, Talking)
  {
  }

  lemma ConnectedKeeps(u: Edge, m: nat)
    requires InvBut(u, m) && Live(u, m)
    requires VerdictOn(u.sent, m) == Acked
    requires Fits(u.ctxs[m].(pump := Enabling), u.at.streams[m], m, Live(u, m), StopOn(u) == Some(m), PhaseOf(u),
                  PowerOn(u.deeds, m), Talking)
    ensures Inv(At(Emit(u, Some(m), u.ctxs[m].call, ConnectedEvent), m, Enabling))
  {
    hide Global, Others;
    EmitKeeps(u, m, ConnectedEvent);
    SettleAt(Emit(u, Some(m), u.ctxs[m].call, ConnectedEvent), m, u.ctxs[m].(pump := Enabling));
  }

  lemma PulledHangup(s: Edge, m: nat)
    requires Inv(s) && Enabled(s, PumpPulled(m)) && A.Pull(s.at, m).1.Yield? && A.Pull(s.at, m).1.ev.RemoteHangup?
    ensures Inv(PumpPull(s, m))
  {
    hide A.Inv, Others, PlaceOk, A.Pull;
    Split(s, m);
    PulledKeeps(s, m);
    A.PullOutcome(s.at, m);
    if s.ctxs[m].terminated { PumpOwnsModem(s, m); }
    HandleHangupKeeps(s.(at := A.Pull(s.at, m).0), m, Return);
  }

  lemma PumpPullKeeps(s: Edge, m: nat)
    requires Inv(s) && Enabled(s, PumpPulled(m))
    ensures Inv(PumpPull(s, m))
  {
    match A.Pull(s.at, m).1
    case Blocked => PulledNothing(s, m);
    case End => PulledEnd(s, m);
    case Yield(ev) => if ev.Connected? { PulledConnected(s, m); } else { PulledHangup(s, m); }
  }

  /** A pump awaiting the answer to CPCMREG: connected reported, nothing switched on. */
  predicate AtEnabling(s: Edge, m: nat)
    requires m in s.ctxs && m in s.at.streams
  {
    var c := s.ctxs[m];
    && Live(s, m) && StopOn(s) != Some(m) && !c.terminated && !c.cancelled && c.tracked
    && Idle(c) && PowerOn(s.deeds, m) == Dark && VerdictOn(s.sent, m) == Talking
    && s.at.streams[m] == A.Open(m, true)
  }

  lemma EnableRefusedKeeps(s: Edge, m: nat)
    requires InvBut(s, m) && AtEnabling(s, m)
    ensures Inv(PumpEnable(s, m, EnableRefused))
  {
    hide Global, Others;
    if s.online {
      EmitKeeps(s, m, Alert);
      HandleHangupKeeps(Emit(s, Some(m), s.ctxs[m].call, Alert), m, HangUp);
    } else {
      PumpFinallyKeeps(s, m);
    }
  }

  lemma PowerUp(recording: bool)
    ensures var tape := if recording then Rolling else Blank;
      PowerAfter(Dark, PathBegun(recording)) == Lit(tape) && PowerAfter(Dark, PathBegun(recording) + [BridgeBuilt]) == Bridged(tape)
  {
    PowerAfterJoin(Dark, PathBegun(recording), [BridgeBuilt]);
    if recording { assert [PcmEnabled, RecordingBegun][1..] == [RecordingBegun]; }
  }

  lemma JoiningFits(c: Ctx, m: nat, phase: Phase, recording: bool)
    requires !c.terminated && !c.cancelled && c.tracked && Idle(c)
    ensures Fits(c.(cpcm := true, recording := recording, bridge := true, rings := true, pump := Joining),
                 A.Open(m, true), m, true, false, phase, Bridged(if recording then Rolling else Blank), Talking)
  {
  }

  lemma EnableBuiltKeeps(s: Edge, m: nat, recording: bool)
    requires InvBut(s, m) && AtEnabling(s, m)
    ensures Inv(PumpEnable(s, m, EnableOk(recording, true)))
  {
    hide Global, Others;
    hide A.Inv;
    PowerUp(recording);
    JoiningFits(s.ctxs[m], m, PhaseOf(s), recording);
    var d := s.ctxs[m].(cpcm := true, recording := recording, bridge := true, rings := true, pump := Joining);
    Settle(s, m, d, PathBegun(recording) + [BridgeBuilt]);
  }

  lemma EnableUnbuiltKeeps(s: Edge, m: nat, recording: bool)
    requires InvBut(s, m) && AtEnabling(s, m)
    ensures Inv(PumpEnable(s, m, EnableOk(recording, false)))
  {
    hide Global, Others;
    PowerUp(recording);
    var d := s.ctxs[m].(cpcm := true, recording := recording);
    LocalKeeps(s, m, d, PathBegun(recording));
    PumpFinallyKeeps(Doing(s, m, d, PathBegun(recording)), m);
  }

  lemma EnablingFacts(s: Edge, m: nat)
    requires Inv(s) && PumpAt(s, m) && s.ctxs[m].pump.Enabling?
    ensures InvBut(s, m) && AtEnabling(s, m)
  {
  }

  lemma PumpEnableKeeps(s: Edge, m: nat, r: Enable)
    requires Inv(s) && Enabled(s, PumpEnabled(m, r))
    ensures Inv(PumpEnable(s, m, r))
  {
    hide Global, Others;
    EnablingFacts(s, m);
    match r
    case EnableRefused => EnableRefusedKeeps(s, m);
    case EnableCrashed => PumpFinallyKeeps(s, m);
    case EnableOk(recording, built) =>
      if built { EnableBuiltKeeps(s, m, recording); } else { EnableUnbuiltKeeps(s, m, recording); }
  }

  lemma PumpJoinKeeps(s: Edge, m: nat, joined: bool, pumps: nat)
    requires Inv(s) && Enabled(s, PumpJoined(m, joined, pumps))
    ensures Inv(PumpJoin(s, m, joined, pumps))
  {
    hide Global, Others;
    Split(s, m);
    if joined {
      var power := PowerOn(s.deeds, m);
      assert PowerAfter(power, [AudioStarted]) == OnAir(power.tape);
      Settle(s, m, s.ctxs[m].(audio := pumps, pump := Pulling), [AudioStarted]);
    } else {
      HandleHangupKeeps(s, m, Resume);
    }
  }

  lemma HungUpFits(c: Ctx, st: A.Stream, m: nat, live: bool, stopping: bool, phase: Phase, power: Power, v: Verdict)
    requires Fits(c, st, m, live, stopping, phase, power, v) && c.pump.HangingUp?
    ensures Fits(c.(pump := Pulling), st, m, live, stopping, phase, power, v) && c.pump.h == A.Hangup(m, m)
  {
  }

  lemma PumpHungUpKeeps(s: Edge, m: nat)
    requires Inv(s) && Enabled(s, PumpHungUp(m))
    ensures Inv(Apply(s, PumpHungUp(m)))
  {
    Split(s, m);
    var h := s.ctxs[m].pump.h;
    HungUpFits(s.ctxs[m], s.at.streams[m], m, Live(s, m), StopOn(s) == Some(m), PhaseOf(s),
               PowerOn(s.deeds, m), VerdictOn(s.sent, m));
    HangupEndKeeps(s, m, h);
    SettleAt(s.(at := A.HangupEnd(s.at, h)), m, s.ctxs[m].(pump := Pulling));
  }

  lemma HangupEndKeeps(s: Edge, m: nat, h: A.Hangup)
    requires InvBut(s, m) && h == A.Hangup(m, m) && h in s.at.hangups
    ensures InvBut(s.(at := A.HangupEnd(s.at, h)), m)
  {
    A.PutKeepsInv(s.at, m, A.Event(A.RemoteHangup(m, "manual_hangup")));
    AtKeeps(s, m, A.HangupEnd(s.at, h));
  }

  lemma PumpTornKeeps(s: Edge, m: nat)
    requires Inv(s) && Enabled(s, PumpTorn(m))
    ensures Inv(Apply(s, PumpTorn(m)))
  {
    hide A.Inv, Global, Others, PlaceOk;
    Split(s, m);
    var c := s.ctxs[m];
    TearAfterHolds(c, c.pump.phase, PowerOn(s.deeds, m));
    if !c.pump.after.Finish? { PumpOwnsModem(s, m); }
    PumpTearsKeeps(s, m, TearAfter(c, c.pump.phase), c.pump.after);
  }

  lemma PumpCancelKeeps(s: Edge, m: nat)
    requires Inv(s) && Enabled(s, PumpCancelled(m))
    ensures Inv(PumpCancel(s, m))
  {
    Split(s, m);
    var c := s.ctxs[m];
    match c.pump
    case NotStarted => SettleAt(s, m, c.(pump := Done));
    case Pulling =>
      PumpOwnsModem(s, m);
      A.CloseKeepsInv(s.at, m);
      A.CloseFrame(s.at, m);
      AtKeeps(s, m, A.Close(s.at, m));
      PumpFinallyKeeps(s.(at := A.Close(s.at, m)), m);
    case _ =>
      PumpOwnsModem(s, m);
      PumpFinallyKeeps(s, m);
  }

  lemma AudioEndedKeeps(s: Edge, m: nat)
    requires Inv(s) && Enabled(s, AudioEnded(m))
    ensures Inv(Apply(s, AudioEnded(m)))
  {
    hide Global, Others;
    Split(s, m);
    SettleAt(s, m, s.ctxs[m].(audio := s.ctxs[m].audio - 1));
  }

  lemma DoneFitsAnyStream(c: Ctx, was: A.Stream, now: A.Stream, m: nat, live: bool, stopping: bool, phase: Phase, power: Power, v: Verdict)
    requires Fits(c, was, m, live, stopping, phase, power, v) && c.pump.Done?
    ensures Fits(c, now, m, live, stopping, phase, power, v)
  {
  }

  lemma StreamClosedKeeps(s: Edge, m: nat)
    requires Inv(s) && Enabled(s, StreamClosed(m))
    ensures Inv(Apply(s, StreamClosed(m)))
  {
    Split(s, m);
    var u := s.(at := A.Close(s.at, m));
    A.CloseKeepsInv(s.at, m);
    A.CloseFrame(s.at, m);
    AtKeeps(s, m, A.Close(s.at, m));
    DoneFitsAnyStream(s.ctxs[m], s.at.streams[m], u.at.streams[m], m, Live(s, m), StopOn(s) == Some(m), PhaseOf(s),
                      PowerOn(s.deeds, m), VerdictOn(s.sent, m));
    Whole(u, m);
  }

  // ----- Every step keeps the invariant: the rest of the process ------------------------------

  /** No context can tell the difference. */
  predicate SameForAll(s: Edge, t: Edge) {
    && t.ctxs == s.ctxs && t.calls == s.calls && t.deeds == s.deeds
    && (forall k :: k in s.at.streams ==> k in t.at.streams && t.at.streams[k] == s.at.streams[k])
    && (t.at.active == s.at.active || t.at.active == None || (forall k :: k in s.ctxs ==> k <= t.at.active.value))
    && s.at.hangups <= t.at.hangups
    && StopOn(t) == StopOn(s) && (StopOn(s).Some? ==> PhaseOf(t) == PhaseOf(s))
    && (forall k :: k in s.ctxs ==> VerdictOn(t.sent, k) == VerdictOn(s.sent, k))
  }

  lemma SameForAllKeeps(s: Edge, t: Edge)
    requires Inv(s) && Global(t) && SameForAll(s, t)
    ensures Inv(t)
  {
    hide Global, Others;
    hide A.Inv;
    forall k | k in t.ctxs ensures CtxOk(t, k) { assert CtxOk(s, k); }
  }

  lemma GlobalMoves(s: Edge, t: Edge)
    requires Global(s) && A.Inv(t.at)
    requires t.calls == s.calls && t.ctxs == s.ctxs && t.sent == s.sent && t.deeds == s.deeds
    requires t.callback.Dialing? <==> t.at.dialing.Some?
    requires t.callback.Dialing? ==> t.callback.call !in t.calls
    requires t.callback.Cancelling? ==> t.callback.h in t.at.hangups
    requires StopOn(t).Some? ==> StopOn(t).value in t.ctxs
    ensures Global(t)
  {
  }

  /** The modem-call layer moved without touching any stream. */
  lemma AtMoved(s: Edge, at: A.At)
    requires Inv(s) && A.Inv(at)
    requires at.streams == s.at.streams && at.active == s.at.active && at.dialing == s.at.dialing
    requires s.at.hangups <= at.hangups
    ensures Inv(s.(at := at))
  {
    hide A.Inv;
    GlobalMoves(s, s.(at := at));
    SameForAllKeeps(s, s.(at := at));
  }

  lemma PollStepKeeps(s: Edge, m: nat, answer: A.Answer)
    requires Inv(s) && m in s.at.polling
    ensures Inv(s.(at := A.PollWake(s.at, m))) && Inv(s.(at := A.PollAnswer(s.at, m, answer)))
  {
    A.PollKeepsInv(s.at, m, answer);
    AtMoved(s, A.PollWake(s.at, m));
    AtMoved(s, A.PollAnswer(s.at, m, answer));
  }

  lemma AtStepKeeps(s: Edge, x: Step)
    requires Inv(s) && Enabled(s, x)
    requires IsAtStep(x)
    ensures Inv(Apply(s, x))
  {
    hide Inv;
    match x
    case UrcArrived(cause) => UrcKeeps(s, cause);
    case PollerWoke(m) => PollStepKeeps(s, m, A.AtFailure);
    case PollerAnswered(m, answer) => PollStepKeeps(s, m, answer);
    case AtClosed => AtClosedKeeps(s);
  }

  lemma UrcKeeps(s: Edge, cause: Option<string>)
    requires Inv(s)
    ensures Inv(Apply(s, UrcArrived(cause)))
  {
    hide A.Inv, CtxOk;
    A.StepKeepsInv(s.at, A.Urc(cause));
    AtMoved(s, A.OnUrc(s.at, cause));
  }

  lemma AtClosedKeeps(s: Edge)
    requires Inv(s)
    ensures Inv(Apply(s, AtClosed))
  {
    hide A.Inv, CtxOk;
    A.AcloseKeepsInv(s.at);
    AtMoved(s, A.Aclose(s.at));
  }

  lemma EmitForNobodyGlobal(s: Edge, call: string, msg: Msg)
    requires Global(s)
    ensures Global(Emit(s, None, call, msg))
  {
  }

  lemma EmitForNobody(s: Edge, call: string, msg: Msg)
    requires Inv(s)
    ensures Inv(Emit(s, None, call, msg))
  {
    hide A.Inv;
    var t := Emit(s, None, call, msg);
    EmitForNobodyGlobal(s, call, msg);
    assert SameForAll(s, t) by {
      forall k | k in s.ctxs ensures VerdictOn(t.sent, k) == VerdictOn(s.sent, k) { EmitVerdict(s, None, call, msg, k); }
    }
    SameForAllKeeps(s, t);
  }

  lemma DuplicateKeeps(s: Edge, call: string)
    requires Inv(s) && call in s.calls
    ensures Inv(Emit(s, Some(s.calls[call]), call, Duplicate))
  {
    hide Others;
    hide A.Inv;
    var m := s.calls[call];
    Split(s, m);
    EmitKeeps(s, m, Duplicate);
    Whole(Emit(s, Some(m), call, Duplicate), m);
  }

  lemma DialBeginSame(s: Edge, call: string)
    requires Inv(s) && s.at.active.None?
    ensures SameForAll(s, s.(at := A.DialBegin(s.at), callback := Dialing(call)))
  {
  }

  lemma DialBeginKeeps(s: Edge, call: string)
    requires Inv(s) && s.at.active.None? && call !in s.calls
    ensures Inv(s.(at := A.DialBegin(s.at), callback := Dialing(call)))
  {
    hide A.Inv;
    var t := s.(at := A.DialBegin(s.at), callback := Dialing(call));
    A.DialKeepsInv(s.at);
    GlobalMoves(s, t);
    DialBeginSame(s, call);
    SameForAllKeeps(s, t);
  }

  lemma DialStepKeeps(s: Edge, call: string)
    requires Inv(s) && s.callback.Quiet?
    ensures Inv(DialStep(s, call))
  {
    if call in s.calls {
      DuplicateKeeps(s, call);
    } else if s.at.active.Some? {
      EmitForNobody(s, call, Refused);
    } else {
      DialBeginKeeps(s, call);
    }
  }

  /** A step of the callback that touches neither streams nor the active call. */
  lemma CallbackMoved(s: Edge, at: A.At, callback: Callback)
    requires Inv(s) && A.Inv(at)
    requires at.streams == s.at.streams && at.active == s.at.active && at.dialing.None?
    requires s.at.hangups <= at.hangups
    requires !callback.Dialing? && (callback.Cancelling? ==> callback.h in at.hangups)
    ensures Inv(s.(at := at, callback := callback))
  {
    hide A.Inv;
    var t := s.(at := at, callback := callback);
    GlobalMoves(s, t);
    SameForAllKeeps(s, t);
  }

  lemma CancelStepKeeps(s: Edge, call: string)
    requires Inv(s) && s.callback.Quiet?
    ensures Inv(CancelStep(s, call))
  {
    if call in s.calls && A.HangupTarget(s.at, s.calls[call]).Some? {
      var m := s.calls[call];
      A.HangupKeepsInv(s.at, m);
      CallbackMoved(s, A.HangupBegin(s.at, m), Cancelling(A.Hangup(m, A.HangupTarget(s.at, m).value)));
    }
  }

  lemma CallbackKeeps(s: Edge, x: Step)
    requires Inv(s) && Enabled(s, x) && (x.CancelReturned? || x.CallbackCancelled?)
    ensures Inv(Apply(s, x))
  {
    if x.CancelReturned? {
      A.StepKeepsInv(s.at, A.HangupDone(s.callback.h));
      CallbackMoved(s, A.HangupEnd(s.at, s.callback.h), Quiet);
    } else {
      if s.at.dialing.Some? { A.DialKeepsInv(s.at); } else { assert A.DialAborted(s.at) == s.at; }
      CallbackMoved(s, A.DialAborted(s.at), Quiet);
    }
  }

  lemma {:induction false} NothingSaid(sent: seq<Sent>, m: nat)
    requires forall i :: 0 <= i < |sent| ==> sent[i].owner != Some(m)
    ensures VerdictOn(sent, m) == Silent
    decreases |sent|
  {
    if sent != [] { NothingSaid(sent[..|sent| - 1], m); }
  }

  lemma {:induction false} NothingDone(deeds: seq<Deed>, m: nat)
    requires forall i :: 0 <= i < |deeds| ==> deeds[i].owner != m
    ensures PowerOn(deeds, m) == Dark
    decreases |deeds|
  {
    if deeds != [] { NothingDone(deeds[..|deeds| - 1], m); }
  }

  /** The state DialDone reaches just before it sends the ack. */
  function Registered(s: Edge, failure: Option<string>): Edge
    requires s.callback.Dialing? && s.at.dialing.Some?
  {
    var m, call := s.at.dialing.value, s.callback.call;
    var at := if failure.Some? then A.DialFailed(s.at, m, failure.value) else A.DialAccepted(s.at, m);
    s.(at := at, callback := Quiet, calls := s.calls[call := m], ctxs := s.ctxs[m := NewCtx(call)])
  }

  lemma RegisteredOld(s: Edge, k: nat)
    requires Inv(s) && s.callback.Dialing? && s.at.dialing.Some? && k in s.ctxs
    ensures k != s.at.dialing.value && k <= s.at.dialing.value
    ensures k in s.at.streams && (s.ctxs[k].call == s.callback.call ==> !Live(s, k))
  {
  }

  lemma RegisteredFrame(s: Edge, failure: Option<string>)
    requires s.callback.Dialing? && s.at.dialing.Some? && s.at.dialing.value !in s.ctxs
    requires s.at.active == s.at.dialing
    requires forall k :: k in s.ctxs ==> k <= s.at.dialing.value && (s.ctxs[k].call == s.callback.call ==> !Live(s, k))
    ensures Frame(s, Registered(s, failure), s.at.dialing.value)
  {
  }

  lemma RegisteredGlobal(s: Edge, failure: Option<string>)
    requires Global(s) && s.callback.Dialing? && s.at.dialing.Some? && s.at.dialing.value !in s.ctxs
    ensures Global(Registered(s, failure))
  {
    if failure.Some? { A.DialFailedKeepsInv(s.at, failure.value); } else { A.DialKeepsInv(s.at); }
  }

  lemma DialDoneKeeps(s: Edge, failure: Option<string>)
    requires Inv(s) && Enabled(s, DialReturned(failure))
    ensures Inv(DialDone(s, failure))
  {
    var m, t := s.at.dialing.value, Registered(s, failure);
    forall k | k in s.ctxs
      ensures k != m && k <= m && (s.ctxs[k].call == s.callback.call ==> !Live(s, k))
    {
      RegisteredOld(s, k);
    }
    RegisteredFrame(s, failure);
    RegisteredGlobal(s, failure);
    OthersKeep(s, t, m);
    NothingSaid(s.sent, m);
    NothingDone(s.deeds, m);
    RegisteredSpeaks(t, m);
  }

  lemma RegisteredSpeaks(t: Edge, m: nat)
    requires Global(t) && Others(t, m) && m in t.ctxs && PlaceOk(t, m) && Live(t, m)
    requires t.ctxs[m] == NewCtx(t.ctxs[m].call) && StopOn(t) != Some(m)
    requires t.at.streams[m].Fresh? || t.at.streams[m].Single?
    requires VerdictOn(t.sent, m) == Silent && PowerOn(t.deeds, m) == Dark
    ensures Inv(Emit(t, Some(m), t.ctxs[m].call, Ack))
  {
    hide A.Inv;
    EmitKeeps(t, m, Ack);
    Whole(Emit(t, Some(m), t.ctxs[m].call, Ack), m);
  }

  // ----- stop() ---------------------------------------------------------------------------------

  lemma StopFlagKeeps(s: Edge, stop: Stop)
    requires Inv(s) && StopOn(s).None? && StopOn(s.(stop := stop)).None?
    ensures Inv(s.(stop := stop))
  {
    SameForAllKeeps(s, s.(stop := stop));
  }

  predicate StopsReady(t: Torn, st: A.Stream, m: nat, power: Power, v: Verdict) {
    var phase := if t.next.Some? then t.next.value else AwaitTasks;
    Fits(t.ctx, st, m, false, t.next.Some?, phase, power, v) && !t.ctx.pump.HangingUp?
  }

  lemma StopTearsFrame(s: Edge, m: nat, t: Torn, keys: seq<string>)
    requires InvBut(s, m) && t.ctx.call == s.ctxs[m].call
    requires s.stop.Stopping? && (s.stop.current.None? || s.stop.current == Some(m))
    ensures var u, w := Doing(s, m, t.ctx, t.acts), StopTears(s, m, t, keys);
      InvBut(w, m) && w.deeds == u.deeds && w.sent == u.sent && w.at == u.at && w.ctxs == u.ctxs && w.calls == u.calls
    ensures PowerOn(StopTears(s, m, t, keys).deeds, m) == PowerAfter(PowerOn(s.deeds, m), t.acts)
  {
    hide Others, Global;
    LocalKeeps(s, m, t.ctx, t.acts);
    var u, w := Doing(s, m, t.ctx, t.acts), StopTears(s, m, t, keys);
    StopFlagGlobal(u, w.stop, m);
    StopFlagFrame(u, w.stop, m);
    OthersKeep(u, w, m);
  }

  lemma StopFlagGlobal(s: Edge, stop: Stop, m: nat)
    requires Global(s) && m in s.ctxs && (stop.Stopping? && stop.current.Some? ==> stop.current == Some(m))
    ensures Global(s.(stop := stop))
  {
    hide A.Inv;
    GlobalMoves(s, s.(stop := stop));
  }

  lemma StopFlagFrame(s: Edge, stop: Stop, m: nat)
    requires m in s.ctxs
    requires s.stop.Stopping? && (s.stop.current.None? || s.stop.current == Some(m))
    requires stop.Stopping? && (stop.current.None? || stop.current == Some(m))
    ensures Frame(s, s.(stop := stop), m)
  {
    hide PowerOn, VerdictOn;
  }

  lemma StopTearsKeeps(s: Edge, m: nat, t: Torn, keys: seq<string>)
    requires InvBut(s, m) && t.ctx.call == s.ctxs[m].call && !Live(s, m)
    requires s.stop.Stopping? && (s.stop.current.None? || s.stop.current == Some(m))
    requires StopsReady(t, s.at.streams[m], m, PowerAfter(PowerOn(s.deeds, m), t.acts), VerdictOn(s.sent, m))
    ensures Inv(StopTears(s, m, t, keys))
  {
    StopTearsFrame(s, m, t, keys);
    Whole(StopTears(s, m, t, keys), m);
  }

  lemma StopTakesLive(c: Ctx, st: A.Stream, m: nat, power: Power, v: Verdict, phase: Phase)
    requires Fits(c, st, m, true, false, phase, power, v)
    ensures var t := TearTasks(c, false); t.ctx.call == c.call && StopsReady(t, st, m, PowerAfter(power, t.acts), v)
  {
  }

  lemma StopNextKeeps(s: Edge)
    requires Inv(s) && Enabled(s, StopAdvanced)
    ensures Inv(StopNext(s))
  {
    hide A.Inv;
    var k, rest := s.stop.keys[0], s.stop.keys[1..];
    if k in s.calls {
      var m := s.calls[k];
      Split(s, m);
      PopKeeps(s, m);
      StopTakesLive(s.ctxs[m], s.at.streams[m], m, PowerOn(s.deeds, m), VerdictOn(s.sent, m), PhaseOf(s));
      StopTearsKeeps(Pop(s, k), m, TearTasks(s.ctxs[m], false), rest);
    } else {
      StopFlagKeeps(s, Stopping(rest, None, AwaitTasks));
    }
  }

  lemma StopTornKeeps(s: Edge)
    requires Inv(s) && Enabled(s, StopTorn)
    ensures Inv(Apply(s, StopTorn))
  {
    hide Global, Others;
    hide A.Inv;
    var m := s.stop.current.value;
    Split(s, m);
    TearAfterHolds(s.ctxs[m], s.stop.phase, PowerOn(s.deeds, m));
    StopTearsKeeps(s, m, TearAfter(s.ctxs[m], s.stop.phase), s.stop.keys);
  }

  predicate IsPumpStep(x: Step) {
    x.PumpPulled? || x.PumpEnabled? || x.PumpJoined? || x.PumpHungUp? || x.PumpTorn? || x.PumpCancelled?
  }

  lemma PumpStepKeepsInv(s: Edge, x: Step)
    requires Inv(s) && Enabled(s, x) && IsPumpStep(x)
    ensures Inv(Apply(s, x))
  {
    hide A.Inv, Others, PlaceOk;
    hide Global;
    match x
    case PumpPulled(m) => PumpPullKeeps(s, m);
    case PumpEnabled(m, outcome) => PumpEnableKeeps(s, m, outcome);
    case PumpJoined(m, joined, pumps) => PumpJoinKeeps(s, m, joined, pumps);
    case PumpHungUp(m) => PumpHungUpKeeps(s, m);
    case PumpTorn(m) => PumpTornKeeps(s, m);
    case PumpCancelled(m) => PumpCancelKeeps(s, m);
  }

  lemma CommandKeepsInv(s: Edge, x: Step)
    requires Inv(s) && Enabled(s, x)
    requires IsCommandStep(x)
    ensures Inv(Apply(s, x))
  {
    hide Global, Others;
    hide A.Inv;
    match x
    case DialCommand(call) => DialStepKeeps(s, call);
    case DialReturned(failure) => DialDoneKeeps(s, failure);
    case CancelCommand(call) => CancelStepKeeps(s, call);
    case _ => CallbackKeeps(s, x);
  }

  lemma LinkKeeps(s: Edge, online: bool)
    requires Inv(s)
    ensures Inv(s.(online := online))
  {
    hide A.Inv;
    GlobalMoves(s, s.(online := online));
    SameForAllKeeps(s, s.(online := online));
  }

  predicate IsStopStep(x: Step) {
    x.StopCalled? || x.StopAdvanced? || x.StopTorn? || x.StopReturned?
  }

  lemma StopStepKeepsInv(s: Edge, x: Step)
    requires Inv(s) && Enabled(s, x) && IsStopStep(x)
    ensures Inv(Apply(s, x))
  {
    match x
    case StopCalled(keys) => StopFlagKeeps(s, Stopping(keys, None, AwaitTasks));
    case StopAdvanced => StopNextKeeps(s);
    case StopTorn => StopTornKeeps(s);
    case StopReturned => StopFlagKeeps(s, NoStop);
  }

  predicate IsCommandStep(x: Step) {
    x.DialCommand? || x.DialReturned? || x.CancelCommand? || x.CancelReturned? || x.CallbackCancelled?
  }

  predicate IsAtStep(x: Step) {
    x.UrcArrived? || x.PollerWoke? || x.PollerAnswered? || x.AtClosed?
  }

  lemma BackgroundKeepsInv(s: Edge, x: Step)
    requires Inv(s) && Enabled(s, x) && (x.AudioEnded? || x.StreamClosed? || x.LinkChanged?)
    ensures Inv(Apply(s, x))
  {
    hide Global, Others;
    match x
    case AudioEnded(m) => AudioEndedKeeps(s, m);
    case StreamClosed(m) => StreamClosedKeeps(s, m);
    case LinkChanged(online) => LinkKeeps(s, online);
  }

  lemma StepKeepsInv(s: Edge, x: Step)
    requires Inv(s) && Enabled(s, x)
    ensures Inv(Apply(s, x))
  {
    hide A.Inv;
    if IsPumpStep(x) { PumpStepKeepsInv(s, x); }
    else if IsStopStep(x) { StopStepKeepsInv(s, x); }
    else if IsCommandStep(x) { CommandKeepsInv(s, x); }
    else if IsAtStep(x) { AtStepKeeps(s, x); }
    else { BackgroundKeepsInv(s, x); }
  }

  lemma {:induction false} RunKeepsInv(s: Edge, xs: seq<Step>)
    requires Inv(s) && Legal(s, xs)
    ensures Inv(Run(s, xs))
    decreases |xs|
  {
    hide A.Inv;
    if xs != [] {
      StepKeepsInv(s, xs[0]);
      RunKeepsInv(Apply(s, xs[0]), xs[1..]);
    }
  }
}
