/**
Where the events of the modem-call layer come from and what becomes of them: what each
step leaves in the queues, over every run of `AtCalls`.
*/
module CallOrigins {
  import opened Options
  import opened AtCalls

  lemma NoCallNoPoller(a: At)
    requires forall m :: m in a.polling ==> a.poller == Some(m)
    ensures (if a.poller.Some? then a.polling - {a.poller.value} else a.polling) == map[]
  {
  }

  // ----- Into the queues -------------------------------------------------------------

  /** Only the queue of m changed, by `item` at its end. */
  ghost predicate Queued(a: At, b: At, m: nat, item: Item) {
    && b == a.(queues := b.queues)
    && QueueItems(b, m) == QueueItems(a, m) + [item]
    && forall k :: k != m ==> QueueItems(b, k) == QueueItems(a, k)
  }

  /**
  A hangup-class URC read during a call becomes one remote_hangup of that call, with its
  cause, at the end of the call's queue. Any other URC, or one outside a call, does nothing.
  */
  lemma HangupUrcIsQueued(xs: seq<Action>, cause: Option<string>)
    requires Legal(IDLE, xs)
    ensures var a := Run(IDLE, xs); var b := Apply(a, Urc(cause));
      match (a.active, cause)
      case (Some(m), Some(c)) => Queued(a, b, m, Event(RemoteHangup(m, c)))
      case _ => b == a
  {
    hide Run, Legal;
    RunFromIdle(xs);
  }

  /**
  A poller told of an active call puts one connected at the end of its call's queue and is
  gone; told of none, or of nothing at all, it queues nothing and sleeps again.
  */
  lemma ActiveAnswerIsQueued(xs: seq<Action>, m: nat, answer: Answer)
    requires Legal(IDLE, xs) && Enabled(Run(IDLE, xs), Answered(m, answer))
    ensures var a := Run(IDLE, xs); var b := Apply(a, Answered(m, answer));
      if answer.ActiveCall? then Queued(a.(polling := a.polling - {m}), b, m, Event(Connected(m)))
      else b == a.(polling := a.polling[m := false])
  {
    hide Run, Legal;
    RunFromIdle(xs);
  }

  /** A poller that wakes during its call asks the modem. */
  lemma PollerAsks(xs: seq<Action>, m: nat)
    requires Legal(IDLE, xs) && Enabled(Run(IDLE, xs), Wake(m))
    ensures var a := Run(IDLE, xs); Apply(a, Wake(m)) == a.(polling := a.polling[m := true])
  {
    hide Run, Legal;
    RunFromIdle(xs);
  }

  /** aclose() ends the stream of the call behind what is queued and stops its poller. */
  lemma ShutdownIsQueued(xs: seq<Action>)
    requires Legal(IDLE, xs)
    ensures var a := Run(IDLE, xs); var b := Apply(a, Shutdown);
      && (a.active.Some? ==> Queued(a.(polling := b.polling), b, a.active.value, Sentinel))
      && (a.active.None? ==> b == a.(polling := b.polling))
      && b.polling == map[]
  {
    hide Run, Legal;
    RunFromIdle(xs);
    NoCallNoPoller(Run(IDLE, xs));
  }

  /** Every call starts from nothing: a new number, the modem, an empty queue, no stream and no poller. */
  lemma DialStartsAfresh(xs: seq<Action>)
    requires Legal(IDLE, xs) && Enabled(Run(IDLE, xs), Dial)
    ensures var a := Run(IDLE, xs); var b := Apply(a, Dial); var m := a.next;
      && b.active == b.dialing == Some(m) && b.next == m + 1 && QueueItems(b, m) == []
      && m !in a.queues && m !in b.streams && b.polling == map[]
      && b.streams == a.streams && b.hangups == a.hangups && b.yielded == a.yielded
      && forall k :: k in a.queues ==> k in b.queues && b.queues[k] == a.queues[k]
  {
    hide Run, Legal;
    RunFromIdle(xs);
    var a := Run(IDLE, xs);
    if a.next in a.streams { InvForStream(a, a.next); }
    assert forall m :: m !in a.polling;
  }

  /**
  An accepted dial leaves the call with its queue, an unread stream and a poller; a failed
  one leaves the modem free and a stream of one remote_hangup with the cause; a cancelled
  one leaves everything as it was, the modem busy.
  */
  lemma DialOutcome(xs: seq<Action>, cause: string)
    requires Legal(IDLE, xs) && Run(IDLE, xs).dialing.Some?
    ensures var a := Run(IDLE, xs); var m := a.dialing.value; var b, c := Apply(a, DialOk), Apply(a, DialFail(cause));
      && b.active == Some(m) && b.queues == a.queues && b.dialing.None?
      && b.streams == a.streams[m := Fresh] && b.polling == a.polling[m := false]
      && c.active.None? && c.polling == map[] && c.dialing.None?
      && c.streams == a.streams[m := Single(RemoteHangup(m, cause))]
      && b.yielded == c.yielded == a.yielded[m := []]
      && Apply(a, DialAbort) == a.(dialing := None)
  {
    hide Run, Legal;
    RunFromIdle(xs);
    NoCallNoPoller(Run(IDLE, xs));
  }

  /** hangup() of the active call gets past its guard with that call's queue in hand; any other returns at once. */
  lemma HangupIsCaptured(xs: seq<Action>, m: nat)
    requires Legal(IDLE, xs)
    ensures var a := Run(IDLE, xs);
      Apply(a, HangupCall(m)) == if a.active == Some(m) then a.(hangups := a.hangups + {Hangup(m, m)}) else a
  {
    hide Run, Legal;
    RunFromIdle(xs);
  }

  // ----- Out of the queues -------------------------------------------------------------

  /** A connected behind another one: the only kind of item a stream skips. */
  predicate Skipped(item: Item, seen: bool) {
    seen && item.Event? && item.ev.Connected?
  }

  /** The position of the first item that is not skipped. */
  predicate IsNext(items: seq<Item>, seen: bool, k: nat) {
    k <= |items| && (forall i :: 0 <= i < k ==> Skipped(items[i], seen)) && (k < |items| ==> !Skipped(items[k], seen))
  }

  lemma {:induction false} SomethingIsNext(items: seq<Item>, seen: bool) returns (k: nat)
    ensures IsNext(items, seen, k)
    decreases |items|
  {
    k := 0;
    if items != [] && Skipped(items[0], seen) {
      k := SomethingIsNext(items[1..], seen);
      k := k + 1;
    }
  }

  lemma {:induction false} ScanTakesTheNext(items: seq<Item>, seen: bool, k: nat)
    requires IsNext(items, seen, k)
    ensures var (rest, r) := Scan(items, seen);
      if k == |items| then rest == [] && r.Blocked?
      else rest == items[k + 1..] && match items[k] case Sentinel => r.End? case Event(ev) => r == Yield(ev)
    decreases |items|
  {
    if k > 0 {
      assert items[1..][..k - 1] == items[1..k];
      ScanTakesTheNext(items[1..], seen, k - 1);
    }
  }

  /** Whether a stream that has been entered has handed out its connected. */
  predicate HasSeen(s: Stream) {
    s.Open? && s.seen
  }

  /**
  A pull on the waiting or unread stream of a call hands out the first queued item that is
  not a repeated connected, and leaves exactly what is behind it; without one it waits.
  After a remote_hangup, or at the end, nothing more is ever taken.
  */
  lemma PullTakesTheNext(xs: seq<Action>, m: nat, k: nat)
    requires Legal(IDLE, xs) && m in Run(IDLE, xs).streams
    requires var s := Run(IDLE, xs).streams[m]; (s.Fresh? || s.Open?) && IsNext(QueueItems(Run(IDLE, xs), m), HasSeen(s), k)
    ensures var a := Run(IDLE, xs); var (b, r) := Pull(a, m); var items := QueueItems(a, m);
      && b == Apply(a, PullNext(m)) && m in a.yielded && m in b.yielded
      && QueueItems(b, m) == (if k == |items| then [] else items[k + 1..])
      && (if k == |items| then r.Blocked? && b.active == a.active
          else match items[k]
               case Sentinel => r.End? && b.active.None?
               case Event(ev) => r == Yield(ev) && b.active == a.active && b.yielded[m] == a.yielded[m] + [ev])
  {
    hide Run, Legal;
    RunFromIdle(xs);
    var a := Run(IDLE, xs);
    InvForStream(a, m);
    ScanTakesTheNext(QueueItems(a, m), HasSeen(a.streams[m]), k);
  }

  /** The other streams: a failed dial hands out its one event, a hangup ends the call, an ended stream stays so. */
  lemma PullOfTheOthers(xs: seq<Action>, m: nat)
    requires Legal(IDLE, xs) && m in Run(IDLE, xs).streams
    ensures var a := Run(IDLE, xs); var (b, r) := Pull(a, m);
      match a.streams[m]
      case Single(ev) => r == Yield(ev) && b == a.(streams := a.streams[m := Ended], yielded := a.yielded[m := [ev]])
      case AtHangup => r.End? && b.active.None? && b.streams == a.streams[m := Ended] && b.queues == a.queues
      case Ended => r.End? && b == a
      case _ => true
  {
    hide Run, Legal;
    RunFromIdle(xs);
    var a := Run(IDLE, xs);
    InvForStream(a, m);
    if a.streams[m].Single? { assert a.yielded[m] + [a.streams[m].ev] == [a.streams[m].ev]; }
  }

  /** Closing a stream that was entered gives the modem back; closing one that was not leaves it busy. */
  lemma CloseReleasesWhatWasEntered(xs: seq<Action>, m: nat)
    requires Legal(IDLE, xs) && m in Run(IDLE, xs).streams
    ensures var a := Run(IDLE, xs); var b := Apply(a, CloseStream(m));
      && b.streams == a.streams[m := Ended] && b.queues == a.queues && b.yielded == a.yielded
      && (if a.streams[m].Open? || a.streams[m].AtHangup? then b.active.None? && m !in b.polling
          else b.active == a.active && b.polling == a.polling)
  {
    hide Run, Legal;
    RunFromIdle(xs);
    InvForStream(Run(IDLE, xs), m);
  }

  // ----- Provenance ----------------------------------------------------------------------

  /** The one step that brings `ev` into being. */
  predicate Causes(a: At, x: Action, ev: AtEvent) {
    match ev
    case Connected(m) => x == Answered(m, ActiveCall)
    case RemoteHangup(m, cause) =>
      || (x == Urc(Some(cause)) && a.active == Some(m))
      || (x.HangupDone? && x.h.call == m && cause == "manual_hangup")
      || (x == DialFail(cause) && a.dialing == Some(m))
  }

  predicate CausedOnTheWay(a: At, xs: seq<Action>, ev: AtEvent)
    requires Legal(a, xs)
    decreases |xs|
  {
    xs != [] && (Causes(a, xs[0], ev) || CausedOnTheWay(Apply(a, xs[0]), xs[1..], ev))
  }

  predicate InQueue(a: At, m: nat, ev: AtEvent) {
    Event(ev) in QueueItems(a, m)
  }

  predicate InStream(a: At, m: nat, ev: AtEvent) {
    m in a.streams && a.streams[m] == Single(ev)
  }

  predicate WasYielded(a: At, m: nat, ev: AtEvent) {
    m in a.yielded && ev in a.yielded[m]
  }

  /** `ev` exists for the call m. */
  predicate Known(a: At, m: nat, ev: AtEvent) {
    InQueue(a, m, ev) || InStream(a, m, ev) || WasYielded(a, m, ev)
  }

  lemma {:induction false} ScanTakesFromQueue(items: seq<Item>, seen: bool)
    ensures forall item :: item in Scan(items, seen).0 ==> item in items
    ensures Scan(items, seen).1.Yield? ==> Event(Scan(items, seen).1.ev) in items
    decreases |items|
  {
    if items != [] { ScanTakesFromQueue(items[1..], seen); }
  }

  lemma PullInventsNothing(a: At, k: nat, m: nat, ev: AtEvent)
    requires Inv(a) && k in a.streams && Known(Pull(a, k).0, m, ev)
    ensures Known(a, m, ev)
  {
    InvForStream(a, k);
    ScanTakesFromQueue(QueueItems(a, k), HasSeen(a.streams[k]));
  }

  lemma OtherStepCauses(a: At, x: Action, m: nat, ev: AtEvent)
    requires Inv(a) && Enabled(a, x) && !x.PullNext? && ev.id == m && Known(Apply(a, x), m, ev)
    ensures Known(a, m, ev) || Causes(a, x, ev)
  {
    hide Pull;
  }

  lemma StepCauses(a: At, x: Action, m: nat, ev: AtEvent)
    requires Inv(a) && Enabled(a, x) && ev.id == m && Known(Apply(a, x), m, ev)
    ensures Known(a, m, ev) || Causes(a, x, ev)
  {
    hide Inv, Known, Causes;
    if x.PullNext? { PullInventsNothing(a, x.m, m, ev); } else { OtherStepCauses(a, x, m, ev); }
  }

  lemma {:induction false} RunCauses(a: At, xs: seq<Action>, m: nat, ev: AtEvent)
    requires Inv(a) && Legal(a, xs) && ev.id == m && Known(Run(a, xs), m, ev)
    ensures Known(a, m, ev) || CausedOnTheWay(a, xs, ev)
    decreases |xs|
  {
    hide Inv, Known, Causes, Enabled, Apply;
    if xs != [] {
      StepKeepsInv(a, xs[0]);
      RunCauses(Apply(a, xs[0]), xs[1..], m, ev);
      if Known(Apply(a, xs[0]), m, ev) { StepCauses(a, xs[0], m, ev); }
    }
  }

  /**
  No event out of nothing: a stream has yielded connected only if a poller of its call was
  told of an active call, and a remote_hangup only with the cause of a hangup-class URC
  read while its call was active, of a hangup() of it, or of its failed dial.
  */
  lemma EveryEventHasItsCause(xs: seq<Action>, m: nat, ev: AtEvent)
    requires Legal(IDLE, xs) && WasYielded(Run(IDLE, xs), m, ev)
    ensures ev.id == m && CausedOnTheWay(IDLE, xs, ev)
  {
    RunFromIdle(xs);
    CallIsolation(xs);
    var a := Run(IDLE, xs);
    var i :| 0 <= i < |a.yielded[m]| && a.yielded[m][i] == ev;
    RunCauses(IDLE, xs, m, ev);
  }
}
