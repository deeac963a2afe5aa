/**
The modem-call layer: `SerialATClient` of modem_controller/at_client.py.

The state is a value of type `At`; every function below is the code between two
suspension points of one coroutine. A call is named by the number of its dial
(the code draws a fresh uuid), and a queue by the call it was made for, so
that "which queue object does this coroutine hold" is part of the state.
*/
module AtCalls {
  import opened Options

  datatype AtEvent = Connected(id: nat) | RemoteHangup(id: nat, cause: string)

  /** What sits in a per-call queue; `Sentinel` is the `None` that aclose() puts. */
  datatype Item = Event(ev: AtEvent) | Sentinel

  /** One generator object returned by dial(), named by its call. */
  datatype Stream =
    | Single(ev: AtEvent)            // _single_event_stream, not pulled yet
    | Fresh                          // _urc_stream, body not entered yet
    | Open(queue: nat, seen: bool)   // inside the loop, holding `queue`
    | AtHangup                       // suspended at the yield of a remote_hangup
    | Ended                          // body left, `finally` done or never entered

  /** A hangup() call past its guard, with the queue it read before awaiting the driver. */
  datatype Hangup = Hangup(call: nat, queue: nat)

  datatype Answer = AtFailure | NoActiveCall | ActiveCall

  datatype Pulled = Yield(ev: AtEvent) | Blocked | End

  datatype At = At(
    active: Option<nat>,              // _active_call_id
    queue: Option<nat>,               // _call_queue
    poller: Option<nat>,              // _poller_task
    dialing: Option<nat>,             // the dial() awaiting the driver
    polling: map<nat, bool>,          // live CLCC pollers; true while awaiting an answer
    queues: map<nat, seq<Item>>,      // contents of every queue object ever made
    streams: map<nat, Stream>,        // every generator ever returned
    hangups: set<Hangup>,             // hangup() calls that have captured a queue
    yielded: map<nat, seq<AtEvent>>,  // what each generator has yielded so far
    next: nat)

  const IDLE := At(None, None, None, None, map[], map[], map[], {}, map[], 0)

  function QueueItems(a: At, q: nat): seq<Item> {
    if q in a.queues then a.queues[q] else []
  }

  function Put(a: At, q: nat, item: Item): At {
    a.(queues := a.queues[q := QueueItems(a, q) + [item]])
  }

  /** _reset_call_state */
  function Reset(a: At): At {
    a.(active := None, queue := None, poller := None,
       polling := if a.poller.Some? then a.polling - {a.poller.value} else a.polling)
  }

  /** dial() up to the await of the driver; refused while a call is active. */
  function DialBegin(a: At): At
    requires a.active.None?
  {
    a.(active := Some(a.next), queue := Some(a.next), dialing := Some(a.next),
       queues := a.queues[a.next := []], next := a.next + 1)
  }

  /** The driver raised or reported no connection: one-event stream, state reset. */
  function DialFailed(a: At, m: nat, cause: string): At {
    Reset(a).(dialing := None,
              streams := a.streams[m := Single(RemoteHangup(m, cause))],
              yielded := a.yielded[m := []])
  }

  /** The driver accepted ATD: poller started, lazy URC stream returned. */
  function DialAccepted(a: At, m: nat): At {
    a.(dialing := None, poller := Some(m), polling := a.polling[m := false],
       streams := a.streams[m := Fresh], yielded := a.yielded[m := []])
  }

  /** The coroutine awaiting dial() was cancelled: no handler runs, nothing is reset. */
  function DialAborted(a: At): At {
    a.(dialing := None)
  }

  /** The queue hangup(m) captures, if it gets past its guard. */
  function HangupTarget(a: At, m: nat): Option<nat> {
    if a.active == Some(m) then a.queue else None
  }

  function HangupBegin(a: At, m: nat): At {
    match HangupTarget(a, m)
    case Some(q) => a.(hangups := a.hangups + {Hangup(m, q)})
    case None => a
  }

  /** hangup() after the driver returned or raised. */
  function HangupEnd(a: At, h: Hangup): At {
    Put(a, h.queue, Event(RemoteHangup(h.call, "manual_hangup")))
  }

  /** _on_urc; `cause` is None for a URC that is not of the hangup class. */
  function OnUrc(a: At, cause: Option<string>): At {
    match (a.active, a.queue, cause)
    case (Some(m), Some(q), Some(c)) => Put(a, q, Event(RemoteHangup(m, c)))
    case _ => a
  }

  /** The poller of m after its sleep. */
  function PollWake(a: At, m: nat): At {
    if a.active != Some(m) then a.(polling := a.polling - {m})
    else a.(polling := a.polling[m := true])
  }

  /** The poller of m after AT+CLCC. It reads `_call_queue` only now. */
  function PollAnswer(a: At, m: nat, answer: Answer): At {
    if answer.ActiveCall? then
      var b := if a.queue.Some? then Put(a, a.queue.value, Event(Connected(m))) else a;
      b.(polling := b.polling - {m})
    else if a.active == Some(m) then a.(polling := a.polling[m := false])
    else a.(polling := a.polling - {m})
  }

  /** The `finally` of _urc_stream. */
  function Finally(a: At, m: nat): At {
    if a.active == Some(m) then Reset(a) else a
  }

  /** The loop of _urc_stream over the items already queued. */
  function Scan(items: seq<Item>, seen: bool): (seq<Item>, Pulled) {
    if items == [] then ([], Blocked)
    else match items[0]
      case Sentinel => (items[1..], End)
      case Event(ev) =>
        if ev.Connected? && seen then Scan(items[1..], seen)
        else (items[1..], Yield(ev))
  }

  function PullOpen(a: At, m: nat, q: nat, seen: bool): (At, Pulled) {
    var (rest, r) := Scan(QueueItems(a, q), seen);
    var b := a.(queues := a.queues[q := rest]);
    match r
    case Blocked => (b.(streams := b.streams[m := Open(q, seen)]), r)
    case End => (Finally(b.(streams := b.streams[m := Ended]), m), r)
    case Yield(ev) =>
      (Yielding(b, m, ev, if ev.Connected? then Open(q, true) else AtHangup), r)
  }

  function Yielding(a: At, m: nat, ev: AtEvent, stream: Stream): At {
    a.(streams := a.streams[m := stream],
       yielded := a.yielded[m := (if m in a.yielded then a.yielded[m] else []) + [ev]])
  }

  /** One `__anext__` on the stream of m; Blocked means it is left waiting in queue.get(). */
  function Pull(a: At, m: nat): (At, Pulled)
    requires m in a.streams
  {
    match a.streams[m]
    case Single(ev) => (Yielding(a, m, ev, Ended), Yield(ev))
    case Fresh =>
      if a.queue.None? then (a.(streams := a.streams[m := Ended]), End)
      else PullOpen(a, m, a.queue.value, false)
    case Open(q, seen) => PullOpen(a, m, q, seen)
    case AtHangup => (Finally(a.(streams := a.streams[m := Ended]), m), End)
    case Ended => (a, End)
  }

  /** The generator of m is closed, or cancelled inside queue.get(). */
  function Close(a: At, m: nat): At
    requires m in a.streams
  {
    var b := a.(streams := a.streams[m := Ended]);
    if a.streams[m].Open? || a.streams[m].AtHangup? then Finally(b, m) else b
  }

  /** aclose() up to the closing of the port. */
  function Aclose(a: At): At {
    var b := if a.queue.Some? then Put(a, a.queue.value, Sentinel) else a;
    if b.poller.Some? then b.(polling := b.polling - {b.poller.value}) else b
  }

  // ----- Arbitrary clients --------------------------------------------------

  /** One atomic step of the client, of its own tasks, or of any caller whatsoever. */
  datatype Action =
    | Dial
    | DialOk
    | DialFail(cause: string)
    | DialAbort
    | HangupCall(m: nat)
    | HangupDone(h: Hangup)
    | Urc(urc: Option<string>)
    | Wake(m: nat)
    | Answered(m: nat, answer: Answer)
    | PullNext(m: nat)
    | CloseStream(m: nat)
    | Shutdown

  predicate Enabled(a: At, x: Action) {
    match x
    case Dial => a.active.None?
    case DialOk => a.dialing.Some?
    case DialFail(_) => a.dialing.Some?
    case DialAbort => a.dialing.Some?
    case HangupDone(h) => h in a.hangups
    case Wake(m) => m in a.polling && !a.polling[m]
    case Answered(m, _) => m in a.polling && a.polling[m]
    case PullNext(m) => m in a.streams
    case CloseStream(m) => m in a.streams
    case _ => true
  }

  function Apply(a: At, x: Action): At
    requires Enabled(a, x)
  {
    match x
    case Dial => DialBegin(a)
    case DialOk => DialAccepted(a, a.dialing.value)
    case DialFail(cause) => DialFailed(a, a.dialing.value, cause)
    case DialAbort => DialAborted(a)
    case HangupCall(m) => HangupBegin(a, m)
    case HangupDone(h) => HangupEnd(a, h)
    case Urc(urc) => OnUrc(a, urc)
    case Wake(m) => PollWake(a, m)
    case Answered(m, answer) => PollAnswer(a, m, answer)
    case PullNext(m) => Pull(a, m).0
    case CloseStream(m) => Close(a, m)
    case Shutdown => Aclose(a)
  }

  predicate Legal(a: At, xs: seq<Action>)
    decreases |xs|
  {
    xs == [] || (Enabled(a, xs[0]) && Legal(Apply(a, xs[0]), xs[1..]))
  }

  function Run(a: At, xs: seq<Action>): At
    requires Legal(a, xs)
    decreases |xs|
  {
    if xs == [] then a else Run(Apply(a, xs[0]), xs[1..])
  }

  // ----- The invariant ------------------------------------------------------

  predicate IsOpen(s: Stream) {
    s.Fresh? || s.Open? || s.AtHangup?
  }

  predicate Tagged(items: seq<Item>, m: nat) {
    forall i :: 0 <= i < |items| && items[i].Event? ==> items[i].ev.id == m
  }

  /** A prefix of `connected? remote_hangup`, every event carrying the id m. */
  predicate CallHistory(ys: seq<AtEvent>, m: nat) {
    && |ys| <= 2
    && (forall i :: 0 <= i < |ys| ==> ys[i].id == m)
    && (|ys| == 2 ==> ys[0].Connected? && ys[1].RemoteHangup?)
  }

  /** What a generator has yielded so far, read off its control point. */
  predicate StreamOk(a: At, m: nat)
    requires m in a.streams
  {
    && m < a.next
    && m in a.yielded
    && CallHistory(a.yielded[m], m)
    && (IsOpen(a.streams[m]) ==> a.active == Some(m))
    && match a.streams[m]
       case Single(ev) => ev.RemoteHangup? && ev.id == m && a.yielded[m] == []
       case Fresh => a.yielded[m] == []
       case Open(q, seen) => q == m && a.yielded[m] == if seen then [Connected(m)] else []
       case AtHangup => a.yielded[m] != [] && a.yielded[m][|a.yielded[m]| - 1].RemoteHangup?
       case Ended => true
  }

  predicate Inv(a: At) {
    && a.queue == a.active
    && (a.active.Some? ==> a.active.value < a.next && a.active.value in a.queues)
    && (a.dialing.Some? ==> a.active == a.dialing && a.dialing.value !in a.streams && a.dialing.value !in a.polling)
    && (forall m :: m in a.queues ==> m < a.next && Tagged(a.queues[m], m))
    && (forall m :: m in a.streams ==> StreamOk(a, m))
    && (forall m :: m in a.polling ==> a.active == Some(m) && a.poller == Some(m))
    && (forall h :: h in a.hangups ==> h.queue == h.call && h.call in a.queues)
    && (forall m :: m in a.yielded ==> m in a.streams)
  }

  lemma ScanKeepsTags(items: seq<Item>, seen: bool, m: nat)
    requires Tagged(items, m)
    ensures Tagged(Scan(items, seen).0, m)
    ensures Scan(items, seen).1.Yield? ==> Scan(items, seen).1.ev.id == m
    ensures Scan(items, seen).1.Yield? && Scan(items, seen).1.ev.Connected? ==> !seen
  {
  }

  lemma PutKeepsInv(a: At, q: nat, item: Item)
    requires Inv(a) && q in a.queues
    requires item.Event? ==> item.ev.id == q
    ensures Inv(Put(a, q, item))
  {
    var b := Put(a, q, item);
    forall m | m in b.streams ensures StreamOk(b, m) { assert StreamOk(a, m); }
  }

  /** While m has an open stream, nobody else has one and no dial is in flight. */
  lemma OpenStreamIsAlone(a: At, m: nat)
    requires Inv(a) && m in a.streams && IsOpen(a.streams[m])
    ensures a.active == Some(m) && a.dialing.None?
    ensures forall k :: k in a.streams && IsOpen(a.streams[k]) ==> k == m
    ensures forall k :: k in a.polling ==> k == m
  {
  }

  /** Ending the stream of m, with its `finally`. */
  lemma EndKeepsInv(a: At, m: nat)
    requires Inv(a) && m in a.streams && IsOpen(a.streams[m])
    ensures Inv(Finally(a.(streams := a.streams[m := Ended]), m))
  {
  }

  lemma ScannedKeepsInv(a: At, m: nat, rest: seq<Item>)
    requires Inv(a) && m in a.queues && Tagged(rest, m)
    ensures Inv(a.(queues := a.queues[m := rest]))
  {
  }

  lemma YieldingKeepsInv(a: At, m: nat, ev: AtEvent, stream: Stream)
    requires Inv(a) && m in a.streams && ev.id == m
    requires IsOpen(stream) ==> IsOpen(a.streams[m])
    requires ev.Connected? ==> a.yielded[m] == [] && stream == Open(m, true)
    requires ev.RemoteHangup? ==> stream == AtHangup || stream == Ended
    requires forall i :: 0 <= i < |a.yielded[m]| ==> a.yielded[m][i].Connected?
    requires |a.yielded[m]| <= 1
    ensures Inv(Yielding(a, m, ev, stream))
  {
  }

  lemma PullOpenKeepsInv(a: At, m: nat, seen: bool)
    requires Inv(a) && m in a.streams
    requires a.streams[m] == Open(m, seen) || (a.streams[m] == Fresh && !seen)
    ensures Inv(PullOpen(a, m, m, seen).0)
  {
    OpenStreamIsAlone(a, m);
    ScanKeepsTags(QueueItems(a, m), seen, m);
    var (rest, r) := Scan(QueueItems(a, m), seen);
    var b := a.(queues := a.queues[m := rest]);
    ScannedKeepsInv(a, m, rest);
    assert StreamOk(b, m);
    match r
    case Blocked =>
      var c := b.(streams := b.streams[m := Open(m, seen)]);
      forall k | k in c.streams ensures StreamOk(c, k) { assert StreamOk(b, k); }
    case End => EndKeepsInv(b, m);
    case Yield(ev) => YieldingKeepsInv(b, m, ev, if ev.Connected? then Open(m, true) else AtHangup);
  }

  lemma PullKeepsInv(a: At, m: nat)
    requires Inv(a) && m in a.streams
    ensures Inv(Pull(a, m).0)
  {
    assert StreamOk(a, m);
    match a.streams[m]
    case Single(ev) => YieldingKeepsInv(a, m, ev, Ended);
    case Fresh => PullOpenKeepsInv(a, m, false);
    case Open(q, seen) => PullOpenKeepsInv(a, m, seen);
    case AtHangup => EndKeepsInv(a, m);
    case Ended =>
  }

  lemma InvForStream(a: At, m: nat)
    requires Inv(a) && m in a.streams
    ensures StreamOk(a, m)
  {
  }

  /** What one pull does to the stream of m, by what it hands out. */
  lemma PullOutcome(a: At, m: nat)
    requires Inv(a) && m in a.streams
    ensures var (b, r) := Pull(a, m); var was, now := a.streams[m], b.streams[m];
      && (r.Blocked? ==> if was.Fresh? then now == Open(m, false) else was == now && was.Open? && was.queue == m)
      && (r.Yield? && r.ev.Connected? ==> now == Open(m, true) && (was.Fresh? || was == Open(m, false)))
      && (r.Yield? && r.ev.RemoteHangup? ==> now.AtHangup? || was.Single?)
  {
    InvForStream(a, m);
    if a.streams[m].Fresh? { ScanKeepsTags(QueueItems(a, m), false, m); }
    if a.streams[m].Open? { ScanKeepsTags(QueueItems(a, m), a.streams[m].seen, m); }
  }

  /** Only the stream of m changes, the modem may be released, captured hangups and dials stay. */
  predicate FrameFor(a: At, b: At, m: nat) {
    && m in b.streams
    && (forall k :: k in a.streams && k != m ==> k in b.streams && b.streams[k] == a.streams[k])
    && (b.active == a.active || b.active == None)
    && a.hangups <= b.hangups && b.dialing == a.dialing
  }

  lemma PullOpenFrame(a: At, m: nat, q: nat, seen: bool)
    requires m in a.streams
    ensures FrameFor(a, PullOpen(a, m, q, seen).0, m)
  {
  }

  lemma PullFrame(a: At, m: nat)
    requires m in a.streams
    ensures FrameFor(a, Pull(a, m).0, m)
  {
    match a.streams[m]
    case Fresh => if a.queue.Some? { PullOpenFrame(a, m, a.queue.value, false); }
    case Open(q, seen) => PullOpenFrame(a, m, q, seen);
    case _ =>
  }

  lemma CloseFrame(a: At, m: nat)
    requires m in a.streams
    ensures FrameFor(a, Close(a, m), m)
  {
  }

  lemma CloseKeepsInv(a: At, m: nat)
    requires Inv(a) && m in a.streams
    ensures Inv(Close(a, m))
  {
    assert StreamOk(a, m);
    if a.streams[m].Open? || a.streams[m].AtHangup? {
      EndKeepsInv(a, m);
    } else {
      var b := Close(a, m);
      forall k | k in b.streams ensures StreamOk(b, k) { assert StreamOk(a, k); }
    }
  }

  lemma PollingKeepsInv(a: At, polling: map<nat, bool>)
    requires Inv(a) && polling.Keys <= a.polling.Keys
    ensures Inv(a.(polling := polling))
  {
  }

  lemma DialKeepsInv(a: At)
    requires Inv(a)
    ensures a.active.None? ==> Inv(DialBegin(a))
    ensures a.dialing.Some? ==> Inv(DialAccepted(a, a.dialing.value)) && Inv(DialAborted(a))
  {
    if a.active.None? {
      var b := DialBegin(a);
      forall k | k in b.streams ensures StreamOk(b, k) { assert StreamOk(a, k); }
    }
    if a.dialing.Some? {
      var b, c := DialAccepted(a, a.dialing.value), DialAborted(a);
      forall k | k in b.streams ensures StreamOk(b, k) { if k in a.streams { assert StreamOk(a, k); } }
      forall k | k in c.streams ensures StreamOk(c, k) { assert StreamOk(a, k); }
    }
  }

  lemma DialFailedKeepsInv(a: At, cause: string)
    requires Inv(a) && a.dialing.Some?
    ensures Inv(DialFailed(a, a.dialing.value, cause))
  {
  }

  lemma HangupKeepsInv(a: At, m: nat)
    requires Inv(a)
    ensures Inv(HangupBegin(a, m))
  {
  }

  lemma AcloseKeepsInv(a: At)
    requires Inv(a)
    ensures Inv(Aclose(a))
  {
    var b := if a.queue.Some? then Put(a, a.queue.value, Sentinel) else a;
    if a.queue.Some? { PutKeepsInv(a, a.queue.value, Sentinel); }
    if b.poller.Some? { PollingKeepsInv(b, b.polling - {b.poller.value}); }
  }

  lemma PollKeepsInv(a: At, m: nat, answer: Answer)
    requires Inv(a) && m in a.polling
    ensures Inv(PollWake(a, m)) && Inv(PollAnswer(a, m, answer))
  {
    PutKeepsInv(a, m, Event(Connected(m)));
    PollingKeepsInv(Put(a, m, Event(Connected(m))), a.polling - {m});
    PollingKeepsInv(a, a.polling - {m});
    PollingKeepsInv(a, a.polling[m := true]);
    PollingKeepsInv(a, a.polling[m := false]);
  }

  lemma StepKeepsInv(a: At, x: Action)
    requires Inv(a) && Enabled(a, x)
    ensures Inv(Apply(a, x))
  {
    match x
    case DialFail(cause) => DialFailedKeepsInv(a, cause);
    case HangupCall(m) => HangupKeepsInv(a, m);
    case HangupDone(h) => PutKeepsInv(a, h.queue, Event(RemoteHangup(h.call, "manual_hangup")));
    case Urc(urc) =>
      if a.active.Some? && urc.Some? {
        PutKeepsInv(a, a.active.value, Event(RemoteHangup(a.active.value, urc.value)));
      }
    case Wake(m) => PollKeepsInv(a, m, AtFailure);
    case Answered(m, answer) => PollKeepsInv(a, m, answer);
    case PullNext(m) => PullKeepsInv(a, m);
    case CloseStream(m) => CloseKeepsInv(a, m);
    case Shutdown => AcloseKeepsInv(a);
    case _ => DialKeepsInv(a);
  }

  lemma {:induction false} RunKeepsInv(a: At, xs: seq<Action>)
    requires Inv(a) && Legal(a, xs)
    ensures Inv(Run(a, xs))
    decreases |xs|
  {
    if xs != [] {
      StepKeepsInv(a, xs[0]);
      RunKeepsInv(Apply(a, xs[0]), xs[1..]);
    }
  }

  // ----- Call isolation -----------------------------------------------------

  /**
  Whatever the callers do and in whatever order the tasks are scheduled: every
  stream has yielded a prefix of `connected? remote_hangup` under its own id, no
  event of one call sits in the queue of another, and at most one call is live.
  */
  lemma CallIsolation(xs: seq<Action>)
    requires Legal(IDLE, xs)
    ensures var a := Run(IDLE, xs);
      && (forall m :: m in a.streams ==> m in a.yielded && CallHistory(a.yielded[m], m))
      && (forall m :: m in a.queues ==> Tagged(a.queues[m], m))
      && (forall m, k :: m in a.streams && k in a.streams && IsOpen(a.streams[m]) && IsOpen(a.streams[k]) ==> m == k)
      && (forall m :: m in a.polling ==> a.active == Some(m))
  {
    RunKeepsInv(IDLE, xs);
    var a := Run(IDLE, xs);
    forall m | m in a.streams ensures StreamOk(a, m) { InvForStream(a, m); }
  }

  lemma YieldGrows(a: At, x: Action, m: nat)
    requires Inv(a) && Enabled(a, x) && m in a.yielded
    ensures m in Apply(a, x).yielded && a.yielded[m] <= Apply(a, x).yielded[m]
    ensures a.yielded[m] != Apply(a, x).yielded[m] ==>
              && x == PullNext(m)
              && forall i :: 0 <= i < |a.yielded[m]| ==> a.yielded[m][i].Connected?
  {
    InvForStream(a, m);
    if x.PullNext? && x.m == m {
      var s := a.streams[m];
      if s.Fresh? { ScanKeepsTags(QueueItems(a, m), false, m); }
      if s.Open? { ScanKeepsTags(QueueItems(a, m), s.seen, m); }
    }
  }

  /**
  In every run a step only appends to what a stream has yielded, only when that stream
  is pulled, and only while no remote_hangup is among it.
  */
  lemma YieldsOnlyGrow(xs: seq<Action>, x: Action, m: nat)
    requires Legal(IDLE, xs) && Enabled(Run(IDLE, xs), x) && m in Run(IDLE, xs).yielded
    ensures var a := Run(IDLE, xs); var b := Apply(a, x);
      && m in b.yielded && a.yielded[m] <= b.yielded[m]
      && (a.yielded[m] != b.yielded[m] ==>
            x == PullNext(m) && forall i :: 0 <= i < |a.yielded[m]| ==> a.yielded[m][i].Connected?)
  {
    hide Run, Legal, Inv, Enabled, Apply;
    RunFromIdle(xs);
    YieldGrows(Run(IDLE, xs), x, m);
  }

  lemma RunFromIdle(xs: seq<Action>)
    requires Legal(IDLE, xs)
    ensures Inv(Run(IDLE, xs))
  {
    RunKeepsInv(IDLE, xs);
  }

  lemma CompletionStaysHome(a: At, x: Action, m: nat)
    requires Inv(a) && Enabled(a, x)
    requires x.HangupDone? || x.Answered? || x.Wake?
    requires m != if x.HangupDone? then x.h.call else x.m
    ensures QueueItems(Apply(a, x), m) == QueueItems(a, m)
    ensures Apply(a, x).active == a.active
    ensures x.HangupDone? ==>
              QueueItems(Apply(a, x), x.h.call) ==
              QueueItems(a, x.h.call) + [Event(RemoteHangup(x.h.call, "manual_hangup"))]
  {
    if x.HangupDone? { assert x.h.queue == x.h.call; }
  }

  /** In every run a hangup() completing late, or a poller answering late, touches its own call's queue only. */
  lemma LateCompletionsStayHome(xs: seq<Action>, x: Action, m: nat)
    requires Legal(IDLE, xs) && Enabled(Run(IDLE, xs), x)
    requires x.HangupDone? || x.Answered? || x.Wake?
    requires m != if x.HangupDone? then x.h.call else x.m
    ensures var a := Run(IDLE, xs); var b := Apply(a, x);
      && QueueItems(b, m) == QueueItems(a, m) && b.active == a.active
      && (x.HangupDone? ==>
            QueueItems(b, x.h.call) == QueueItems(a, x.h.call) + [Event(RemoteHangup(x.h.call, "manual_hangup"))])
  {
    hide Run, Legal, Inv, Enabled, Apply;
    RunFromIdle(xs);
    CompletionStaysHome(Run(IDLE, xs), x, m);
  }

  // ----- When a call can still release the modem -----------------------------

  /** Some dial is in flight or some stream can still run its `finally`. */
  predicate Releasable(a: At) {
    a.active.None? || a.dialing.Some? || exists m :: m in a.streams && IsOpen(a.streams[m])
  }

  ghost predicate CanBecomeIdle(a: At) {
    exists xs :: Legal(a, xs) && Run(a, xs).active.None?
  }

  lemma StepStaysWedged(a: At, x: Action)
    requires Inv(a) && Enabled(a, x) && !Releasable(a)
    ensures !Releasable(Apply(a, x))
  {
  }

  lemma {:induction false} WedgedForever(a: At, xs: seq<Action>)
    requires Inv(a) && Legal(a, xs) && !Releasable(a)
    ensures Run(a, xs).active.Some?
    decreases |xs|
  {
    if xs != [] {
      StepKeepsInv(a, xs[0]);
      StepStaysWedged(a, xs[0]);
      WedgedForever(Apply(a, xs[0]), xs[1..]);
    }
  }

  lemma RunOfOne(a: At, x: Action)
    requires Enabled(a, x)
    ensures Legal(a, [x]) && Run(a, [x]) == Apply(a, x)
  {
  }

  lemma RunOfTwo(a: At, x: Action, y: Action)
    requires Enabled(a, x) && Enabled(Apply(a, x), y)
    ensures Legal(a, [x, y]) && Run(a, [x, y]) == Apply(Apply(a, x), y)
  {
    hide Enabled, Apply;
    assert [x, y][1..] == [y];
    RunOfOne(Apply(a, x), y);
  }

  lemma ReleasingRun(a: At) returns (xs: seq<Action>)
    requires Inv(a) && Releasable(a)
    ensures Legal(a, xs) && Run(a, xs).active.None?
  {
    if a.active.None? {
      xs := [];
    } else if a.dialing.Some? {
      xs := [DialFail("")];
      RunOfOne(a, DialFail(""));
    } else {
      var m :| m in a.streams && IsOpen(a.streams[m]);
      InvForStream(a, m);
      if a.streams[m].Fresh? {
        xs := [PullNext(m), CloseStream(m)];
        PullKeepsInv(a, m);
        InvForStream(Apply(a, PullNext(m)), m);
        PullThenClose(a, m);
        RunOfTwo(a, PullNext(m), CloseStream(m));
      } else {
        xs := [CloseStream(m)];
        RunOfOne(a, CloseStream(m));
      }
    }
  }

  /** Entering a stream and then closing it releases the modem. */
  lemma PullThenClose(a: At, m: nat)
    requires Inv(a) && m in a.streams && a.streams[m].Fresh?
    ensures var b := Pull(a, m).0; m in b.streams && Close(b, m).active.None?
  {
  }

  lemma ReleasableStates(a: At)
    requires Inv(a)
    ensures CanBecomeIdle(a) <==> Releasable(a)
  {
    if Releasable(a) {
      var xs := ReleasingRun(a);
    } else {
      forall xs | Legal(a, xs) ensures Run(a, xs).active.Some? { WedgedForever(a, xs); }
    }
  }

  /**
  After any run the modem can be dialled again some day if and only if a dial is in
  flight or a stream was entered or can still be entered.
  */
  lemma ReleasedExactlyWhenReleasable(xs: seq<Action>)
    requires Legal(IDLE, xs)
    ensures CanBecomeIdle(Run(IDLE, xs)) <==> Releasable(Run(IDLE, xs))
  {
    hide Run, Legal, Inv, CanBecomeIdle, Releasable;
    RunFromIdle(xs);
    ReleasableStates(Run(IDLE, xs));
  }

  /** A stream dropped before its first pull, or a dial() cancelled at its await, leaves the modem in the call for good. */
  lemma SomeCallsAreNeverReleased()
    ensures var xs := [Dial, DialOk, CloseStream(0)]; Legal(IDLE, xs) && !CanBecomeIdle(Run(IDLE, xs))
    ensures var xs := [Dial, DialAbort]; Legal(IDLE, xs) && !CanBecomeIdle(Run(IDLE, xs))
  {
    var begun := Apply(IDLE, Dial);
    RunOfTwo(IDLE, Dial, DialAbort);
    ReleasedExactlyWhenReleasable([Dial, DialAbort]);
    RunOfTwo(begun, DialOk, CloseStream(0));
    assert [Dial, DialOk, CloseStream(0)][1..] == [DialOk, CloseStream(0)];
    ReleasedExactlyWhenReleasable([Dial, DialOk, CloseStream(0)]);
  }
}
