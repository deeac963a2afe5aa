/**
The store-and-forward uplink: `CloudEdgeGrpcClient` of transport/grpc_client.py over
either buffer, as one state machine. Every frame accepted by send() is numbered; the
histories (`accepted`, `wire`, and the three ways to be lost) are bookkeeping that
the code does not keep.
*/
module Uplink {
  import opened EventBuffer

  /** An accepted frame: its place in the order of acceptance, and its content. */
  datatype Frame = Frame(id: nat, body: string)

  /** `Close` is the sentinel that ends the outbound iterator. */
  datatype Item = Msg(frame: Frame) | Close

  datatype Link = Link(
    durable: bool,
    capacity: nat,
    looping: bool,               // _connect_task exists
    stopping: bool,              // stop() was called, the loop has not ended yet
    stops: nat,                  // stop() calls that have not returned
    open: bool,                  // a stream exists
    up: bool,                    // ... and the server has accepted it
    connected: bool,             // _connected
    reading: bool,               // the stream's _outbound_iter has not returned
    outbound: seq<Item>,         // the queue of the current or last stream
    rows: seq<Row<Frame>>,       // what waits for reconnection
    lastSeq: nat,
    accepted: seq<Frame>,
    wire: seq<Frame>,            // yielded to the transport
    abandoned: seq<Frame>,       // left in the queue of an earlier stream or process
    evicted: seq<Frame>,         // dropped by the capacity bound
    spoiled: seq<Frame>)         // deleted undecodable

  function Boot(durable: bool, capacity: nat): Link {
    Link(durable, capacity, false, false, 0, false, false, false, false, [], [], 0, [], [], [], [], [])
  }

  function Frames(items: seq<Item>): seq<Frame> {
    if items == [] then []
    else (if items[0].Msg? then [items[0].frame] else []) + Frames(items[1..])
  }

  function Stored(rows: seq<Row<Frame>>): seq<Frame> {
    if rows == [] then [] else [rows[0].frame] + Stored(rows[1..])
  }

  function Items(rows: seq<Row<Frame>>): seq<Item> {
    if rows == [] then [] else [Msg(rows[0].frame)] + Items(rows[1..])
  }

  // ----- Steps --------------------------------------------------------------------

  /** append() of either backend: the oldest rows beyond the bound go. */
  function Buffered(l: Link, f: Frame): Link {
    var all := l.rows + [Row(l.lastSeq + 1, f, true)];
    var kept := Newest(all, l.capacity);
    l.(rows := kept, lastSeq := l.lastSeq + 1, evicted := l.evicted + Stored(all[..|all| - |kept|]))
  }

  predicate Raises(l: Link, critical: bool) {
    !l.connected && critical
  }

  /** send(); a critical frame raises while disconnected and is not accepted. */
  function Send(l: Link, body: string, critical: bool): Link {
    if Raises(l, critical) then l
    else
      var f := Frame(|l.accepted|, body);
      var m := l.(accepted := l.accepted + [f]);
      if l.connected then m.(outbound := m.outbound + [Msg(f)]) else Buffered(m, f)
  }

  /** _run_one_stream up to its first await: a fresh queue replaces the old one. */
  function OpenStream(l: Link): Link {
    l.(open := true, up := false, reading := true, outbound := [], abandoned := l.abandoned + Frames(l.outbound))
  }

  /** The stream is accepted: connected, then the buffer is flushed in the same step. */
  function StreamUp(l: Link): Link {
    l.(connected := true, up := true, outbound := l.outbound + Items(Readable(l.rows)),
       rows := Dregs(l.rows), spoiled := l.spoiled + Stored(Skipped(l.rows)))
  }

  /** One turn of _outbound_iter. */
  function Transmit(l: Link): Link
    requires l.outbound != []
  {
    if l.outbound[0].Close? then l.(reading := false, outbound := l.outbound[1..])
    else l.(wire := l.wire + [l.outbound[0].frame], outbound := l.outbound[1..])
  }

  function StreamEnded(l: Link): Link {
    l.(open := false, connected := false)
  }

  function StopCalled(l: Link): Link {
    l.(stopping := true, stops := l.stops + 1, outbound := l.outbound + [Close])
  }

  /** The connect task is gone; stop() may still wait for its channel to close. */
  function StopJoined(l: Link): Link {
    l.(stopping := false, looping := false, open := false, connected := false)
  }

  /** stop() returns; if start() came in between, the new stream loses its connected flag. */
  function StopDone(l: Link): Link
    requires l.stops > 0
  {
    l.(stops := l.stops - 1, connected := false)
  }

  /** The rows behind the k-th readable one. */
  function Behind(rows: seq<Row<Frame>>, k: nat): seq<Row<Frame>> {
    if k == 0 || rows == [] then rows
    else Behind(rows[1..], if rows[0].ok then k - 1 else k)
  }

  /** The rows a drain cut short after k deletes has taken. */
  function Taken(rows: seq<Row<Frame>>, k: nat): seq<Row<Frame>> {
    if k == 0 || rows == [] then []
    else [rows[0]] + Taken(rows[1..], if rows[0].ok then k - 1 else k)
  }

  function Unreadable(rows: seq<Row<Frame>>): seq<Row<Frame>> {
    if rows == [] then []
    else (if rows[0].ok then [] else [rows[0]]) + Unreadable(rows[1..])
  }

  /** The process dies: everything in memory is gone, the file stays. */
  function Crash(l: Link): Link {
    l.(looping := false, stopping := false, stops := 0, open := false, up := false, connected := false, reading := false,
       outbound := [], rows := if l.durable then l.rows else [],
       abandoned := l.abandoned + Frames(l.outbound) + (if l.durable then [] else Stored(l.rows)))
  }

  /** The process dies inside the flush, k rows into it: they are deleted but not sent. */
  function CrashInFlush(l: Link, k: nat): Link {
    var taken := Taken(l.rows, k);
    Crash(l.(rows := Behind(l.rows, k), abandoned := l.abandoned + Stored(Readable(taken)),
             spoiled := l.spoiled + Stored(Unreadable(taken))))
  }

  /** A payload on disk goes bad. */
  function Corrupted(l: Link, i: nat): Link
    requires i < |l.rows|
  {
    l.(rows := l.rows[i := l.rows[i].(ok := false)])
  }

  datatype Step =
    | Sent(body: string, critical: bool)
    | Started
    | Opened
    | Up
    | Transmitted
    | Ended
    | Stopped
    | Joined
    | StopReturned
    | Crashed
    | CrashedInFlush(k: nat)
    | WentBad(i: nat)

  predicate Enabled(l: Link, x: Step) {
    match x
    case Sent(_, _) => true
    case Started => !l.looping
    case Opened => l.looping && !l.stopping && !l.open
    case Up => l.open && !l.up && !l.stopping
    case Transmitted => l.open && l.reading && l.outbound != []
    case Ended => l.open
    case Stopped => true
    case Joined => l.stopping
    case StopReturned => l.stops > 0
    case Crashed => true
    case CrashedInFlush(k) => l.durable && l.open && !l.up && k <= |Readable(l.rows)|
    case WentBad(i) => l.durable && i < |l.rows|
  }

  function Apply(l: Link, x: Step): Link
    requires Enabled(l, x)
  {
    match x
    case Sent(body, critical) => Send(l, body, critical)
    case Started => l.(looping := true, stopping := false)
    case Opened => OpenStream(l)
    case Up => StreamUp(l)
    case Transmitted => Transmit(l)
    case Ended => StreamEnded(l)
    case Stopped => StopCalled(l)
    case Joined => StopJoined(l)
    case StopReturned => StopDone(l)
    case Crashed => Crash(l)
    case CrashedInFlush(k) => CrashInFlush(l, k)
    case WentBad(i) => Corrupted(l, i)
  }

  predicate Legal(l: Link, xs: seq<Step>)
    decreases |xs|
  {
    xs == [] || (Enabled(l, xs[0]) && Legal(Apply(l, xs[0]), xs[1..]))
  }

  function Run(l: Link, xs: seq<Step>): Link
    requires Legal(l, xs)
    decreases |xs|
  {
    if xs == [] then l else Run(Apply(l, xs[0]), xs[1..])
  }

  // ----- Order ----------------------------------------------------------------------

  predicate Increasing(fs: seq<Frame>) {
    forall i, j :: 0 <= i < j < |fs| ==> fs[i].id < fs[j].id
  }

  /** The wire and the live queue behind it. */
  function Head(l: Link): seq<Frame> {
    l.wire + (if l.open then Frames(l.outbound) else [])
  }

  /** What may still reach the wire, in the order it would, behind what has. */
  function Flow(l: Link): seq<Frame> {
    Head(l) + Stored(Readable(l.rows))
  }

  predicate OrderOk(l: Link) {
    && Increasing(Flow(l))
    && (forall f :: f in Flow(l) ==> f in l.accepted)
    && (forall i :: 0 <= i < |l.accepted| ==> l.accepted[i].id == i)
    && (l.connected ==> l.open && l.up && Readable(l.rows) == [])
    && (l.open && !l.up ==> Frames(l.outbound) == [])
    && (l.open ==> l.looping)
  }

  function Count(fs: seq<Frame>, f: Frame): nat {
    if fs == [] then 0 else (if fs[0] == f then 1 else 0) + Count(fs[1..], f)
  }

  /** How many places f is in. */
  function Places(l: Link, f: Frame): nat {
    Count(l.wire, f) + Count(Frames(l.outbound), f) + Count(Stored(l.rows), f)
    + Count(l.abandoned, f) + Count(l.evicted, f) + Count(l.spoiled, f)
  }

  lemma {:induction false} CountJoin(a: seq<Frame>, b: seq<Frame>, f: Frame)
    ensures Count(a + b, f) == Count(a, f) + Count(b, f)
    decreases |a|
  {
    if a == [] {
      assert a + b == b;
    } else {
      assert (a + b)[1..] == a[1..] + b;
      CountJoin(a[1..], b, f);
    }
  }

  lemma {:induction false} FramesJoin(a: seq<Item>, b: seq<Item>)
    ensures Frames(a + b) == Frames(a) + Frames(b)
    decreases |a|
  {
    if a == [] {
      assert a + b == b && [] + Frames(b) == Frames(b);
    } else {
      var first := if a[0].Msg? then [a[0].frame] else [];
      FramesJoin(a[1..], b);
      assert (a + b)[0] == a[0] && (a + b)[1..] == a[1..] + b;
      assert first + (Frames(a[1..]) + Frames(b)) == (first + Frames(a[1..])) + Frames(b);
    }
  }

  lemma {:induction false} StoredJoin(a: seq<Row<Frame>>, b: seq<Row<Frame>>)
    ensures Stored(a + b) == Stored(a) + Stored(b)
    decreases |a|
  {
    if a == [] {
      assert a + b == b;
    } else {
      assert (a + b)[1..] == a[1..] + b;
      StoredJoin(a[1..], b);
    }
  }

  lemma {:induction false} FramesOfItems(rows: seq<Row<Frame>>)
    ensures Frames(Items(rows)) == Stored(rows)
    decreases |rows|
  {
    if rows != [] {
      FramesOfItems(rows[1..]);
      FramesJoin([Msg(rows[0].frame)], Items(rows[1..]));
      assert Frames([Msg(rows[0].frame)]) == [rows[0].frame];
    }
  }

  function CountRows(rows: seq<Row<Frame>>, f: Frame): nat {
    if rows == [] then 0 else (if rows[0].frame == f then 1 else 0) + CountRows(rows[1..], f)
  }

  lemma {:induction false} CountStored(rows: seq<Row<Frame>>, f: Frame)
    ensures Count(Stored(rows), f) == CountRows(rows, f)
    decreases |rows|
  {
    if rows != [] {
      assert Stored(rows)[1..] == Stored(rows[1..]);
      CountStored(rows[1..], f);
    }
  }

  lemma CountRowsCons(r: Row<Frame>, rows: seq<Row<Frame>>, f: Frame)
    ensures CountRows([r] + rows, f) == (if r.frame == f then 1 else 0) + CountRows(rows, f)
    ensures CountRows([] + rows, f) == CountRows(rows, f)
  {
    assert ([r] + rows)[1..] == rows;
    assert [] + rows == rows;
  }

  /** A drain splits the table three ways and loses nothing. */
  lemma {:induction false} DrainConserves(rows: seq<Row<Frame>>, f: Frame)
    ensures CountRows(rows, f) == CountRows(Readable(rows), f) + CountRows(Skipped(rows), f) + CountRows(Dregs(rows), f)
    decreases |rows|
  {
    if Readable(rows) == [] {
      NoDregsBelow(rows);
    } else {
      DrainConserves(rows[1..], f);
      CountRowsCons(rows[0], Readable(rows[1..]), f);
      CountRowsCons(rows[0], Skipped(rows[1..]), f);
    }
  }

  lemma {:induction false} ReadOrNot(rows: seq<Row<Frame>>, f: Frame)
    ensures CountRows(rows, f) == CountRows(Readable(rows), f) + CountRows(Unreadable(rows), f)
    decreases |rows|
  {
    if rows != [] {
      ReadOrNot(rows[1..], f);
      CountRowsCons(rows[0], Readable(rows[1..]), f);
      CountRowsCons(rows[0], Unreadable(rows[1..]), f);
    }
  }

  lemma {:induction false} NoneBehindDregs(rows: seq<Row<Frame>>)
    ensures Readable(Dregs(rows)) == []
    decreases |rows|
  {
    if Readable(rows) != [] { NoneBehindDregs(rows[1..]); }
  }

  lemma {:induction false} TakenAndBehind(rows: seq<Row<Frame>>, k: nat)
    ensures rows == Taken(rows, k) + Behind(rows, k)
    decreases |rows|
  {
    if k != 0 && rows != [] {
      TakenAndBehind(rows[1..], if rows[0].ok then k - 1 else k);
    }
  }

  // ----- Sequences in order -------------------------------------------------------------

  lemma DropMiddle(a: seq<Frame>, b: seq<Frame>, c: seq<Frame>)
    requires Increasing(a + b + c)
    ensures Increasing(a + c) && forall f :: f in a + c ==> f in a + b + c
  {
    var whole, kept := a + b + c, a + c;
    forall i, j | 0 <= i < j < |kept| ensures kept[i].id < kept[j].id {
      var i' := if i < |a| then i else i + |b|;
      var j' := if j < |a| then j else j + |b|;
      assert whole[i'] == kept[i] && whole[j'] == kept[j];
    }
  }

  lemma Extend(a: seq<Frame>, f: Frame)
    requires Increasing(a) && forall g :: g in a ==> g.id < f.id
    ensures Increasing(a + [f])
  {
  }

  lemma ReplaceTail(head: seq<Frame>, tail: seq<Frame>, f: Frame, gone: seq<Frame>, kept: seq<Frame>)
    requires Increasing(head + tail + [f]) && tail + [f] == gone + kept
    ensures Increasing(head + kept) && forall g :: g in head + kept ==> g in head + tail || g == f
  {
    assert head + tail + [f] == head + (tail + [f]);
    assert head + (gone + kept) == head + gone + kept;
    DropMiddle(head, gone, kept);
  }

  lemma DropInTail(head: seq<Frame>, a: seq<Frame>, b: seq<Frame>, c: seq<Frame>)
    requires Increasing(head + (a + b + c))
    ensures Increasing(head + (a + c)) && forall f :: f in head + (a + c) ==> f in head + (a + b + c)
  {
    assert head + (a + b + c) == (head + a) + b + c;
    assert head + (a + c) == (head + a) + c;
    DropMiddle(head + a, b, c);
  }

  lemma Prefix(a: seq<Frame>, b: seq<Frame>)
    requires Increasing(a + b)
    ensures Increasing(a)
  {
    assert forall i :: 0 <= i < |a| ==> (a + b)[i] == a[i];
  }

  lemma FlowIsOlder(l: Link)
    requires OrderOk(l)
    ensures forall f :: f in Flow(l) ==> f.id < |l.accepted|
  {
  }

  // ----- Every step keeps order -----------------------------------------------------------

  lemma SendConnectedKeeps(l: Link, f: Frame)
    requires OrderOk(l) && l.connected && f.id == |l.accepted|
    ensures OrderOk(l.(accepted := l.accepted + [f], outbound := l.outbound + [Msg(f)]))
  {
    var t := l.(accepted := l.accepted + [f], outbound := l.outbound + [Msg(f)]);
    FramesJoin(l.outbound, [Msg(f)]);
    assert Frames([Msg(f)]) == [f];
    Extend(Flow(l), f);
    assert Flow(t) == Flow(l) + [f];
  }

  lemma NewestSplits(rows: seq<Row<Frame>>, n: nat) returns (gone: seq<Row<Frame>>)
    ensures var kept := Newest(rows, n);
      && gone == rows[..|rows| - |kept|] && rows == gone + kept
      && Stored(Readable(rows)) == Stored(Readable(gone)) + Stored(Readable(kept))
  {
    var kept := Newest(rows, n);
    gone := rows[..|rows| - |kept|];
    ReadableJoin(gone, kept);
    StoredJoin(Readable(gone), Readable(kept));
  }

  lemma ReadableWith(rows: seq<Row<Frame>>, r: Row<Frame>)
    requires r.ok
    ensures Stored(Readable(rows + [r])) == Stored(Readable(rows)) + [r.frame]
  {
    ReadableJoin(rows, [r]);
    assert Readable([r]) == [r];
    StoredJoin(Readable(rows), [r]);
    assert Stored([r]) == [r.frame];
  }

  /** The flow after a buffered send: one newer frame, perhaps fewer old ones. */
  lemma BufferedFlow(l: Link, f: Frame)
    requires Increasing(Flow(l) + [f])
    ensures var t := Buffered(l, f);
      Increasing(Flow(t)) && forall g :: g in Flow(t) ==> g in Flow(l) || g == f
  {
    var t, r := Buffered(l, f), Row(l.lastSeq + 1, f, true);
    ReadableWith(l.rows, r);
    var gone := NewestSplits(l.rows + [r], l.capacity);
    ReplaceTail(Head(l), Stored(Readable(l.rows)), f, Stored(Readable(gone)), Stored(Readable(t.rows)));
  }

  lemma SendBufferedKeeps(l: Link, f: Frame)
    requires OrderOk(l) && !l.connected && f.id == |l.accepted|
    ensures OrderOk(Buffered(l.(accepted := l.accepted + [f]), f))
  {
    var m := l.(accepted := l.accepted + [f]);
    assert Flow(m) == Flow(l);
    FlowIsOlder(l);
    Extend(Flow(l), f);
    BufferedFlow(m, f);
  }

  lemma UpKeeps(l: Link)
    requires OrderOk(l) && l.open && !l.up
    ensures OrderOk(StreamUp(l))
  {
    var t := StreamUp(l);
    FramesJoin(l.outbound, Items(Readable(l.rows)));
    FramesOfItems(Readable(l.rows));
    NoneBehindDregs(l.rows);
    assert Flow(t) == Flow(l);
  }

  lemma TransmitKeeps(l: Link)
    requires OrderOk(l) && l.open && l.outbound != []
    ensures OrderOk(Transmit(l))
  {
    var t := Transmit(l);
    if l.outbound[0].Msg? {
      assert Frames(l.outbound) == [l.outbound[0].frame] + Frames(l.outbound[1..]);
    } else {
      assert Frames(l.outbound) == Frames(l.outbound[1..]);
    }
    assert Flow(t) == Flow(l);
  }

  /** Losing the queue, the table, or both keeps what is left in order. */
  lemma LosingKeeps(l: Link, t: Link, queue: seq<Frame>, table: seq<Frame>)
    requires OrderOk(l) && t.accepted == l.accepted && t.wire == l.wire
    requires queue == (if l.open then Frames(l.outbound) else [])
    requires Flow(t) == l.wire + table && (table == [] || table == Stored(Readable(l.rows)))
    requires !t.connected && (t.open ==> t.looping && Frames(t.outbound) == [])
    ensures OrderOk(t)
  {
    DropMiddle(l.wire, queue, Stored(Readable(l.rows)));
    DropMiddle(l.wire, Stored(Readable(l.rows)), []);
    assert l.wire + Stored(Readable(l.rows)) + [] == l.wire + Stored(Readable(l.rows));
  }

  lemma EndKeeps(l: Link, t: Link)
    requires OrderOk(l) && !t.open && !t.connected
    requires t.accepted == l.accepted && t.wire == l.wire && t.rows == l.rows
    ensures OrderOk(t)
  {
    LosingKeeps(l, t, if l.open then Frames(l.outbound) else [], Stored(Readable(l.rows)));
  }

  lemma BehindKeeps(l: Link, k: nat)
    requires OrderOk(l) && l.open && !l.up
    ensures OrderOk(l.(rows := Behind(l.rows, k)))
  {
    var rest := Behind(l.rows, k);
    TakenAndBehind(l.rows, k);
    ReadableJoin(Taken(l.rows, k), rest);
    StoredJoin(Readable(Taken(l.rows, k)), Readable(rest));
    var head := l.wire + Frames(l.outbound);
    assert Flow(l) == head + Stored(Readable(Taken(l.rows, k))) + Stored(Readable(rest));
    DropMiddle(head, Stored(Readable(Taken(l.rows, k))), Stored(Readable(rest)));
  }

  lemma ReadableAround(front: seq<Row<Frame>>, r: Row<Frame>, back: seq<Row<Frame>>)
    ensures Stored(Readable(front + [r] + back)) ==
            Stored(Readable(front)) + (if r.ok then [r.frame] else []) + Stored(Readable(back))
  {
    ReadableJoin(front + [r], back);
    ReadableJoin(front, [r]);
    StoredJoin(Readable(front) + Readable([r]), Readable(back));
    StoredJoin(Readable(front), Readable([r]));
    assert Readable([r]) == if r.ok then [r] else [];
    assert Stored(Readable([r])) == if r.ok then [r.frame] else [];
  }

  lemma NothingReadable(rows: seq<Row<Frame>>)
    ensures Stored(Readable(rows)) == [] <==> Readable(rows) == []
  {
  }

  lemma CorruptedHead(l: Link, i: nat)
    requires i < |l.rows|
    ensures Head(Corrupted(l, i)) == Head(l)
  {
  }

  lemma CorruptedFlow(l: Link, i: nat)
    requires Increasing(Flow(l)) && i < |l.rows|
    ensures Increasing(Flow(Corrupted(l, i))) && forall f :: f in Flow(Corrupted(l, i)) ==> f in Flow(l)
    ensures Readable(l.rows) == [] ==> Readable(Corrupted(l, i).rows) == []
  {
    hide Increasing, Head, Stored, Readable;
    var t, r, bad := Corrupted(l, i), l.rows[i], l.rows[i].(ok := false);
    CorruptedHead(l, i);
    var front, back := l.rows[..i], l.rows[i + 1..];
    assert l.rows == front + [r] + back && t.rows == front + [bad] + back;
    ReadableAround(front, r, back);
    ReadableAround(front, bad, back);
    NothingReadable(l.rows);
    NothingReadable(t.rows);
    DropInTail(Head(l), Stored(Readable(front)), if r.ok then [r.frame] else [], Stored(Readable(back)));
    assert Stored(Readable(front)) + [] + Stored(Readable(back)) == Stored(Readable(front)) + Stored(Readable(back));
  }

  lemma CorruptedKeeps(l: Link, i: nat)
    requires OrderOk(l) && i < |l.rows|
    ensures OrderOk(Corrupted(l, i))
  {
    CorruptedFlow(l, i);
  }

  lemma SendKeeps(l: Link, body: string, critical: bool)
    requires OrderOk(l)
    ensures OrderOk(Send(l, body, critical))
  {
    var f := Frame(|l.accepted|, body);
    if !Raises(l, critical) {
      if l.connected { SendConnectedKeeps(l, f); } else { SendBufferedKeeps(l, f); }
    }
  }

  lemma StopCalledKeeps(l: Link)
    requires OrderOk(l)
    ensures OrderOk(StopCalled(l))
  {
    FramesJoin(l.outbound, [Close]);
    assert Flow(StopCalled(l)) == Flow(l);
  }

  lemma CrashKeeps(l: Link)
    requires OrderOk(l)
    ensures OrderOk(Crash(l))
  {
    var queue := if l.open then Frames(l.outbound) else [];
    LosingKeeps(l, Crash(l), queue, if l.durable then Stored(Readable(l.rows)) else []);
  }

  lemma CrashInFlushKeeps(l: Link, k: nat)
    requires OrderOk(l) && l.open && !l.up
    ensures OrderOk(CrashInFlush(l, k))
  {
    var m := l.(rows := Behind(l.rows, k),
                abandoned := l.abandoned + Stored(Readable(Taken(l.rows, k))),
                spoiled := l.spoiled + Stored(Unreadable(Taken(l.rows, k))));
    BehindKeeps(l, k);
    assert OrderOk(m) by { assert Flow(m) == Flow(l.(rows := Behind(l.rows, k))); }
    CrashKeeps(m);
  }

  lemma StepKeepsOrder(l: Link, x: Step)
    requires OrderOk(l) && Enabled(l, x)
    ensures OrderOk(Apply(l, x))
  {
    match x
    case Sent(body, critical) => SendKeeps(l, body, critical);
    case Started => assert Flow(Apply(l, x)) == Flow(l);
    case Opened => LosingKeeps(l, OpenStream(l), [], Stored(Readable(l.rows)));
    case Up => UpKeeps(l);
    case Transmitted => TransmitKeeps(l);
    case Ended => EndKeeps(l, StreamEnded(l));
    case Stopped => StopCalledKeeps(l);
    case Joined => EndKeeps(l, StopJoined(l));
    case StopReturned => assert Flow(StopDone(l)) == Flow(l);
    case Crashed => CrashKeeps(l);
    case CrashedInFlush(k) => CrashInFlushKeeps(l, k);
    case WentBad(i) => CorruptedKeeps(l, i);
  }

  // ----- Every step accounts for every frame ------------------------------------------------

  /** A step moves frames between places; only send() brings in a new one. */
  predicate Conserves(l: Link, t: Link, f: Frame) {
    Places(t, f) + Count(l.accepted, f) == Places(l, f) + Count(t.accepted, f)
  }

  lemma QueuedConserves(l: Link, g: Frame, f: Frame)
    ensures Places(l.(outbound := l.outbound + [Msg(g)]), f) == Places(l, f) + Count([g], f)
  {
    FramesJoin(l.outbound, [Msg(g)]);
    assert Frames([Msg(g)]) == [g];
    CountJoin(Frames(l.outbound), [g], f);
  }

  lemma SendConserves(l: Link, body: string, critical: bool, f: Frame)
    ensures Conserves(l, Send(l, body, critical), f)
  {
    if !Raises(l, critical) {
      var g := Frame(|l.accepted|, body);
      var m := l.(accepted := l.accepted + [g]);
      CountJoin(l.accepted, [g], f);
      if l.connected { QueuedConserves(m, g, f); } else { BufferedConserves(m, g, f); }
      assert Places(m, f) == Places(l, f);
    }
  }

  lemma BufferedConserves(l: Link, g: Frame, f: Frame)
    ensures Places(Buffered(l, g), f) == Places(l, f) + Count([g], f)
  {
    var r := Row(l.lastSeq + 1, g, true);
    var all := l.rows + [r];
    var gone := NewestSplits(all, l.capacity);
    StoredJoin(l.rows, [r]);
    assert Stored([r]) == [g];
    CountJoin(Stored(l.rows), [g], f);
    StoredJoin(gone, Newest(all, l.capacity));
    CountJoin(Stored(gone), Stored(Newest(all, l.capacity)), f);
    CountJoin(l.evicted, Stored(gone), f);
  }

  lemma UpConserves(l: Link, f: Frame)
    ensures Conserves(l, StreamUp(l), f)
  {
    FramesJoin(l.outbound, Items(Readable(l.rows)));
    FramesOfItems(Readable(l.rows));
    CountJoin(Frames(l.outbound), Stored(Readable(l.rows)), f);
    CountJoin(l.spoiled, Stored(Skipped(l.rows)), f);
    DrainConserves(l.rows, f);
    CountStored(l.rows, f);
    CountStored(Readable(l.rows), f);
    CountStored(Skipped(l.rows), f);
    CountStored(Dregs(l.rows), f);
  }

  lemma TransmitConserves(l: Link, f: Frame)
    requires l.outbound != []
    ensures Conserves(l, Transmit(l), f)
  {
    hide Count, Frames, Stored;
    FramesBehind(l.outbound);
    if l.outbound[0].Msg? {
      CountJoin(l.wire, [l.outbound[0].frame], f);
      CountJoin([l.outbound[0].frame], Frames(l.outbound[1..]), f);
    }
  }

  lemma FramesBehind(items: seq<Item>)
    requires items != []
    ensures Frames(items) == if items[0].Msg? then [items[0].frame] + Frames(items[1..]) else Frames(items[1..])
  {
    assert [] + Frames(items[1..]) == Frames(items[1..]);
  }

  lemma CrashConserves(l: Link, f: Frame)
    ensures Conserves(l, Crash(l), f)
  {
    CountJoin(l.abandoned + Frames(l.outbound), Stored(l.rows), f);
    CountJoin(l.abandoned, Frames(l.outbound), f);
    assert l.abandoned + Frames(l.outbound) + [] == l.abandoned + Frames(l.outbound);
  }

  lemma CrashInFlushConserves(l: Link, k: nat, f: Frame)
    requires l.durable
    ensures Conserves(l, CrashInFlush(l, k), f)
  {
    var taken, rest := Taken(l.rows, k), Behind(l.rows, k);
    TakenAndBehind(l.rows, k);
    StoredJoin(taken, rest);
    CountJoin(Stored(taken), Stored(rest), f);
    ReadOrNot(taken, f);
    CountStored(taken, f);
    CountStored(Readable(taken), f);
    CountStored(Unreadable(taken), f);
    CountJoin(l.abandoned, Stored(Readable(taken)), f);
    CountJoin(l.spoiled, Stored(Unreadable(taken)), f);
    CrashConserves(l.(rows := rest, abandoned := l.abandoned + Stored(Readable(taken)),
                      spoiled := l.spoiled + Stored(Unreadable(taken))), f);
  }

  lemma {:induction false} CorruptedStores(rows: seq<Row<Frame>>, i: nat)
    requires i < |rows|
    ensures Stored(rows[i := rows[i].(ok := false)]) == Stored(rows)
    decreases |rows|
  {
    var bad := rows[i := rows[i].(ok := false)];
    if i > 0 {
      assert bad[1..] == rows[1..][i - 1 := rows[i].(ok := false)];
      CorruptedStores(rows[1..], i - 1);
    } else {
      assert bad[1..] == rows[1..];
    }
  }

  lemma StepConserves(l: Link, x: Step, f: Frame)
    requires Enabled(l, x)
    ensures Conserves(l, Apply(l, x), f)
  {
    match x
    case Sent(body, critical) => SendConserves(l, body, critical, f);
    case Opened => CountJoin(l.abandoned, Frames(l.outbound), f);
    case Up => UpConserves(l, f);
    case Transmitted => TransmitConserves(l, f);
    case Stopped =>
      FramesJoin(l.outbound, [Close]);
      assert Frames([Close]) == [] && Frames(l.outbound) + [] == Frames(l.outbound);
    case Crashed => CrashConserves(l, f);
    case CrashedInFlush(k) => CrashInFlushConserves(l, k, f);
    case WentBad(i) => CorruptedStores(l.rows, i);
    case _ =>
  }

  // ----- Over whole runs ----------------------------------------------------------------------

  lemma {:induction false} RunKeepsOrder(l: Link, xs: seq<Step>)
    requires OrderOk(l) && Legal(l, xs)
    ensures OrderOk(Run(l, xs))
    decreases |xs|
  {
    if xs != [] {
      StepKeepsOrder(l, xs[0]);
      RunKeepsOrder(Apply(l, xs[0]), xs[1..]);
    }
  }

  lemma {:induction false} RunConserves(l: Link, xs: seq<Step>, f: Frame)
    requires Legal(l, xs)
    ensures Conserves(l, Run(l, xs), f)
    decreases |xs|
  {
    if xs != [] {
      StepConserves(l, xs[0], f);
      RunConserves(Apply(l, xs[0]), xs[1..], f);
    }
  }

  /**
  Across reconnects, restarts and crashes at any point, with any pattern of sends, what
  is on the wire is accepted frames, each at most once, in the order of acceptance.
  */
  lemma WireIsInOrder(durable: bool, capacity: nat, xs: seq<Step>)
    requires Legal(Boot(durable, capacity), xs)
    ensures var l := Run(Boot(durable, capacity), xs);
      Increasing(l.wire) && forall i :: 0 <= i < |l.wire| ==> l.wire[i].id < |l.accepted| && l.accepted[l.wire[i].id] == l.wire[i]
  {
    RunKeepsOrder(Boot(durable, capacity), xs);
    var l := Run(Boot(durable, capacity), xs);
    var queue := if l.open then Frames(l.outbound) else [];
    Prefix(Head(l), Stored(Readable(l.rows)));
    Prefix(l.wire, queue);
    forall i | 0 <= i < |l.wire| ensures l.wire[i].id < |l.accepted| && l.accepted[l.wire[i].id] == l.wire[i] {
      assert l.wire[i] in Flow(l);
    }
  }

  lemma {:induction false} AcceptedOnce(fs: seq<Frame>, k: nat, i: nat)
    requires k <= i < |fs| && forall j :: 0 <= j < |fs| ==> fs[j].id == j
    ensures Count(fs[k..], fs[i]) == 1
    decreases |fs| - k
  {
    assert fs[k..][1..] == fs[k + 1..];
    if k == i {
      NotLater(fs, k + 1, fs[i]);
    } else {
      AcceptedOnce(fs, k + 1, i);
    }
  }

  lemma {:induction false} NotLater(fs: seq<Frame>, k: nat, f: Frame)
    requires k <= |fs| && f.id < k && forall j :: 0 <= j < |fs| ==> fs[j].id == j
    ensures Count(fs[k..], f) == 0
    decreases |fs| - k
  {
    if k < |fs| {
      assert fs[k..][1..] == fs[k + 1..];
      NotLater(fs, k + 1, f);
    }
  }

  /**
  Every accepted frame is in exactly one place: on the wire, in the queue, in the
  buffer, abandoned in the queue of a dead stream or process, evicted, or deleted
  undecodable. With a single place each, nothing is duplicated and nothing vanishes.
  */
  lemma EveryFrameHasOneFate(durable: bool, capacity: nat, xs: seq<Step>, i: nat)
    requires Legal(Boot(durable, capacity), xs) && i < |Run(Boot(durable, capacity), xs).accepted|
    ensures var l := Run(Boot(durable, capacity), xs); Places(l, l.accepted[i]) == 1
  {
    var l := Run(Boot(durable, capacity), xs);
    RunKeepsOrder(Boot(durable, capacity), xs);
    RunConserves(Boot(durable, capacity), xs, l.accepted[i]);
    AcceptedOnce(l.accepted, 0, i);
    assert l.accepted[0..] == l.accepted;
  }

  // ----- The close sentinel ----------------------------------------------------------------------

  /** A stream has met a close sentinel only if stop() was called during that very stream. */
  predicate NoStaleClose(l: Link) {
    (l.open ==> l.looping) && (l.open && !l.stopping ==> l.reading && Close !in l.outbound)
  }

  lemma {:induction false} ItemsHaveNoClose(rows: seq<Row<Frame>>)
    ensures Close !in Items(rows)
    decreases |rows|
  {
    if rows != [] { ItemsHaveNoClose(rows[1..]); }
  }

  lemma {:induction false} StaleCloseNeverLeaks(l: Link, xs: seq<Step>)
    requires NoStaleClose(l) && Legal(l, xs)
    ensures NoStaleClose(Run(l, xs))
    decreases |xs|
  {
    if xs != [] {
      ItemsHaveNoClose(Readable(l.rows));
      StaleCloseNeverLeaks(Apply(l, xs[0]), xs[1..]);
    }
  }

  /** From a fresh process on: an open stream that nobody is stopping never ends by a sentinel of an earlier one. */
  lemma NoStreamMeetsAStaleClose(durable: bool, capacity: nat, xs: seq<Step>)
    requires Legal(Boot(durable, capacity), xs)
    ensures NoStaleClose(Run(Boot(durable, capacity), xs))
  {
    StaleCloseNeverLeaks(Boot(durable, capacity), xs);
  }
}
