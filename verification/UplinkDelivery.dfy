/**
What the uplink takes in and what it puts on the wire, told from the events of a run alone:
which sends are accepted, when a client counts as connected, and when the wire has caught up.
*/
module UplinkDelivery {
  import opened EventBuffer
  import opened Uplink

  lemma {:induction false} RunMore(l: Link, xs: seq<Step>, x: Step)
    requires Legal(l, xs + [x])
    ensures Legal(l, xs) && Enabled(Run(l, xs), x) && Run(l, xs + [x]) == Apply(Run(l, xs), x)
    decreases |xs|
  {
    hide Enabled, Apply;
    if xs == [] {
      assert xs + [x] == [x] && [x][1..] == [];
    } else {
      assert (xs + [x])[1..] == xs[1..] + [x];
      RunMore(Apply(l, xs[0]), xs[1..], x);
    }
  }

  // ----- Which sends are accepted ---------------------------------------------------------

  /** The events after which a client is not connected. */
  predicate Disconnects(x: Step) {
    x.Ended? || x.Joined? || x.StopReturned? || x.Crashed? || x.CrashedInFlush?
  }

  /** A stream has come up and nothing has disconnected it since. */
  predicate Online(xs: seq<Step>) {
    exists i :: 0 <= i < |xs| && xs[i].Up? && forall j :: i < j < |xs| ==> !Disconnects(xs[j])
  }

  lemma OnlineBefore(xs: seq<Step>, x: Step)
    requires Online(xs + [x]) && !x.Up?
    ensures Online(xs) && !Disconnects(x)
  {
    var ys := xs + [x];
    var i :| 0 <= i < |ys| && ys[i].Up? && forall j :: i < j < |ys| ==> !Disconnects(ys[j]);
    assert !Disconnects(ys[|xs|]);
    assert xs[i].Up? && forall j :: i < j < |xs| ==> ys[j] == xs[j];
  }

  lemma OnlineMore(xs: seq<Step>, x: Step)
    ensures Online(xs + [x]) <==> x.Up? || (Online(xs) && !Disconnects(x))
  {
    var ys := xs + [x];
    if x.Up? {
      assert ys[|xs|].Up?;
    } else if Online(xs) && !Disconnects(x) {
      var i :| 0 <= i < |xs| && xs[i].Up? && forall j :: i < j < |xs| ==> !Disconnects(xs[j]);
      assert ys[i].Up?;
    } else if Online(ys) {
      OnlineBefore(xs, x);
    }
  }

  /** The bodies of the sends made while online or without the critical flag, in order. */
  function Offered(xs: seq<Step>): seq<string> {
    if xs == [] then []
    else
      var rest, x := xs[..|xs| - 1], xs[|xs| - 1];
      Offered(rest) + if x.Sent? && (Online(rest) || !x.critical) then [x.body] else []
  }

  function Bodies(fs: seq<Frame>): (bs: seq<string>)
    ensures |bs| == |fs| && forall i :: 0 <= i < |fs| ==> bs[i] == fs[i].body
  {
    seq(|fs|, i requires 0 <= i < |fs| => fs[i].body)
  }

  /** One step's part in `accepted` and `connected`. */
  lemma StepTakesIn(l: Link, x: Step)
    requires Enabled(l, x)
    ensures var t := Apply(l, x);
      && (t.connected <==> x.Up? || (l.connected && !Disconnects(x)))
      && Bodies(t.accepted) == Bodies(l.accepted) + if x.Sent? && (l.connected || !x.critical) then [x.body] else []
  {
    hide Newest, Readable, Dregs, Skipped, Stored, Items;
  }

  lemma NothingOffered(durable: bool, capacity: nat)
    ensures !Online([]) && Run(Boot(durable, capacity), []) == Boot(durable, capacity)
  {
  }

  /**
  Over every run: the client is connected exactly from a stream's coming up to the next
  end, stop or crash, and has accepted exactly the sends made while it was or without the
  critical flag, in order.
  */
  lemma {:induction false} ExactlyTheOfferedIsAccepted(durable: bool, capacity: nat, xs: seq<Step>)
    requires Legal(Boot(durable, capacity), xs)
    ensures var l := Run(Boot(durable, capacity), xs);
      (l.connected <==> Online(xs)) && Bodies(l.accepted) == Offered(xs)
    decreases |xs|
  {
    hide Run, Legal, Enabled, Apply, Online;
    if xs == [] {
      NothingOffered(durable, capacity);
    } else {
      var rest, x := xs[..|xs| - 1], xs[|xs| - 1];
      assert xs == rest + [x];
      RunMore(Boot(durable, capacity), rest, x);
      ExactlyTheOfferedIsAccepted(durable, capacity, rest);
      StepTakesIn(Run(Boot(durable, capacity), rest), x);
      OnlineMore(rest, x);
    }
  }

  lemma OrderHolds(durable: bool, capacity: nat, xs: seq<Step>)
    requires Legal(Boot(durable, capacity), xs)
    ensures OrderOk(Run(Boot(durable, capacity), xs))
  {
    RunKeepsOrder(Boot(durable, capacity), xs);
  }

  // ----- Where each step moves the frames ---------------------------------------------------

  /** The buffer stays within its bound. */
  predicate Bounded(l: Link) {
    |l.rows| <= l.capacity
  }

  lemma {:induction false} BehindIsShorter(rows: seq<Row<Frame>>, k: nat)
    ensures |Behind(rows, k)| <= |rows|
    decreases |rows|
  {
    if k != 0 && rows != [] { BehindIsShorter(rows[1..], if rows[0].ok then k - 1 else k); }
  }

  lemma {:induction false} DregsAreShorter(rows: seq<Row<Frame>>)
    ensures |Dregs(rows)| <= |rows|
    decreases |rows|
  {
    if Readable(rows) != [] { DregsAreShorter(rows[1..]); }
  }

  lemma NewestIsBounded(rows: seq<Row<Frame>>, n: nat)
    ensures |Newest(rows, n)| <= n
  {
  }

  lemma StepStaysBounded(l: Link, x: Step)
    requires Bounded(l) && Enabled(l, x)
    ensures Bounded(Apply(l, x)) && Apply(l, x).capacity == l.capacity && Apply(l, x).durable == l.durable
  {
    hide Readable, Dregs, Skipped, Stored, Items, Frames, Behind, Taken, Unreadable, Newest;
    DregsAreShorter(l.rows);
    if x.Sent? { NewestIsBounded(l.rows + [Row(l.lastSeq + 1, Frame(|l.accepted|, x.body), true)], l.capacity); }
    if x.CrashedInFlush? { BehindIsShorter(l.rows, x.k); }
  }

  lemma {:induction false} RunStaysBounded(l: Link, xs: seq<Step>)
    requires Bounded(l) && Legal(l, xs)
    ensures Bounded(Run(l, xs)) && Run(l, xs).capacity == l.capacity && Run(l, xs).durable == l.durable
    decreases |xs|
  {
    hide Bounded, Apply, Enabled;
    if xs != [] {
      StepStaysBounded(l, xs[0]);
      RunStaysBounded(Apply(l, xs[0]), xs[1..]);
    }
  }

  /**
  A critical send while disconnected changes nothing. Any other adds one frame with its
  body: behind the queue when connected, else behind the buffer, which gives up its oldest
  row for it exactly when it is full.
  */
  lemma SendOutcome(durable: bool, capacity: nat, xs: seq<Step>, body: string, critical: bool)
    requires capacity > 0 && Legal(Boot(durable, capacity), xs)
    ensures var l := Run(Boot(durable, capacity), xs); var t := Apply(l, Sent(body, critical));
      var f := Frame(|l.accepted|, body);
      var full := |l.rows| == capacity;
      if !l.connected && critical then t == l
      else if l.connected then t == l.(accepted := l.accepted + [f], outbound := l.outbound + [Msg(f)])
      else
        t == l.(accepted := l.accepted + [f], lastSeq := l.lastSeq + 1,
                rows := (if full then l.rows[1..] else l.rows) + [Row(l.lastSeq + 1, f, true)],
                evicted := if full then l.evicted + [l.rows[0].frame] else l.evicted)
  {
    hide Run, Legal;
    RunStaysBounded(Boot(durable, capacity), xs);
    var l := Run(Boot(durable, capacity), xs);
    var all := l.rows + [Row(l.lastSeq + 1, Frame(|l.accepted|, body), true)];
    if |l.rows| == capacity {
      assert all[..1] == [l.rows[0]] && all[1..] == l.rows[1..] + [all[capacity]];
      assert Stored([l.rows[0]]) == [l.rows[0].frame];
    } else {
      assert l.evicted + [] == l.evicted;
    }
  }

  /** Only the head of the queue is ever sent, and nothing on the wire is ever taken back. */
  lemma OnlyTheQueueHeadIsSent(l: Link, x: Step)
    requires Enabled(l, x)
    ensures Apply(l, x).wire == l.wire + if x.Transmitted? && l.outbound[0].Msg? then [l.outbound[0].frame] else []
  {
    hide Newest, Readable, Dregs, Skipped, Stored, Items, Frames, Behind, Taken, Unreadable;
    assert l.wire + [] == l.wire;
  }

  /** Only a full buffer evicts, and only for a send; only a flush gives up undecodable rows. */
  lemma OnlyAFullBufferEvicts(l: Link, x: Step)
    requires Enabled(l, x) && Bounded(l)
    ensures Apply(l, x).evicted != l.evicted ==> x.Sent? && !x.critical && !l.connected && |l.rows| == l.capacity
    ensures Apply(l, x).spoiled != l.spoiled ==> x.Up? || x.CrashedInFlush?
  {
    hide Readable, Dregs, Skipped, Items, Frames, Behind, Taken, Unreadable;
    assert Stored([]) == [] && l.evicted + [] == l.evicted;
    if x.Sent? {
      var all := l.rows + [Row(l.lastSeq + 1, Frame(|l.accepted|, x.body), true)];
      assert all[..0] == [];
    }
  }

  /** Frames are abandoned only with the queue of a stream that is replaced, or by a crash, which takes the queue and what is not on disk. */
  lemma OnlyDeadQueuesAreAbandoned(l: Link, x: Step)
    requires Enabled(l, x)
    ensures var t := Apply(l, x);
      match x
      case Opened => t.outbound == [] && t.abandoned == l.abandoned + Frames(l.outbound) && t.rows == l.rows && t.open && t.reading && !t.up
      case Crashed =>
        && t.outbound == [] && !t.looping && !t.open && t.rows == (if l.durable then l.rows else [])
        && t.abandoned == l.abandoned + Frames(l.outbound) + (if l.durable then [] else Stored(l.rows))
      case CrashedInFlush(_) => t.outbound == [] && !t.open
      case _ => t.abandoned == l.abandoned
  {
    hide Newest, Readable, Dregs, Skipped, Stored, Items, Frames, Behind, Taken, Unreadable;
  }

  /** Nothing else touches queue and buffer but a send, a flush, the transport, and the sentinel of a stop. */
  lemma OnlyTheseTouchTheQueue(l: Link)
    ensures l.open && l.reading && l.outbound != [] ==>
      var t := Apply(l, Transmitted);
      t == l.(outbound := l.outbound[1..], reading := l.outbound[0].Msg?, wire := t.wire)
    ensures var t := Apply(l, Stopped); t == l.(outbound := l.outbound + [Close], stopping := true, stops := l.stops + 1)
    ensures !l.looping ==> Apply(l, Started) == l.(looping := true, stopping := false)
    ensures l.open ==> Apply(l, Ended) == l.(open := false, connected := false)
    ensures l.stopping ==> Apply(l, Joined) == l.(stopping := false, looping := false, open := false, connected := false)
    ensures l.stops > 0 ==> Apply(l, StopReturned) == l.(stops := l.stops - 1, connected := false)
  {
    hide Send, OpenStream, StreamUp, Crash, CrashInFlush, Corrupted;
  }

  /** A payload gone bad is the only change it makes. */
  lemma CorruptionSpoilsOneRow(l: Link, i: nat, j: nat)
    requires Enabled(l, WentBad(i)) && j < |l.rows|
    ensures var t := Apply(l, WentBad(i));
      && t == l.(rows := t.rows) && |t.rows| == |l.rows|
      && t.rows[j] == l.rows[j].(ok := l.rows[j].ok && j != i)
  {
  }

  lemma {:induction false} SkippedIsBad(rows: seq<Row<Frame>>, r: Row<Frame>)
    ensures r in Skipped(rows) ==> r in rows && !r.ok
    decreases |rows|
  {
    if rows != [] && r in Skipped(rows) {
      assert Readable(rows) != [];
      SkippedIsBad(rows[1..], r);
    }
  }

  lemma {:induction false} DregsAreBad(rows: seq<Row<Frame>>, r: Row<Frame>)
    ensures r in Dregs(rows) ==> r in rows && !r.ok
    decreases |rows|
  {
    ReadableIn(rows, r);
    if Readable(rows) != [] { DregsAreBad(rows[1..], r); }
  }

  /**
  A stream that comes up has exactly the readable rows on its queue, in order; what it
  leaves behind or gives up is undecodable.
  */
  lemma UpOutcome(durable: bool, capacity: nat, xs: seq<Step>, r: Row<Frame>)
    requires Legal(Boot(durable, capacity), xs) && Enabled(Run(Boot(durable, capacity), xs), Up)
    ensures var l := Run(Boot(durable, capacity), xs); var t := Apply(l, Up);
      && t.connected && t.up && t.wire == l.wire && t.accepted == l.accepted && t.abandoned == l.abandoned && t.evicted == l.evicted
      && Frames(t.outbound) == Stored(Readable(l.rows)) && t.spoiled == l.spoiled + Stored(Skipped(l.rows))
      && (r in t.rows || r in Skipped(l.rows) ==> r in l.rows && !r.ok)
  {
    hide Run, Legal, Readable, Dregs, Skipped;
    OrderHolds(durable, capacity, xs);
    var l := Run(Boot(durable, capacity), xs);
    FramesJoin(l.outbound, Items(Readable(l.rows)));
    FramesOfItems(Readable(l.rows));
    assert [] + Stored(Readable(l.rows)) == Stored(Readable(l.rows));
    SkippedIsBad(l.rows, r);
    DregsAreBad(l.rows, r);
  }

  lemma ReadableFront(r: Row<Frame>, rows: seq<Row<Frame>>)
    ensures Readable([r] + rows) == if r.ok then [r] + Readable(rows) else Readable(rows)
    ensures Unreadable([r] + rows) == if r.ok then Unreadable(rows) else [r] + Unreadable(rows)
  {
    assert ([r] + rows)[1..] == rows;
    assert [] + Readable(rows) == Readable(rows) && [] + Unreadable(rows) == Unreadable(rows);
  }

  lemma {:induction false} TakenIsTheFirst(rows: seq<Row<Frame>>, k: nat)
    requires k <= |Readable(rows)|
    ensures Readable(Taken(rows, k)) == Readable(rows)[..k] && Readable(Behind(rows, k)) == Readable(rows)[k..]
    ensures forall r :: r in Unreadable(Taken(rows, k)) ==> !r.ok
    decreases |rows|
  {
    if k != 0 && rows != [] {
      var rest := if rows[0].ok then k - 1 else k;
      TakenIsTheFirst(rows[1..], rest);
      ReadableFront(rows[0], rows[1..]);
      ReadableFront(rows[0], Taken(rows[1..], rest));
    }
  }

  /**
  A crash k rows into a flush costs exactly the first k readable frames of the table: the
  others are still there, and nothing was sent.
  */
  lemma CrashInFlushCostsTheFirst(l: Link, k: nat)
    requires Enabled(l, CrashedInFlush(k))
    ensures var t := Apply(l, CrashedInFlush(k));
      && t.wire == l.wire && Readable(t.rows) == Readable(l.rows)[k..]
      && t.abandoned == l.abandoned + Stored(Readable(l.rows)[..k]) + Frames(l.outbound)
      && t.outbound == [] && !t.looping && !t.open && !t.connected
  {
    hide Readable, Behind, Taken, Unreadable, Stored, Frames;
    TakenIsTheFirst(l.rows, k);
    var a := l.abandoned + Stored(Readable(l.rows)[..k]) + Frames(l.outbound);
    assert a + [] == a;
  }

  // ----- Nothing is left to send ----------------------------------------------------------------

  lemma {:induction false} IdsClimb(fs: seq<Frame>, k: nat)
    requires Increasing(fs) && k < |fs|
    ensures fs[k].id >= k
    decreases k
  {
    if k > 0 {
      IdsClimb(fs, k - 1);
      assert fs[k - 1].id < fs[k].id;
    }
  }

  lemma {:induction false} CountIsIn(fs: seq<Frame>, f: Frame) returns (p: nat)
    requires Count(fs, f) > 0
    ensures p < |fs| && fs[p] == f
    decreases |fs|
  {
    p := 0;
    if fs[0] != f {
      p := CountIsIn(fs[1..], f);
      p := p + 1;
    }
  }

  /** `some` is an increasing selection from the numbered sequence `all` that misses nothing. */
  ghost predicate Selects(some: seq<Frame>, all: seq<Frame>) {
    && Increasing(some)
    && (forall i :: 0 <= i < |all| ==> all[i].id == i && Count(some, all[i]) > 0)
    && (forall i :: 0 <= i < |some| ==> some[i].id < |all| && all[some[i].id] == some[i])
  }

  lemma {:induction false} InPlace(some: seq<Frame>, all: seq<Frame>, k: nat)
    requires Selects(some, all) && k < |some|
    ensures k < |all| && some[k] == all[k]
    decreases k
  {
    hide Count;
    IdsClimb(some, k);
    var p := CountIsIn(some, all[k]);
    if p < k { InPlace(some, all, p); }
  }

  lemma AllOfThem(some: seq<Frame>, all: seq<Frame>)
    requires Selects(some, all)
    ensures some == all
  {
    hide Increasing, Count;
    forall k | 0 <= k < |some| ensures k < |all| && some[k] == all[k] { InPlace(some, all, k); }
    if some != [] { InPlace(some, all, |some| - 1); }
    if |some| < |all| {
      var p := CountIsIn(some, all[|some|]);
    }
  }

  /**
  A client with nothing queued, nothing buffered and nothing lost has put exactly the
  offered bodies on the wire, in the order they were offered.
  */
  lemma CaughtUp(durable: bool, capacity: nat, xs: seq<Step>)
    requires Legal(Boot(durable, capacity), xs)
    requires var l := Run(Boot(durable, capacity), xs);
      Frames(l.outbound) == [] && l.rows == [] && l.abandoned == [] && l.evicted == [] && l.spoiled == []
    ensures Bodies(Run(Boot(durable, capacity), xs).wire) == Offered(xs)
  {
    hide Run, Legal, Flow, Offered;
    var l := Run(Boot(durable, capacity), xs);
    ExactlyTheOfferedIsAccepted(durable, capacity, xs);
    WireIsInOrder(durable, capacity, xs);
    OrderHolds(durable, capacity, xs);
    forall i | 0 <= i < |l.accepted| ensures Count(l.wire, l.accepted[i]) > 0 {
      EveryFrameHasOneFate(durable, capacity, xs, i);
    }
    AllOfThem(l.wire, l.accepted);
  }
}
