/**
`CloudEdgeGrpcClient` as an object: each method is the code between two suspension
points and does to the state exactly what the step of the same name in `Uplink` does.
*/
module GrpcClient {
  import opened Options
  import opened EventBuffer
  import U = Uplink

  type Frame = U.Frame

  class CloudEdgeGrpcClient {
    const durable: SqliteEventBuffer?<Frame>   // _durable_buffer
    const memoryLimit: nat                     // maxlen of the deque
    var memory: seq<Frame>                     // _memory_buffer, when there is no durable one
    var looping: bool                          // _connect_task is not None
    var stopping: bool                         // _stop_event
    var stops: nat                             // stop() calls that have not returned
    var open: bool                             // an RPC has been opened and has not ended
    var up: bool                               // ... and the server has accepted it
    var connected: bool
    var reading: bool                          // the stream's _outbound_iter is alive
    var outbound: seq<U.Item>

    // Bookkeeping of the model: what was accepted, and where it went.
    ghost var shadow: seq<Row<Frame>>          // the deque's frames as numbered rows
    ghost var appends: nat
    ghost var accepted: seq<Frame>
    ghost var wire: seq<Frame>
    ghost var abandoned: seq<Frame>
    ghost var evicted: seq<Frame>
    ghost var spoiled: seq<Frame>
    var count: nat                             // numbers the frames

    ghost predicate Valid()
      reads this, durable
    {
      && memoryLimit > 0 && count == |accepted|
      && if durable != null then durable.Valid()
         else U.Stored(shadow) == memory && AllReadable(shadow) && |memory| <= memoryLimit
    }

    ghost function State(): U.Link
      reads this, durable
    {
      U.Link(durable != null, if durable != null then durable.capacity else memoryLimit,
             looping, stopping, stops, open, up, connected, reading, outbound,
             if durable != null then durable.rows else shadow,
             if durable != null then durable.lastSeq else appends,
             accepted, wire, abandoned, evicted, spoiled)
    }

    constructor (buffer: SqliteEventBuffer?<Frame>, limit: nat)
      requires limit > 0
      requires buffer != null ==> buffer.Valid() && buffer.rows == [] && buffer.lastSeq == 0
      ensures Valid() && durable == buffer
      ensures State() == U.Boot(buffer != null, if buffer != null then buffer.capacity else limit)
    {
      durable, memoryLimit, memory := buffer, limit, [];
      looping, stopping, open, up, connected, reading := false, false, false, false, false, false;
      stops, outbound, count := 0, [], 0;
      shadow, appends, accepted, wire, abandoned, evicted, spoiled := [], 0, [], [], [], [], [];
    }

    /** start(), as far as the connect loop is concerned; `raised` when it is already running. */
    method Start() returns (raised: bool)
      requires Valid()
      modifies this`looping, this`stopping
      ensures Valid() && raised == old(looping)
      ensures State() == if raised then old(State()) else U.Apply(old(State()), U.Started)
    {
      if looping {
        return true;
      }
      stopping := false;
      looping := true;
      return false;
    }

    /** send(); `raised` stands for EdgeNotConnected. */
    method Send(body: string, critical: bool) returns (raised: bool)
      requires Valid()
      modifies this, durable
      ensures Valid() && State() == U.Send(old(State()), body, critical)
      ensures raised == (!old(connected) && critical)
      ensures raised ==> State() == old(State())
      ensures !raised ==> accepted == old(accepted) + [U.Frame(old(count), body)] && wire == old(wire)
      ensures !raised && old(connected) ==> outbound == old(outbound) + [U.Msg(U.Frame(old(count), body))]
      ensures !raised && !old(connected) ==>
                outbound == old(outbound) && State().rows != [] && State().rows[|State().rows| - 1].frame == U.Frame(old(count), body)
    {
      hide U.Buffered, U.Stored, AllReadable, Ascending, Newest;
      var message := U.Frame(count, body);
      if connected {
        outbound := outbound + [U.Msg(message)];
        accepted, count := accepted + [message], count + 1;
        return false;
      }
      if critical {
        return true;
      }
      accepted, count := accepted + [message], count + 1;
      Store(message);
      return false;
    }

    /** The buffer is the durable one if there is one, else the deque; the message is its last row. */
    method Store(message: Frame)
      requires Valid()
      modifies this`evicted, this`memory, this`shadow, this`appends, durable
      ensures Valid() && State() == U.Buffered(old(State()), message)
      ensures State().rows != [] && State().rows[|State().rows| - 1].frame == message
    {
      hide U.Buffered, U.Stored, Newest, AllReadable;
      BufferedLast(State(), message);
      if durable != null {
        AppendDurable(message);
      } else {
        AppendMemory(message);
      }
    }

    method AppendDurable(message: Frame)
      requires durable != null && Valid()
      modifies this`evicted, durable
      ensures Valid() && State() == U.Buffered(old(State()), message)
    {
      hide U.Stored;
      ghost var all := durable.rows + [Row(durable.lastSeq + 1, message, true)];
      var _ := durable.Append(message);
      evicted := evicted + U.Stored(all[..|all| - |durable.rows|]);
    }

    method AppendMemory(message: Frame)
      requires durable == null && Valid()
      modifies this`memory, this`shadow, this`appends, this`evicted
      ensures Valid()
      ensures memory == Newest(old(memory) + [message], memoryLimit)
      ensures State() == U.Buffered(old(State()), message)
    {
      hide Newest, U.Stored, U.Buffered, AllReadable;
      ghost var target := U.Buffered(State(), message);
      BufferedChanges(State(), message);
      MemoryRefines(shadow, Row(appends + 1, message, true), memoryLimit);
      DequeAppend(memory, message, memoryLimit);
      PushMemory(message);
      shadow, appends, evicted := target.rows, target.lastSeq, target.evicted;
    }

    /** deque(maxlen=...).append */
    method PushMemory(message: Frame)
      requires 0 < memoryLimit && |memory| <= memoryLimit
      modifies this`memory
      ensures memory == Newest(old(memory) + [message], memoryLimit)
    {
      hide Newest;
      DequeAppend(memory, message, memoryLimit);
      if |memory| == memoryLimit {
        memory := memory[1..];
      }
      memory := memory + [message];
    }

    /** _run_one_stream up to its first await. */
    method OpenStream()
      requires Valid() && U.Enabled(State(), U.Opened)
      modifies this
      ensures Valid() && State() == U.OpenStream(old(State()))
    {
      abandoned := abandoned + U.Frames(outbound);
      outbound := [];
      open, up, reading := true, false, true;
    }

    /** initial_metadata() returned: connected, and the buffer flushed before anything else runs. */
    method StreamUp()
      requires Valid() && U.Enabled(State(), U.Up)
      modifies this, durable
      ensures Valid() && State() == U.StreamUp(old(State()))
    {
      connected, up := true, true;
      FlushBuffer();
    }

    /** _flush_buffer */
    method FlushBuffer()
      requires Valid()
      modifies this, durable
      ensures Valid()
      ensures State() == U.StreamUp(old(State())).(connected := old(connected), up := old(up))
    {
      spoiled := spoiled + U.Stored(Skipped(State().rows));
      if durable != null {
        FlushDurable();
      } else {
        FlushMemory();
      }
    }

    /** Each row goes on the queue and is deleted at once, with everything before it. */
    method FlushDurable()
      requires durable != null && Valid()
      modifies this`outbound, durable
      ensures Valid() && durable.lastSeq == old(durable.lastSeq)
      ensures durable.rows == Dregs(old(durable.rows))
      ensures outbound == old(outbound) + U.Items(Readable(old(durable.rows)))
    {
      ghost var was := durable.rows;
      ghost var put: seq<Row<Frame>> := [];
      var pager := EventBuffer.Start();
      DrainStarts(durable.rows);
      assert [] + Readable(was) == Readable(was) && outbound + [] == outbound;
      while true
        invariant durable.Valid() && durable.lastSeq == old(durable.lastSeq)
        invariant Flushing(old(outbound), outbound, was, put, durable.rows, pager)
        decreases |durable.rows|
      {
        FlushStep(old(outbound), outbound, was, put, durable.rows, pager);
        var row;
        pager, row := Next(durable.rows, pager);
        if row.None? {
          return;
        }
        outbound := outbound + [U.Msg(row.value.frame)];
        put := put + [row.value];
        var _ := durable.DeleteThrough(row.value.rowid);
      }
    }

    method FlushMemory()
      requires durable == null && Valid()
      modifies this`outbound, this`memory, this`shadow
      ensures Valid() && shadow == [] && Dregs(old(shadow)) == []
      ensures outbound == old(outbound) + U.Items(Readable(old(shadow)))
    {
      AllReadableMoves(shadow);
      ghost var was := shadow;
      while memory != []
        invariant U.Stored(shadow) == memory && AllReadable(shadow)
        invariant outbound + U.Items(shadow) == old(outbound) + U.Items(was)
        decreases |memory|
      {
        assert shadow != [];
        assert outbound + ([U.Msg(memory[0])] + U.Items(shadow[1..])) == (outbound + [U.Msg(memory[0])]) + U.Items(shadow[1..]);
        outbound := outbound + [U.Msg(memory[0])];
        memory := memory[1..];
        shadow := shadow[1..];
      }
      assert shadow == [] && outbound + [] == outbound;
    }

    /** One turn of _outbound_iter: a frame for the transport, or the end at a sentinel. */
    method OutboundNext() returns (frame: Option<Frame>)
      requires Valid() && U.Enabled(State(), U.Transmitted)
      modifies this`outbound, this`reading, this`wire
      ensures Valid() && State() == U.Transmit(old(State()))
      ensures outbound == old(outbound)[1..]
      ensures match old(outbound)[0]
              case Msg(f) => frame == Some(f) && wire == old(wire) + [f] && reading == old(reading)
              case Close => frame == None && wire == old(wire) && !reading
    {
      var item := outbound[0];
      outbound := outbound[1..];
      if item.Close? {
        reading := false;
        return None;
      }
      wire := wire + [item.frame];
      return Some(item.frame);
    }

    /** The `finally` of _run_one_stream. */
    method StreamEnded()
      requires Valid()
      modifies this`open, this`connected
      ensures Valid() && State() == U.StreamEnded(old(State()))
    {
      connected := false;
      open := false;
    }

    /** stop() up to the cancellation of the connect task. */
    method StopBegin()
      requires Valid()
      modifies this`stopping, this`stops, this`outbound
      ensures Valid() && State() == U.StopCalled(old(State()))
    {
      stopping := true;
      stops := stops + 1;
      outbound := outbound + [U.Close];
    }

    /** The connect task is gone, and _connect_task is None again. */
    method StopJoined()
      requires Valid() && stopping
      modifies this`stopping, this`looping, this`open, this`connected
      ensures Valid() && State() == U.StopJoined(old(State()))
    {
      connected := false;
      open := false;
      stopping := false;
      looping := false;
    }

    /** stop() behind the closing of its channel. */
    method StopEnd()
      requires Valid() && stops > 0
      modifies this`stops, this`connected
      ensures Valid() && State() == U.StopDone(old(State()))
    {
      stops := stops - 1;
      connected := false;
    }
  }

  /** A buffered frame is the last row of a table that holds anything at all. */
  lemma BufferedLast(l: U.Link, f: Frame)
    requires l.capacity > 0
    ensures var t := U.Buffered(l, f);
      t.rows != [] && t.rows[|t.rows| - 1].frame == f && t == l.(rows := t.rows, lastSeq := t.lastSeq, evicted := t.evicted)
  {
  }

  /** A buffered frame changes the table, its counter and the evictions only. */
  lemma BufferedChanges(l: U.Link, f: Frame)
    ensures var t := U.Buffered(l, f);
      && t == l.(rows := t.rows, lastSeq := t.lastSeq, evicted := t.evicted)
      && t.rows == Newest(l.rows + [Row(l.lastSeq + 1, f, true)], l.capacity) && t.lastSeq == l.lastSeq + 1
  {
  }

  predicate AllReadable(rows: seq<Row<Frame>>) {
    forall i :: 0 <= i < |rows| ==> rows[i].ok
  }

  lemma {:induction false} AllReadableMoves(rows: seq<Row<Frame>>)
    requires AllReadable(rows)
    ensures Readable(rows) == rows && Dregs(rows) == [] && Skipped(rows) == []
    decreases |rows|
  {
    if rows != [] { AllReadableMoves(rows[1..]); }
  }

  lemma {:induction false} ItemsPlus(rows: seq<Row<Frame>>, r: Row<Frame>)
    ensures U.Items(rows + [r]) == U.Items(rows) + [U.Msg(r.frame)]
    decreases |rows|
  {
    if rows == [] {
      assert rows + [r] == [r];
    } else {
      assert (rows + [r])[1..] == rows[1..] + [r];
      ItemsPlus(rows[1..], r);
    }
  }

  /** A flush that has put `put` on the queue and deleted through its last row. */
  ghost predicate Flushing(before: seq<U.Item>, now: seq<U.Item>, was: seq<Row<Frame>>, put: seq<Row<Frame>>,
                           rows: seq<Row<Frame>>, pager: Pager<Frame>) {
    && Draining(pager, rows)
    && now == before + U.Items(put)
    && Readable(was) == put + Readable(rows) && Dregs(was) == Dregs(rows)
  }

  lemma FlushStep(before: seq<U.Item>, now: seq<U.Item>, was: seq<Row<Frame>>, put: seq<Row<Frame>>,
                  rows: seq<Row<Frame>>, pager: Pager<Frame>)
    requires Flushing(before, now, was, put, rows, pager)
    ensures var (q, r) := Pull(rows, pager);
      if r.None? then Dregs(was) == rows && Readable(was) == put
      else
        var rest := Above(rows, r.value.rowid);
        |rest| < |rows| && Flushing(before, now + [U.Msg(r.value.frame)], was, put + [r.value], rest, q)
  {
    hide Pull, Readable, Dregs, Above, U.Items;
    DrainStep(pager, rows);
    var (q, r) := Pull(rows, pager);
    if r.None? {
      assert put + [] == put;
    } else {
      ItemsPlus(put, r.value);
      assert put + ([r.value] + Readable(Above(rows, r.value.rowid))) == (put + [r.value]) + Readable(Above(rows, r.value.rowid));
      assert before + U.Items(put) + [U.Msg(r.value.frame)] == before + (U.Items(put) + [U.Msg(r.value.frame)]);
    }
  }

  /** Popping one end of a full deque before appending at the other is the drop-oldest bound. */
  lemma DequeAppend(memory: seq<Frame>, message: Frame, limit: nat)
    requires 0 < limit && |memory| <= limit
    ensures (if |memory| == limit then memory[1..] else memory) + [message] == Newest(memory + [message], limit)
    ensures |Newest(memory + [message], limit)| <= limit
  {
  }

  lemma {:induction false} StoredSuffix(rows: seq<Row<Frame>>, k: nat)
    requires k <= |rows|
    ensures |U.Stored(rows)| == |rows| && U.Stored(rows[k..]) == U.Stored(rows)[k..]
    decreases |rows|
  {
    if rows != [] {
      StoredSuffix(rows[1..], if k > 0 then k - 1 else 0);
      if k > 0 { assert rows[k..] == rows[1..][k - 1..]; } else { assert rows[0..] == rows; }
    }
  }

  /** The deque and the table drop the same frames. */
  lemma MemoryRefines(rows: seq<Row<Frame>>, r: Row<Frame>, limit: nat)
    requires AllReadable(rows) && r.ok
    ensures U.Stored(Newest(rows + [r], limit)) == Newest(U.Stored(rows) + [r.frame], limit)
    ensures AllReadable(Newest(rows + [r], limit))
  {
    U.StoredJoin(rows, [r]);
    assert U.Stored([r]) == [r.frame];
    StoredSuffix(rows + [r], if |rows| + 1 <= limit then 0 else |rows| + 1 - limit);
  }
}
