/** The byte-bounded ring of audio_bridge/ring_buffer.py. */
module PcmRing {
  import opened Options
  import opened Bytes

  /** The fields of PcmRingBuffer, and the history its contents are measured against. */
  datatype Ring = Ring(
    capacity: nat,
    chunks: seq<Chunk>,
    size: int,
    closed: bool,
    droppedChunks: nat,
    droppedBytes: nat,
    history: seq<Chunk>,   // every chunk ever queued
    taken: nat,            // history index just behind the last chunk handed out
    consumed: nat,         // bytes handed out
    offered: nat)          // bytes put() was given while open

  function Empty(capacity: nat): Ring {
    Ring(capacity, [], 0, false, 0, 0, [], 0, 0, 0)
  }

  /** How many of the oldest chunks go before `need` more bytes fit. */
  function Drops(chunks: seq<Chunk>, size: int, need: nat, capacity: nat): (n: nat)
    ensures n <= |chunks|
  {
    if size + need > capacity && chunks != [] then 1 + Drops(chunks[1..], size - |chunks[0]|, need, capacity) else 0
  }

  /** put(); on a closed buffer it raises and changes nothing. */
  function Put(r: Ring, chunk: Chunk): Ring {
    if r.closed then r
    else if |chunk| > r.capacity then
      r.(offered := r.offered + |chunk|, droppedChunks := r.droppedChunks + 1, droppedBytes := r.droppedBytes + |chunk|)
    else
      var n := Drops(r.chunks, r.size, |chunk|, r.capacity);
      r.(offered := r.offered + |chunk|,
         chunks := r.chunks[n..] + [chunk], size := r.size - Size(r.chunks[..n]) + |chunk|,
         droppedChunks := r.droppedChunks + n, droppedBytes := r.droppedBytes + Size(r.chunks[..n]),
         history := r.history + [chunk])
  }

  /** The outcome of get(): a chunk, the end of a closed buffer, or a wait. */
  datatype Got = Got(chunk: Chunk) | StopIteration | Waiting

  function GetResult(r: Ring): Got {
    if r.chunks != [] then Got(r.chunks[0]) else if r.closed then StopIteration else Waiting
  }

  /** The pop behind get() and get_nowait(). */
  function Get(r: Ring): Ring {
    if r.chunks == [] then r
    else
      r.(chunks := r.chunks[1..], size := r.size - |r.chunks[0]|,
         taken := if |r.chunks| <= |r.history| then |r.history| - |r.chunks| + 1 else 0,
         consumed := r.consumed + |r.chunks[0]|)
  }

  function CloseRing(r: Ring): Ring {
    r.(closed := true)
  }

  datatype Op = PutOp(chunk: Chunk) | GetOp | CloseOp

  function Apply(r: Ring, op: Op): Ring {
    match op
    case PutOp(chunk) => Put(r, chunk)
    case GetOp => Get(r)
    case CloseOp => CloseRing(r)
  }

  function Run(r: Ring, ops: seq<Op>): Ring
    decreases |ops|
  {
    if ops == [] then r else Run(Apply(r, ops[0]), ops[1..])
  }

  // ----- What the buffer holds ------------------------------------------------

  /** Contents are a suffix of the history, cut where one chunk more would not have fitted. */
  predicate Suffix(r: Ring) {
    && |r.chunks| <= |r.history|
    && var start := |r.history| - |r.chunks|;
    && r.chunks == r.history[start..]
    && r.taken <= start
    && r.size == Size(r.chunks)
    && (start > r.taken ==> Size(r.history[start - 1..]) > r.capacity)
  }

  predicate Inv(r: Ring) {
    && Suffix(r)
    && r.size <= r.capacity
    && r.offered == r.consumed + r.droppedBytes + r.size
  }

  lemma SizeFrom(h: seq<Chunk>, k: nat)
    requires k < |h|
    ensures Size(h[k..]) == |h[k]| + Size(h[k + 1..])
  {
  }

  /** Dropping stops at the first suffix that leaves room. */
  lemma {:induction false} DropsJustEnough(chunks: seq<Chunk>, need: nat, capacity: nat)
    requires need <= capacity
    ensures var n := Drops(chunks, Size(chunks), need, capacity);
      && Size(chunks) == Size(chunks[..n]) + Size(chunks[n..])
      && Size(chunks[n..]) + need <= capacity
      && (n > 0 ==> Size(chunks[n - 1..]) + need > capacity)
    decreases |chunks|
  {
    var n := Drops(chunks, Size(chunks), need, capacity);
    assert chunks == chunks[..n] + chunks[n..];
    SizeConcat(chunks[..n], chunks[n..]);
    if n > 0 {
      DropsJustEnough(chunks[1..], need, capacity);
      assert chunks[1..][n - 1..] == chunks[n..];
      if n > 1 { assert chunks[1..][n - 2..] == chunks[n - 1..]; }
    }
  }

  lemma PutSuffix(h: seq<Chunk>, start: nat, n: nat, chunk: Chunk)
    requires start + n <= |h|
    ensures h[start..][n..] == h[start + n..]
    ensures (h + [chunk])[start + n..] == h[start + n..] + [chunk] && Size((h + [chunk])[start + n..]) == Size(h[start + n..]) + |chunk|
  {
    assert (h + [chunk])[start + n..] == h[start + n..] + [chunk];
    SizeConcat(h[start + n..], [chunk]);
  }

  /** The shape of the buffer after `n` drops and one append. */
  lemma AppendSuffix(r: Ring, chunk: Chunk, n: nat)
    requires Suffix(r) && n <= |r.chunks|
    requires n > 0 ==> Size(r.chunks[n - 1..]) + |chunk| > r.capacity
    ensures var m := r.(chunks := r.chunks[n..] + [chunk], size := Size(r.chunks[n..]) + |chunk|, history := r.history + [chunk]);
      Suffix(m)
  {
    hide Size;
    var start := |r.history| - |r.chunks|;
    var m := r.(chunks := r.chunks[n..] + [chunk], size := Size(r.chunks[n..]) + |chunk|, history := r.history + [chunk]);
    assert |m.history| - |m.chunks| == start + n;
    PutSuffix(r.history, start, n, chunk);
    if n > 0 {
      PutSuffix(r.history, start, n - 1, chunk);
    } else if start > r.taken {
      PutSuffix(r.history, start - 1, 0, chunk);
      assert m.history[start - 1..] == (r.history + [chunk])[start - 1 + 0..];
    }
  }

  lemma PutKeepsInv(r: Ring, chunk: Chunk)
    requires Inv(r)
    ensures Inv(Put(r, chunk))
  {
    hide Size, Drops;
    if !r.closed && |chunk| <= r.capacity {
      var n := Drops(r.chunks, r.size, |chunk|, r.capacity);
      DropsJustEnough(r.chunks, |chunk|, r.capacity);
      AppendSuffix(r, chunk, n);
      var m := r.(chunks := r.chunks[n..] + [chunk], size := Size(r.chunks[n..]) + |chunk|, history := r.history + [chunk]);
      var p := Put(r, chunk);
      assert p.chunks == m.chunks && p.size == m.size && p.history == m.history && p.taken == m.taken && p.capacity == m.capacity;
    }
  }

  lemma GetKeepsInv(r: Ring)
    requires Inv(r)
    ensures Inv(Get(r))
    ensures r.chunks != [] ==> Get(r).chunks == r.chunks[1..] && Get(r).consumed == r.consumed + |r.chunks[0]|
  {
  }

  lemma {:induction false} RunKeepsInv(r: Ring, ops: seq<Op>)
    requires Inv(r)
    ensures Inv(Run(r, ops))
    decreases |ops|
  {
    if ops != [] {
      match ops[0] {
        case PutOp(chunk) => PutKeepsInv(r, chunk);
        case GetOp => GetKeepsInv(r);
        case CloseOp =>
      }
      RunKeepsInv(Apply(r, ops[0]), ops[1..]);
    }
  }

  lemma {:induction false} LongerIsBigger(h: seq<Chunk>, i: nat, j: nat)
    requires i <= j <= |h|
    ensures Size(h[i..]) >= Size(h[j..])
    decreases j - i
  {
    if i < j {
      SizeFrom(h, i);
      LongerIsBigger(h, i + 1, j);
    }
  }

  lemma EmptyKeepsInv(capacity: nat)
    ensures Inv(Empty(capacity))
  {
  }

  lemma HoldsLongest(r: Ring, k: nat)
    requires Inv(r) && r.taken <= k <= |r.history|
    ensures Size(r.history[k..]) <= r.capacity <==> |r.history| - k <= |r.chunks|
  {
    hide Size;
    var start := |r.history| - |r.chunks|;
    if k >= start { LongerIsBigger(r.history, start, k); } else { LongerIsBigger(r.history, k, start - 1); }
  }

  /**
  After any mix of puts, gets and closes, the buffer holds exactly the longest suffix
  of the accepted history that starts behind the last chunk handed out and fits, and
  every byte offered while open was handed out, dropped, or is still held.
  */
  lemma RingHoldsLongestSuffix(capacity: nat, ops: seq<Op>)
    ensures var r := Run(Empty(capacity), ops);
      && |r.chunks| <= |r.history| && r.chunks == r.history[|r.history| - |r.chunks|..]
      && r.taken <= |r.history|
      && (forall k :: r.taken <= k <= |r.history| ==> (Size(r.history[k..]) <= r.capacity <==> |r.history| - k <= |r.chunks|))
      && r.size == Size(r.chunks) && r.offered == r.consumed + r.droppedBytes + r.size
  {
    hide Run, Size;
    EmptyKeepsInv(capacity);
    RunKeepsInv(Empty(capacity), ops);
    var r := Run(Empty(capacity), ops);
    forall k | r.taken <= k <= |r.history|
      ensures Size(r.history[k..]) <= r.capacity <==> |r.history| - k <= |r.chunks|
    {
      HoldsLongest(r, k);
    }
  }

  // ----- The object ---------------------------------------------------------------

  class PcmRingBuffer {
    const capacity: nat
    var chunks: seq<Chunk>
    var size: int
    var closed: bool
    var droppedChunks: nat
    var droppedBytes: nat
    ghost var history: seq<Chunk>
    ghost var taken: nat
    ghost var consumed: nat
    ghost var offered: nat

    ghost function State(): Ring
      reads this
    {
      Ring(capacity, chunks, size, closed, droppedChunks, droppedBytes, history, taken, consumed, offered)
    }

    ghost predicate Valid()
      reads this
    {
      capacity > 0 && Inv(State())
    }

    constructor (capacityBytes: nat)
      requires capacityBytes > 0
      ensures Valid() && State() == Empty(capacityBytes)
    {
      capacity, chunks, size, closed, droppedChunks, droppedBytes := capacityBytes, [], 0, false, 0, 0;
      history, taken, consumed, offered := [], 0, 0, 0;
    }

    /** put(); `raised` stands for RuntimeError on a closed buffer. */
    method PutChunk(chunk: Chunk) returns (raised: bool)
      requires Valid()
      modifies this
      ensures Valid() && State() == Put(old(State()), chunk) && raised == old(closed)
      ensures raised ==> State() == old(State())
      ensures !raised ==> droppedChunks - old(droppedChunks) == old(|chunks|) + 1 - |chunks|
      ensures !raised && |chunk| > capacity ==> chunks == old(chunks)
      ensures !raised && |chunk| <= capacity ==> chunks != [] && chunks[|chunks| - 1] == chunk
    {
      hide Inv, Size, Drops;
      PutKeepsInv(State(), chunk);
      if closed {
        return true;
      }
      offered := offered + |chunk|;
      if |chunk| > capacity {
        droppedChunks := droppedChunks + 1;
        droppedBytes := droppedBytes + |chunk|;
        return false;
      }
      EvictFor(|chunk|);
      chunks := chunks + [chunk];
      size := size + |chunk|;
      history := history + [chunk];
      return false;
    }

    /** Pops the oldest chunks until `need` bytes fit. */
    method EvictFor(need: nat)
      modifies this`chunks, this`size, this`droppedChunks, this`droppedBytes
      ensures var n := Drops(old(chunks), old(size), need, capacity); var gone := Size(old(chunks)[..n]);
        && chunks == old(chunks)[n..] && size == old(size) - gone
        && droppedChunks == old(droppedChunks) + n && droppedBytes == old(droppedBytes) + gone
    {
      ghost var n, k := Drops(chunks, size, need, capacity), 0;
      while size + need > capacity && chunks != []
        invariant k <= n && n == k + Drops(chunks, size, need, capacity)
        invariant chunks == old(chunks)[k..] && size == old(size) - Size(old(chunks)[..k])
        invariant droppedChunks == old(droppedChunks) + k && droppedBytes == old(droppedBytes) + Size(old(chunks)[..k])
        decreases |chunks|
      {
        var oldest := chunks[0];
        SizeUpTo(old(chunks), k);
        chunks := chunks[1..];
        size := size - |oldest|;
        droppedChunks := droppedChunks + 1;
        droppedBytes := droppedBytes + |oldest|;
        k := k + 1;
      }
    }

    /** One attempt of get(): a chunk, the end, or a wait with nothing changed. */
    method TryGet() returns (got: Got)
      requires Valid()
      modifies this
      ensures Valid() && State() == Get(old(State())) && got == GetResult(old(State()))
      ensures got.Got? <==> old(chunks) != []
      ensures got.Got? ==> old(chunks) == [got.chunk] + chunks && size == old(size) - |got.chunk|
      ensures !got.Got? ==> State() == old(State()) && (got.StopIteration? <==> closed)
    {
      GetKeepsInv(State());
      if chunks == [] {
        return if closed then StopIteration else Waiting;
      }
      var chunk := chunks[0];
      taken := |history| - |chunks| + 1;
      consumed := consumed + |chunk|;
      chunks := chunks[1..];
      size := size - |chunk|;
      return Got(chunk);
    }

    method GetNowait() returns (got: Option<Chunk>)
      requires Valid()
      modifies this
      ensures Valid() && State() == Get(old(State()))
      ensures got == if old(chunks) == [] then None else Some(old(chunks)[0])
    {
      var r := TryGet();
      got := if r.Got? then Some(r.chunk) else None;
    }

    method Close()
      requires Valid()
      modifies this`closed
      ensures Valid() && State() == CloseRing(old(State()))
    {
      closed := true;
    }
  }

  lemma SizeUpTo(h: seq<Chunk>, k: nat)
    requires k < |h|
    ensures Size(h[..k + 1]) == Size(h[..k]) + |h[k]|
  {
    assert h[..k + 1] == h[..k] + [h[k]];
    SizeConcat(h[..k], [h[k]]);
  }
}
