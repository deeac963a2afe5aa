/**
Inbound audio: the C++ circular buffer (dingrtc_pywrap/src/ring_buffer.cpp) and the
drainer of windows_dingrtc_session.py that hands its frames to a bounded queue.
*/
module FrameRing {
  import E = EventBuffer

  /** A drop-oldest queue of at most `cap` entries: what one push leaves. */
  function Pushed<T>(s: seq<T>, x: T, cap: nat): seq<T> {
    (if |s| == cap && s != [] then s[1..] else s) + [x]
  }

  /** The first n entries of a circular buffer read from `tail`. */
  function Window<T>(ring: seq<T>, tail: nat, n: nat): seq<T>
    requires 0 < |ring| && tail < |ring| && n <= |ring|
  {
    if tail + n <= |ring| then ring[tail..tail + n] else ring[tail..] + ring[..tail + n - |ring|]
  }

  lemma WindowAt<T>(ring: seq<T>, tail: nat, n: nat)
    requires 0 < |ring| && tail < |ring| && n <= |ring|
    ensures |Window(ring, tail, n)| == n
    ensures forall k :: 0 <= k < n ==> Window(ring, tail, n)[k] == ring[if tail + k < |ring| then tail + k else tail + k - |ring|]
  {
  }

  /** A position moved on, wrapping round. */
  function Wrap(k: nat, capacity: nat): nat {
    if k < capacity then k else k - capacity
  }

  /** Writing behind the last entry appends it. */
  lemma WindowAppend<T>(ring: seq<T>, tail: nat, n: nat, x: T)
    requires 0 < |ring| && tail < |ring| && n < |ring|
    ensures Window(ring[Wrap(tail + n, |ring|) := x], tail, n + 1) == Window(ring, tail, n) + [x]
  {
    var more := ring[Wrap(tail + n, |ring|) := x];
    WindowAt(ring, tail, n);
    WindowAt(more, tail, n + 1);
  }

  /** Moving the tail over n entries drops them. */
  lemma WindowDrop<T>(ring: seq<T>, tail: nat, size: nat, n: nat)
    requires 0 < |ring| && tail < |ring| && n <= size <= |ring|
    ensures Wrap(tail + n, |ring|) < |ring|
    ensures Window(ring, Wrap(tail + n, |ring|), size - n) == Window(ring, tail, size)[n..]
  {
    hide Window;
    var next := Wrap(tail + n, |ring|);
    WindowAt(ring, tail, size);
    WindowAt(ring, next, size - n);
    var a, b := Window(ring, next, size - n), Window(ring, tail, size)[n..];
    forall k | 0 <= k < size - n ensures a[k] == b[k] {
      assert b[k] == Window(ring, tail, size)[n + k];
    }
  }

  class FrameRingBuffer<T(0)> {
    const capacity: nat
    const ring: array<T>
    var head: nat      // next write
    var tail: nat      // next read
    var size: nat
    var dropped: nat
    ghost var pushed: nat
    ghost var drained: nat
    ghost var cleared: nat

    ghost predicate Valid()
      reads this
    {
      && capacity > 0 && ring.Length == capacity
      && head < capacity && tail < capacity && size <= capacity
      && head == (tail + size) % capacity
      && pushed == drained + dropped + cleared + size
    }

    /** The frames held, oldest first. */
    ghost function Contents(): seq<T>
      reads this, ring
      requires Valid()
    {
      Window(ring[..], tail, size)
    }

    constructor (capacityFrames: nat)
      requires capacityFrames > 0
      ensures Valid() && Contents() == [] && capacity == capacityFrames && fresh(ring)
      ensures pushed == drained == dropped == cleared == 0
    {
      capacity := capacityFrames;
      ring := new T[capacityFrames];
      head, tail, size, dropped := 0, 0, 0, 0;
      pushed, drained, cleared := 0, 0, 0;
    }

    /** Overwrites the oldest frame when full; true when nothing was dropped. */
    method Push(frame: T) returns (kept: bool)
      requires Valid()
      modifies this, ring
      ensures Valid() && Contents() == Pushed(old(Contents()), frame, capacity)
      ensures kept == (old(size) < capacity) && dropped == old(dropped) + (if kept then 0 else 1)
      ensures pushed == old(pushed) + 1 && drained == old(drained) && cleared == old(cleared)
    {
      hide Window;
      kept := true;
      HeadPosition(tail, size, capacity);
      WindowAt(ring[..], tail, size);
      if size == capacity {
        WindowDrop(ring[..], tail, size, 1);
        NextPosition(tail, capacity);
        tail := (tail + 1) % capacity;
        size := size - 1;
        dropped := dropped + 1;
        kept := false;
        HeadPosition(tail, size, capacity);
      }
      WindowAppend(ring[..], tail, size, frame);
      NextPosition(head, capacity);
      ring[head] := frame;
      head := (head + 1) % capacity;
      size := size + 1;
      pushed := pushed + 1;
      HeadPosition(tail, size, capacity);
    }

    /** Moves up to `maxN` of the oldest frames out, in order. */
    method Drain(maxN: nat) returns (out: seq<T>)
      requires Valid()
      modifies this
      ensures Valid()
      ensures var n := if maxN <= old(size) then maxN else old(size);
        out == old(Contents())[..n] && Contents() == old(Contents())[n..] && drained == old(drained) + n
      ensures pushed == old(pushed) && dropped == old(dropped) && cleared == old(cleared)
    {
      hide Window;
      var n := if maxN <= size then maxN else size;
      ghost var was, start := Contents(), tail;
      WindowAt(ring[..], tail, size);
      out := [];
      var i := 0;
      while i < n
        invariant i <= n && out == was[..i] && tail == Wrap(start + i, capacity) && tail < capacity
        invariant head == old(head) && size == old(size) && dropped == old(dropped)
        invariant pushed == old(pushed) && drained == old(drained) && cleared == old(cleared)
      {
        out := out + [ring[tail]];
        NextPosition(tail, capacity);
        tail := (tail + 1) % capacity;
        i := i + 1;
      }
      WindowDrop(ring[..], start, size, n);
      HeadPosition(start, size, capacity);
      size := size - n;
      drained := drained + n;
      HeadPosition(tail, size, capacity);
    }

    method Clear()
      requires Valid()
      modifies this
      ensures Valid() && Contents() == []
      ensures pushed == old(pushed) && drained == old(drained) && dropped == old(dropped)
      ensures cleared == old(cleared) + old(size)
    {
      hide Window;
      cleared := cleared + size;
      head, tail, size := 0, 0, 0;
      HeadPosition(0, 0, capacity);
      WindowAt(ring[..], 0, 0);
    }
  }

  lemma NextPosition(k: nat, capacity: nat)
    requires k < capacity
    ensures (k + 1) % capacity == Wrap(k + 1, capacity)
  {
    if k + 1 == capacity { assert (k + 1) % capacity == 0; }
  }

  lemma HeadPosition(tail: nat, size: nat, capacity: nat)
    requires tail < capacity && size <= capacity
    ensures (tail + size) % capacity == Wrap(tail + size, capacity)
  {
    if tail + size >= capacity {
      var r := tail + size - capacity;
      assert tail + size == capacity + r && r < capacity;
      ModOnce(capacity, r);
    }
  }

  lemma ModOnce(c: nat, r: nat)
    requires r < c
    ensures (c + r) % c == r
  {
  }

  // ----- Ring and queue chained ---------------------------------------------------

  /** The two bounded buffers in series, and what has come out; frames are numbered as pushed. */
  datatype Chain = Chain(ringCap: nat, queueCap: nat, ring: seq<nat>, queue: seq<nat>, delivered: seq<nat>, pushed: nat)

  datatype Step = Push | DrainBatch(max: nat) | Deliver | Clear

  function PushAll(queue: seq<nat>, frames: seq<nat>, cap: nat): seq<nat>
    decreases |frames|
  {
    if frames == [] then queue else PushAll(Pushed(queue, frames[0], cap), frames[1..], cap)
  }

  function Apply(c: Chain, x: Step): Chain {
    match x
    case Push => c.(ring := Pushed(c.ring, c.pushed, c.ringCap), pushed := c.pushed + 1)
    case DrainBatch(max) =>
      var n := if max <= |c.ring| then max else |c.ring|;
      c.(ring := c.ring[n..], queue := PushAll(c.queue, c.ring[..n], c.queueCap))
    case Deliver => if c.queue == [] then c else c.(queue := c.queue[1..], delivered := c.delivered + [c.queue[0]])
    case Clear => c.(ring := [])
  }

  function Run(c: Chain, xs: seq<Step>): Chain
    decreases |xs|
  {
    if xs == [] then c else Run(Apply(c, xs[0]), xs[1..])
  }

  predicate Increasing(s: seq<nat>) {
    forall i, j :: 0 <= i < j < |s| ==> s[i] < s[j]
  }

  predicate ChainOk(c: Chain) {
    && Increasing(c.delivered + c.queue + c.ring)
    && (forall k :: k in c.delivered + c.queue + c.ring ==> k < c.pushed)
    && c.queueCap > 0 && c.ringCap > 0
  }

  lemma DropMiddle(a: seq<nat>, b: seq<nat>, c: seq<nat>)
    requires Increasing(a + b + c)
    ensures Increasing(a + c) && forall k :: k in a + c ==> k in a + b + c
  {
    var whole, kept := a + b + c, a + c;
    forall i, j | 0 <= i < j < |kept| ensures kept[i] < kept[j] {
      assert whole[if i < |a| then i else i + |b|] == kept[i] && whole[if j < |a| then j else j + |b|] == kept[j];
    }
  }

  /** Frames moved through a full queue push older ones out and keep their order. */
  lemma {:induction false} PushAllKeepsOrder(front: seq<nat>, queue: seq<nat>, frames: seq<nat>, back: seq<nat>, cap: nat)
    requires Increasing(front + queue + (frames + back))
    ensures Increasing(front + PushAll(queue, frames, cap) + back)
    ensures forall k :: k in front + PushAll(queue, frames, cap) + back ==> k in front + queue + (frames + back)
    decreases |frames|
  {
    if frames == [] {
      assert frames + back == back;
    } else {
      var f, rest := frames[0], frames[1..];
      var next := Pushed(queue, f, cap);
      var tail := [f] + (rest + back);
      assert frames + back == tail;
      if |queue| == cap && queue != [] {
        assert front + queue + tail == front + [queue[0]] + (queue[1..] + tail);
        DropMiddle(front, [queue[0]], queue[1..] + tail);
        assert front + (queue[1..] + tail) == front + next + (rest + back);
      } else {
        assert front + queue + tail == front + next + (rest + back);
      }
      PushAllKeepsOrder(front, next, rest, back, cap);
    }
  }

  lemma PushKeeps(c: Chain)
    requires ChainOk(c)
    ensures ChainOk(Apply(c, Push))
  {
    var all := c.delivered + c.queue + c.ring;
    var more := all + [c.pushed];
    forall i, j | 0 <= i < j < |more| ensures more[i] < more[j] {
      assert all[i] in all;
    }
    var t := Apply(c, Push);
    var front := c.delivered + c.queue;
    if |c.ring| == c.ringCap {
      assert more == front + [c.ring[0]] + (c.ring[1..] + [c.pushed]);
      DropMiddle(front, [c.ring[0]], c.ring[1..] + [c.pushed]);
    } else {
      assert more == front + (c.ring + [c.pushed]);
    }
    assert t.delivered + t.queue + t.ring == front + t.ring;
    assert forall k :: k in more ==> k in all || k == c.pushed;
  }

  lemma StepKeeps(c: Chain, x: Step)
    requires ChainOk(c)
    ensures ChainOk(Apply(c, x))
  {
    var all := c.delivered + c.queue + c.ring;
    match x
    case Push => PushKeeps(c);
    case DrainBatch(max) =>
      var n := if max <= |c.ring| then max else |c.ring|;
      assert c.ring == c.ring[..n] + c.ring[n..];
      PushAllKeepsOrder(c.delivered, c.queue, c.ring[..n], c.ring[n..], c.queueCap);
    case Deliver =>
      var t := Apply(c, Deliver);
      assert t.delivered + t.queue + t.ring == all;
    case Clear =>
      assert all == (c.delivered + c.queue) + c.ring + [];
      DropMiddle(c.delivered + c.queue, c.ring, []);
  }

  /** Through both drop-oldest buffers, what is delivered is pushed frames, in order, each at most once. */
  lemma {:induction false} DeliveredInOrder(c: Chain, xs: seq<Step>)
    requires ChainOk(c)
    ensures ChainOk(Run(c, xs))
    ensures Increasing(Run(c, xs).delivered) && forall k :: k in Run(c, xs).delivered ==> k < Run(c, xs).pushed
    decreases |xs|
  {
    if xs == [] {
      var rest := c.queue + c.ring;
      assert c.delivered + c.queue + c.ring == c.delivered + rest + [];
      DropMiddle(c.delivered, rest, []);
      assert c.delivered + [] == c.delivered;
    } else {
      StepKeeps(c, xs[0]);
      DeliveredInOrder(Apply(c, xs[0]), xs[1..]);
    }
  }

  /** Pushing frame by frame keeps the newest of all of them, in order. */
  lemma {:induction false} PushAllKeepsTheNewest(queue: seq<nat>, frames: seq<nat>, cap: nat)
    requires 0 < cap && |queue| <= cap
    ensures PushAll(queue, frames, cap) == E.Newest(queue + frames, cap)
    decreases |frames|
  {
    if frames == [] {
      assert queue + frames == queue;
    } else {
      var f, rest := frames[0], frames[1..];
      assert Pushed(queue, f, cap) == E.Newest(queue + [f], cap);
      PushAllKeepsTheNewest(Pushed(queue, f, cap), rest, cap);
      E.NewestOfNewest(queue + [f], rest, cap);
      assert queue + [f] + rest == queue + frames;
    }
  }

  /** The hand-off inside _drain_loop: put_nowait, and on QueueFull drop one and put again. */
  method HandOff(queue: seq<nat>, frames: seq<nat>, maxsize: nat) returns (q: seq<nat>)
    requires 0 < maxsize && |queue| <= maxsize
    ensures q == PushAll(queue, frames, maxsize) == E.Newest(queue + frames, maxsize)
  {
    PushAllKeepsTheNewest(queue, frames, maxsize);
    q := queue;
    var i := 0;
    assert frames[0..] == frames;
    while i < |frames|
      invariant i <= |frames| && |q| <= maxsize
      invariant PushAll(q, frames[i..], maxsize) == PushAll(queue, frames, maxsize)
    {
      assert frames[i..][1..] == frames[i + 1..];
      if |q| == maxsize {
        q := q[1..];
      }
      q := q + [frames[i]];
      i := i + 1;
    }
  }
}
