/** The modem-side pumps of edge/audio_io.py. */
module AudioPumps {
  import opened Options
  import opened Bytes
  import opened PcmRing

  const FRAME: nat := 320   // 20 ms of 8 kHz mono int16

  // ----- The lockstep duplex pump ------------------------------------------------

  /** `voice` is the frames of `written` that carried downstream audio. */
  datatype Pump = Pump(pending: Chunk, written: seq<Chunk>, voice: seq<Chunk>)

  const IDLE_PUMP := Pump([], [], [])

  /** Draining `out` and writing one frame: audio if there is a frame's worth, else silence. */
  function Turn(p: Pump, out: Chunk): Pump {
    var all := p.pending + out;
    if |all| >= FRAME then Pump(all[FRAME..], p.written + [all[..FRAME]], p.voice + [all[..FRAME]])
    else Pump(all, p.written + [Zeros(FRAME)], p.voice)
  }

  function Turns(p: Pump, outs: seq<Chunk>): Pump {
    if outs == [] then p else Turn(Turns(p, outs[..|outs| - 1]), outs[|outs| - 1])
  }

  /** After n iterations: n frames of 320 bytes, and audio written plus pending is what was drained. */
  lemma {:induction false} DuplexConserves(outs: seq<Chunk>)
    ensures var p := Turns(IDLE_PUMP, outs);
      && |p.written| == |outs| && (forall i :: 0 <= i < |p.written| ==> |p.written[i]| == FRAME)
      && Join(p.voice) + p.pending == Join(outs)
    decreases |outs|
  {
    if outs != [] {
      var rest, out := outs[..|outs| - 1], outs[|outs| - 1];
      DuplexConserves(rest);
      var q := Turns(IDLE_PUMP, rest);
      assert outs == rest + [out];
      JoinOne(rest, out);
      var all := q.pending + out;
      assert Join(q.voice) + all == Join(outs);
      if |all| >= FRAME {
        JoinOne(q.voice, all[..FRAME]);
        assert all == all[..FRAME] + all[FRAME..];
        assert Join(q.voice) + (all[..FRAME] + all[FRAME..]) == (Join(q.voice) + all[..FRAME]) + all[FRAME..];
      }
    }
  }

  /** The frames marked, in order. */
  function Marked(frames: seq<Chunk>, marks: seq<bool>): seq<Chunk>
    requires |frames| == |marks|
  {
    if frames == [] then []
    else
      var n := |frames| - 1;
      Marked(frames[..n], marks[..n]) + if marks[n] then [frames[n]] else []
  }

  predicate Silence(frame: Chunk) {
    |frame| == FRAME && forall k :: 0 <= k < FRAME ==> frame[k] == 0
  }

  /** The marked frames are `said`; every other one is silence. */
  ghost predicate Says(frames: seq<Chunk>, marks: seq<bool>, said: seq<Chunk>) {
    && |marks| == |frames| && Marked(frames, marks) == said
    && forall i :: 0 <= i < |marks| && !marks[i] ==> Silence(frames[i])
  }

  lemma TurnSays(p: Pump, out: Chunk, marks: seq<bool>, said: seq<Chunk>, drained: Chunk) returns (mark: bool, more: seq<Chunk>)
    requires Says(p.written, marks, said) && Join(said) + p.pending == drained
    ensures var q := Turn(p, out); Says(q.written, marks + [mark], more) && Join(more) + q.pending == drained + out
  {
    hide Marked;
    var all := p.pending + out;
    mark := |all| >= FRAME;
    var frame := if mark then all[..FRAME] else Zeros(FRAME);
    more := said + if mark then [frame] else [];
    MarkedMore(p.written, marks, frame, mark);
    assert Join(said) + all == drained + out && said + [] == said;
    if mark {
      JoinOne(said, frame);
      assert all == frame + all[FRAME..];
      assert Join(said) + (frame + all[FRAME..]) == (Join(said) + frame) + all[FRAME..];
    }
  }

  /**
  The modem hears everything drained, in order, and silence in between: some of the frames
  written, joined, and the pending bytes are all that was drained, and each other frame is
  silence.
  */
  lemma {:induction false} WrittenIsSpeechAndSilence(outs: seq<Chunk>) returns (marks: seq<bool>, said: seq<Chunk>)
    ensures var p := Turns(IDLE_PUMP, outs);
      |p.written| == |outs| && Says(p.written, marks, said) && Join(said) + p.pending == Join(outs)
    decreases |outs|
  {
    hide Says, Turn;
    if outs == [] {
      marks, said := [], [];
      SaysNothing();
    } else {
      var rest, out := outs[..|outs| - 1], outs[|outs| - 1];
      marks, said := WrittenIsSpeechAndSilence(rest);
      var mark, more := TurnSays(Turns(IDLE_PUMP, rest), out, marks, said, Join(rest));
      marks, said := marks + [mark], more;
      JoinOne(rest, out);
      assert outs == rest + [out];
      OneFrameATurn(Turns(IDLE_PUMP, rest), out);
    }
  }

  lemma SaysNothing()
    ensures Says([], [], [])
  {
  }

  lemma OneFrameATurn(p: Pump, out: Chunk)
    ensures |Turn(p, out).written| == |p.written| + 1
  {
  }

  lemma MarkedMore(frames: seq<Chunk>, marks: seq<bool>, frame: Chunk, mark: bool)
    requires |frames| == |marks|
    ensures Marked(frames + [frame], marks + [mark]) == Marked(frames, marks) + if mark then [frame] else []
  {
    assert (frames + [frame])[..|frames|] == frames && (marks + [mark])[..|marks|] == marks;
  }

  /** The backlog since some iteration i that left less than a frame. */
  lemma {:induction false} BacklogSince(outs: seq<Chunk>) returns (i: nat)
    ensures i <= |outs|
    ensures |Turns(IDLE_PUMP, outs).pending| <= FRAME - 1 + Size(outs[i..]) - FRAME * (|outs| - i)
    decreases |outs|
  {
    if outs == [] {
      i := 0;
    } else {
      var rest, out := outs[..|outs| - 1], outs[|outs| - 1];
      i := BacklogSince(rest);
      if |Turns(IDLE_PUMP, rest).pending + out| >= FRAME {
        assert outs[i..] == rest[i..] + [out];
        SizeConcat(rest[i..], [out]);
      } else {
        i := |outs|;
        assert outs[i..] == [];
      }
    }
  }

  /** No run of iterations drains more than its frames plus B bytes. */
  ghost predicate Bursts(outs: seq<Chunk>, burst: int) {
    forall i, j :: 0 <= i <= j <= |outs| ==> Size(outs[i..j]) <= FRAME * (j - i) + burst
  }

  /** Then the backlog never exceeds B + 319 bytes. */
  lemma BacklogBound(outs: seq<Chunk>, burst: int, n: nat)
    requires Bursts(outs, burst) && n <= |outs|
    ensures |Turns(IDLE_PUMP, outs[..n]).pending| <= burst + FRAME - 1
  {
    var i := BacklogSince(outs[..n]);
    assert outs[..n][i..] == outs[i..n];
  }

  lemma {:induction false} BacklogAtLeast(outs: seq<Chunk>, i: nat)
    requires i <= |outs|
    ensures |Turns(IDLE_PUMP, outs).pending| >= Size(outs[i..]) - FRAME * (|outs| - i)
    decreases |outs|
  {
    if i < |outs| {
      var rest, out := outs[..|outs| - 1], outs[|outs| - 1];
      BacklogAtLeast(rest, i);
      assert outs[i..] == rest[i..] + [out];
      SizeConcat(rest[i..], [out]);
    } else {
      assert outs[i..] == [];
    }
  }

  /** Conversely a backlog that stays within B means no run of iterations drained more than its frames plus B. */
  lemma BoundedBacklogBoundsBursts(outs: seq<Chunk>, burst: int)
    requires forall n :: 0 <= n <= |outs| ==> |Turns(IDLE_PUMP, outs[..n]).pending| <= burst
    ensures Bursts(outs, burst)
  {
    forall i, j | 0 <= i <= j <= |outs| ensures Size(outs[i..j]) <= FRAME * (j - i) + burst {
      BacklogAtLeast(outs[..j], i);
      assert outs[..j][i..] == outs[i..j];
    }
  }

  /** Pops a ring empty into `pending`. */
  method DrainInto(ring: PcmRingBuffer, pending: Chunk) returns (grown: Chunk)
    requires ring.Valid()
    modifies ring
    ensures ring.Valid() && ring.chunks == [] && ring.closed == old(ring.closed)
    ensures grown == pending + Join(old(ring.chunks))
  {
    grown := pending;
    while true
      invariant ring.Valid() && ring.closed == old(ring.closed)
      invariant grown + Join(ring.chunks) == pending + Join(old(ring.chunks))
      decreases |ring.chunks|
    {
      var out := ring.GetNowait();
      if out.None? {
        assert grown + [] == grown;
        return;
      }
      assert grown + (out.value + Join(ring.chunks)) == (grown + out.value) + Join(ring.chunks);
      grown := grown + out.value;
    }
  }

  class DuplexPump {
    var pending: Chunk

    constructor ()
      ensures pending == []
    {
      pending := [];
    }

    /**
    One iteration behind a read of `chunk`: the chunk goes upstream, the downstream
    ring is drained, one frame is written. `alive` is false at end of file, or when
    the upstream ring has been closed and put() raises.
    */
    method Iterate(chunk: Chunk, upstream: PcmRingBuffer, downstream: PcmRingBuffer, ghost was: Pump)
      returns (alive: bool, frame: Chunk)
      requires upstream.Valid() && downstream.Valid() && upstream != downstream && was.pending == pending
      modifies this, upstream, downstream
      ensures upstream.Valid() && downstream.Valid()
      ensures alive == (chunk != [] && !old(upstream.closed))
      ensures chunk != [] ==> upstream.State() == Put(old(upstream.State()), chunk)
      ensures !alive ==> pending == old(pending) && downstream.State() == old(downstream.State())
      ensures alive ==>
                var next := Turn(was, Join(old(downstream.chunks)));
                && pending == next.pending && next.written == was.written + [frame]
                && |frame| == FRAME && downstream.chunks == []
      ensures alive ==>
                var all := old(pending) + Join(old(downstream.chunks));
                if |all| >= FRAME then frame + pending == all else Silence(frame) && pending == all
    {
      frame := [];
      if chunk == [] {
        return false, frame;
      }
      var raised := upstream.PutChunk(chunk);
      if raised {
        return false, frame;
      }
      var all := DrainInto(downstream, pending);
      if |all| >= FRAME {
        frame := all[..FRAME];
        pending := all[FRAME..];
      } else {
        frame := Zeros(FRAME);
        pending := all;
      }
      alive := true;
    }
  }

  // ----- The playback pump -----------------------------------------------------------

  /** The whole frames a byte string starts with. */
  function WholeFrames(s: Chunk): seq<Chunk>
    decreases |s|
  {
    if |s| < FRAME then [] else [s[..FRAME]] + WholeFrames(s[FRAME..])
  }

  function Remainder(s: Chunk): Chunk
    decreases |s|
  {
    if |s| < FRAME then s else Remainder(s[FRAME..])
  }

  lemma {:induction false} WholeAndRemainder(s: Chunk)
    ensures Join(WholeFrames(s)) + Remainder(s) == s && |Remainder(s)| < FRAME
    ensures forall i :: 0 <= i < |WholeFrames(s)| ==> |WholeFrames(s)[i]| == FRAME
    decreases |s|
  {
    if |s| >= FRAME {
      WholeAndRemainder(s[FRAME..]);
      assert s == s[..FRAME] + s[FRAME..];
    }
  }

  /** Appending bytes only adds frames cut from the remainder. */
  lemma {:induction false} FramesGrow(a: Chunk, b: Chunk)
    ensures WholeFrames(a + b) == WholeFrames(a) + WholeFrames(Remainder(a) + b)
    ensures Remainder(a + b) == Remainder(Remainder(a) + b)
    decreases |a|
  {
    if |a| >= FRAME {
      assert (a + b)[..FRAME] == a[..FRAME] && (a + b)[FRAME..] == a[FRAME..] + b;
      FramesGrow(a[FRAME..], b);
    }
  }

  /**
  run_playback_pump over the chunks the ring hands out: what reaches the modem is the
  stream cut into whole frames, however the stream was split into chunks.
  */
  method RunPlaybackPump(chunks: seq<Chunk>) returns (written: seq<Chunk>, accum: Chunk)
    ensures written == WholeFrames(Join(chunks)) && accum == Remainder(Join(chunks))
  {
    written, accum := [], [];
    var i := 0;
    while i < |chunks|
      invariant i <= |chunks|
      invariant written == WholeFrames(Join(chunks[..i])) && accum == Remainder(Join(chunks[..i]))
    {
      var chunk := chunks[i];
      assert chunks[..i + 1] == chunks[..i] + [chunk];
      JoinOne(chunks[..i], chunk);
      FramesGrow(Join(chunks[..i]), chunk);
      i := i + 1;
      if chunk == [] {
        assert Join(chunks[..i]) == Join(chunks[..i - 1]);
        continue;
      }
      ghost var before, full := written, accum + chunk;
      accum := accum + chunk;
      while |accum| >= FRAME
        invariant written + WholeFrames(accum) == before + WholeFrames(full)
        invariant Remainder(accum) == Remainder(full)
        decreases |accum|
      {
        assert written + ([accum[..FRAME]] + WholeFrames(accum[FRAME..])) == (written + [accum[..FRAME]]) + WholeFrames(accum[FRAME..]);
        written := written + [accum[..FRAME]];
        accum := accum[FRAME..];
      }
      assert written + [] == written;
    }
    assert chunks[..i] == chunks;
  }
}
