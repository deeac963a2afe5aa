/**
The RTC side of the audio path: push_audio of windows_dingrtc_session.py and the two
loops of audio_bridge/bridge.py.
*/
module RtcAudio {
  import opened Options
  import opened Bytes
  import R = Recording
  import P = PcmRing

  // ----- 10 ms slicing ------------------------------------------------------------

  const BYTES_PER_SAMPLE: nat := 2
  const GRID_MS: nat := 10

  /** PCM cut into frames of `size` bytes, the last one padded with zeros. */
  function Slices(pcm: Chunk, size: nat): seq<Chunk>
    requires size > 0
    decreases |pcm|
  {
    if pcm == [] then []
    else if |pcm| < size then [pcm + Zeros(size - |pcm|)]
    else [pcm[..size]] + Slices(pcm[size..], size)
  }

  /** As few full frames as hold the PCM, which they are but for fewer than `size` zero bytes at the end. */
  lemma {:induction false} SlicesCover(pcm: Chunk, size: nat)
    requires size > 0
    ensures var frames := Slices(pcm, size);
      && (forall i :: 0 <= i < |frames| ==> |frames[i]| == size)
      && |pcm| <= size * |frames| < |pcm| + size
      && Join(frames) == pcm + Zeros(size * |frames| - |pcm|)
    decreases |pcm|
  {
    if pcm == [] {
      assert Join([]) == [] + Zeros(0);
    } else if |pcm| < size {
      assert Join(Slices(pcm, size)) == pcm + Zeros(size - |pcm|);
    } else {
      var rest := Slices(pcm[size..], size);
      SlicesCover(pcm[size..], size);
      MulSucc(size, |rest|);
      assert pcm == pcm[..size] + pcm[size..];
      var zeros := Zeros(size * |rest| - |pcm[size..]|);
      assert pcm[..size] + (pcm[size..] + zeros) == pcm + zeros;
    }
  }

  datatype Push = Frame(pcm: Chunk, timestamp: int)

  datatype PushResult = Pushed | NotJoined | SdkError | NoFrameSize

  function FrameSize(rate: nat, channels: nat): nat {
    (rate / 100) * channels * BYTES_PER_SAMPLE
  }

  /** A frame is the whole samples of every channel that fit into 10 ms; exactly 10 ms when the rate is a multiple of 100. */
  lemma FrameIsTenMilliseconds(rate: nat, channels: nat)
    ensures var bytesPerSecond := rate * (channels * 2);
      && 100 * FrameSize(rate, channels) <= bytesPerSecond
      && (channels > 0 ==> bytesPerSecond < 100 * (FrameSize(rate, channels) + channels * 2))
      && (rate % 100 == 0 ==> 100 * FrameSize(rate, channels) == bytesPerSecond)
  {
    var block, q, r := channels * 2, rate / 100, rate % 100;
    FrameBlocks(q, channels);
    Distributes(100 * q, r, block);
    Associates(q, block);
    if channels > 0 { Monotone(r, 99, block); }
  }

  lemma FrameBlocks(q: nat, channels: nat)
    ensures q * channels * BYTES_PER_SAMPLE == q * (channels * 2)
  {
  }

  lemma Distributes(a: nat, b: nat, c: nat)
    ensures (a + b) * c == a * c + b * c
  {
  }

  lemma Associates(q: nat, c: nat)
    ensures 100 * q * c == 100 * (q * c)
  {
  }

  lemma Monotone(a: nat, b: nat, c: nat)
    requires a <= b
    ensures a * c <= b * c
  {
  }

  lemma EmptyPush(rate: nat, channels: nat, ts: int)
    requires channels > 0
    ensures rate >= 100 ==> FrameSize(rate, channels) > 0 && Stamped(Slices([], FrameSize(rate, channels)), ts) == []
  {
  }

  lemma FrameSizePositive(rate: nat, channels: nat)
    requires channels > 0
    ensures FrameSize(rate, channels) > 0 <==> rate >= 100
  {
  }

  /** The frames of a push, 10 ms apart. */
  function Stamped(frames: seq<Chunk>, ts: int): seq<Push> {
    if frames == [] then [] else [Frame(frames[0], ts)] + Stamped(frames[1..], ts + GRID_MS)
  }

  lemma {:induction false} StampedAt(frames: seq<Chunk>, ts: int, i: nat)
    ensures |Stamped(frames, ts)| == |frames|
    ensures i < |frames| ==> Stamped(frames, ts)[i] == Frame(frames[i], ts + GRID_MS * i)
    decreases |frames|
  {
    if frames != [] { StampedAt(frames[1..], ts + GRID_MS, if i > 0 then i - 1 else 0); }
  }

  /**
  push_audio: `accepts(k)` says whether the SDK takes the k-th frame of this push. The
  frames taken are those of the sliced PCM, all of them or up to the first refusal. A
  rate below 100 makes the frame size zero, and the slicing raises.
  */
  method PushAudio(joined: bool, pcm: Chunk, timestamp: int, rate: int, channels: int, accepts: nat -> bool)
    returns (frames: seq<Push>, result: PushResult)
    ensures result == NotJoined <==> !joined || rate <= 0 || channels <= 0
    ensures result == NoFrameSize <==> joined && 0 < rate < 100 && channels > 0 && pcm != []
    ensures result == NotJoined || result == NoFrameSize || pcm == [] ==> frames == []
    ensures joined && rate >= 100 && channels > 0 ==>
              var all := Stamped(Slices(pcm, FrameSize(rate, channels)), timestamp);
              frames <= all && (forall k :: 0 <= k < |frames| ==> accepts(k))
              && if frames == all then result == Pushed else result == SdkError && !accepts(|frames|)
  {
    hide FrameSize, Slices, Stamped;
    frames := [];
    if !joined || rate <= 0 || channels <= 0 {
      return frames, NotJoined;
    }
    if pcm == [] {
      EmptyPush(rate, channels, timestamp);
      return frames, Pushed;
    }
    FrameSizePositive(rate, channels);
    var size := FrameSize(rate, channels);
    if size == 0 {
      return frames, NoFrameSize;
    }
    ghost var all := Stamped(Slices(pcm, size), timestamp);
    var ts, off := timestamp, 0;
    NothingToPush(pcm, size, timestamp);
    while off < |pcm|
      invariant forall k :: 0 <= k < |frames| ==> accepts(k)
      invariant all == frames + Stamped(From(pcm, off, size), ts)
      decreases |pcm| - off
    {
      var end := if off + size <= |pcm| then off + size else |pcm|;
      var frame := pcm[off..end];
      if |frame| < size {
        frame := frame + Zeros(size - |frame|);
      }
      PushStep(frames, pcm, off, size, ts);
      if !accepts(|frames|) {
        return frames, SdkError;
      }
      frames := frames + [Frame(frame, ts)];
      ts := ts + GRID_MS;
      off := off + size;
    }
    NothingToPush(pcm, size, ts);
    return frames, Pushed;
  }

  /** The frames from offset `off` on. */
  function From(pcm: Chunk, off: nat, size: nat): seq<Chunk>
    requires size > 0
  {
    if off < |pcm| then Slices(pcm[off..], size) else []
  }

  lemma NothingToPush(pcm: Chunk, size: nat, ts: int)
    requires size > 0
    ensures From(pcm, 0, size) == Slices(pcm, size) && Stamped([], ts) == []
    ensures forall frames: seq<Push> :: frames + [] == frames
  {
  }

  lemma PushStep(frames: seq<Push>, pcm: Chunk, off: nat, size: nat, ts: int)
    requires off < |pcm| && size > 0
    ensures var end := if off + size <= |pcm| then off + size else |pcm|;
      var cut := pcm[off..end];
      var frame := if |cut| < size then cut + Zeros(size - |cut|) else cut;
      frames + Stamped(From(pcm, off, size), ts) ==
        (frames + [Frame(frame, ts)]) + Stamped(From(pcm, off + size, size), ts + GRID_MS)
  {
    hide Slices, Stamped;
    var end := if off + size <= |pcm| then off + size else |pcm|;
    var cut := pcm[off..end];
    SliceStep(pcm, off, size);
    StampStep(frames, if |cut| < size then cut + Zeros(size - |cut|) else cut, From(pcm, off + size, size), ts);
  }

  lemma StampStep(frames: seq<Push>, frame: Chunk, rest: seq<Chunk>, ts: int)
    ensures frames + Stamped([frame] + rest, ts) == (frames + [Frame(frame, ts)]) + Stamped(rest, ts + GRID_MS)
  {
  }

  lemma SliceStep(pcm: Chunk, off: nat, size: nat)
    requires off < |pcm| && size > 0
    ensures var end := if off + size <= |pcm| then off + size else |pcm|;
      var cut := pcm[off..end];
      Slices(pcm[off..], size) ==
        [if |cut| < size then cut + Zeros(size - |cut|) else cut]
        + (if off + size < |pcm| then Slices(pcm[off + size..], size) else [])
  {
    var rest := pcm[off..];
    if |rest| < size {
      assert pcm[off..|pcm|] == rest;
    } else {
      assert rest[..size] == pcm[off..off + size] && rest[size..] == pcm[off + size..];
    }
  }

  // ----- Downmix and decimation ----------------------------------------------------

  type Sample = s: int | -0x8000 <= s < 0x8000

  /** (l + r) >> 1 over int32, an arithmetic shift. */
  function Mean(l: Sample, r: Sample): (m: Sample)
    ensures (l <= m <= r || r <= m <= l) && 2 * m <= l + r < 2 * m + 2
  {
    (l + r) / 2
  }

  /** pcm[0::2] and pcm[1::2] */
  function Lefts(pcm: seq<Sample>): seq<Sample> {
    seq((|pcm| + 1) / 2, i requires 0 <= i < (|pcm| + 1) / 2 => pcm[2 * i])
  }

  function Rights(pcm: seq<Sample>): seq<Sample> {
    seq(|pcm| / 2, i requires 0 <= i < |pcm| / 2 => pcm[2 * i + 1])
  }

  /** The means of two numpy arrays: a single element is broadcast, other unequal lengths raise. */
  function Means(l: seq<Sample>, r: seq<Sample>): Option<seq<Sample>> {
    if |l| == |r| then Some(seq(|l|, i requires 0 <= i < |l| => Mean(l[i], r[i])))
    else if |l| == 1 then Some(seq(|r|, i requires 0 <= i < |r| => Mean(l[0], r[i])))
    else if |r| == 1 then Some(seq(|l|, i requires 0 <= i < |l| => Mean(l[i], r[0])))
    else None
  }

  /** Stereo to mono. */
  function Downmix(pcm: seq<Sample>): Option<seq<Sample>> {
    Means(Lefts(pcm), Rights(pcm))
  }

  /**
  An even number of samples gives the mean of each pair. Of the odd numbers only 1 and 3
  pass: one sample gives nothing, and of three the last shares the right sample of the first.
  */
  lemma DownmixMeans(pcm: seq<Sample>)
    ensures Downmix(pcm).Some? <==> |pcm| % 2 == 0 || |pcm| == 1 || |pcm| == 3
    ensures |pcm| % 2 == 0 ==>
      |Downmix(pcm).value| == |pcm| / 2
      && forall i :: 0 <= i < |pcm| / 2 ==> Downmix(pcm).value[i] == Mean(pcm[2 * i], pcm[2 * i + 1])
    ensures |pcm| == 1 ==> Downmix(pcm) == Some([])
    ensures |pcm| == 3 ==> Downmix(pcm) == Some([Mean(pcm[0], pcm[1]), Mean(pcm[2], pcm[1])])
  {
    if |pcm| % 2 == 0 {
      assert (|pcm| + 1) / 2 == |pcm| / 2;
    } else if |pcm| == 1 {
      assert Downmix(pcm).value == [];
    } else if |pcm| == 3 {
      assert Lefts(pcm) == [pcm[0], pcm[2]] && Rights(pcm) == [pcm[1]];
      assert Downmix(pcm).value == [Mean(pcm[0], pcm[1]), Mean(pcm[2], pcm[1])];
    }
  }

  /** s[::k] */
  function Decimate<T>(s: seq<T>, k: nat): seq<T>
    requires k > 0
    decreases |s|
  {
    if s == [] then [] else [s[0]] + (if |s| <= k then [] else Decimate(s[k..], k))
  }

  lemma {:induction false} DecimateAtOffset<T>(s: seq<T>, k: nat, i: nat, offset: nat)
    requires k > 0 && i < |Decimate(s, k)| && offset == k * i
    ensures offset < |s| && Decimate(s, k)[i] == s[offset]
    decreases i
  {
    if i > 0 {
      MulSucc(k, i - 1);
      DecimateStep(s, k, if |s| <= k then [] else s[k..]);
      DecimateAtOffset(s[k..], k, i - 1, offset - k);
    } else {
      TimesNothing(k);
    }
  }

  /** Every k-th element from the first on. */
  lemma DecimateAt<T>(s: seq<T>, k: nat, i: nat)
    requires k > 0 && i < |Decimate(s, k)|
    ensures k * i < |s| && Decimate(s, k)[i] == s[k * i]
  {
    hide Decimate;
    DecimateAtOffset(s, k, i, k * i);
  }

  lemma TimesNothing(k: nat)
    ensures k * 0 == 0
  {
  }

  lemma MulSucc(k: nat, n: nat)
    ensures k * (n + 1) == k * n + k
  {
  }

  lemma {:induction false} DecimateLength<T>(s: seq<T>, k: nat)
    requires k > 0
    ensures |s| <= k * |Decimate(s, k)| < |s| + k
    decreases |s|
  {
    if s != [] {
      var rest := if |s| <= k then [] else s[k..];
      DecimateLength(rest, k);
      MulSucc(k, |Decimate(rest, k)|);
      DecimateStep(s, k, rest);
    }
  }

  lemma DecimateStep<T>(s: seq<T>, k: nat, rest: seq<T>)
    requires k > 0 && s != [] && rest == if |s| <= k then [] else s[k..]
    ensures Decimate(s, k) == [s[0]] + Decimate(rest, k)
  {
  }

  lemma {:induction false} DecimateWhole<T>(a: seq<T>, b: seq<T>, k: nat, n: nat)
    requires k > 0 && |a| == k * n
    ensures Decimate(a + b, k) == Decimate(a, k) + Decimate(b, k)
    decreases n
  {
    if n == 0 {
      assert a == [] && a + b == b;
      assert [] + Decimate(b, k) == Decimate(b, k);
    } else {
      MulSucc(k, n - 1);
      DecimateWhole(a[k..], b, k, n - 1);
      DecimateFrame(a, b, k);
    }
  }

  lemma DecimateFrame<T>(a: seq<T>, b: seq<T>, k: nat)
    requires 0 < k <= |a| && Decimate(a[k..] + b, k) == Decimate(a[k..], k) + Decimate(b, k)
    ensures Decimate(a + b, k) == Decimate(a, k) + Decimate(b, k)
  {
    hide Decimate;
    assert (a + b)[k..] == a[k..] + b;
    DecimateStep(a, k, a[k..]);
    DecimateStep(a + b, k, a[k..] + b);
    assert [a[0]] + (Decimate(a[k..], k) + Decimate(b, k)) == [a[0]] + Decimate(a[k..], k) + Decimate(b, k);
  }

  lemma DividesExactly(k: nat, len: nat)
    requires k > 0
    ensures len % k == 0 <==> len == k * (len / k)
  {
  }

  lemma Multiple(k: int, n: int)
    requires k > 0
    ensures (k * n) % k == 0
  {
    var x := k * n;
    var q, r := x / k, x % k;
    assert x == k * q + r;
    MulDistributes(k, n, q);
    var d := n - q;
    assert r == k * d;
    if d >= 1 { MulAtLeast(k, d); } else if d <= -1 { MulAtLeast(k, -d); }
  }

  lemma MulDistributes(k: int, a: int, b: int)
    ensures k * (a - b) == k * a - k * b
  {
  }

  lemma MulAtLeast(k: int, d: int)
    requires k > 0 && d >= 1
    ensures k * d >= k && k * -d == -(k * d)
  {
  }

  lemma UnevenFails<T>(a: seq<T>, filler: T, k: nat)
    requires k > 0 && |a| % k != 0
    ensures Decimate(a + [filler], k) != Decimate(a, k) + Decimate([filler], k)
  {
    var n, m := |Decimate(a, k)|, |Decimate(a + [filler], k)|;
    DecimateLength(a, k);
    DecimateLength(a + [filler], k);
    Multiple(k, n);
    if m > n {
      MulDistributes(k, m, n);
      MulAtLeast(k, m - n);
      assert false;
    }
    assert |Decimate([filler], k)| == 1;
  }

  /** Decimating frame by frame is decimating the stream exactly when frame lengths are multiples of k. */
  lemma DecimationDistributes<T(!new)>(a: seq<T>, filler: T, k: nat)
    requires k > 0
    ensures (forall b: seq<T> :: Decimate(a + b, k) == Decimate(a, k) + Decimate(b, k)) <==> |a| % k == 0
  {
    if |a| % k == 0 {
      DividesExactly(k, |a|);
      forall b: seq<T> ensures Decimate(a + b, k) == Decimate(a, k) + Decimate(b, k) { DecimateWhole(a, b, k, |a| / k); }
    } else {
      UnevenFails(a, filler, k);
    }
  }

  // ----- The bridge loops ---------------------------------------------------------------

  /** What the RTC session answers to one push_audio call. */
  datatype Answer = Accepted | Backpressure | LeftChannel | Raised

  /** Whether a chunk gets through; when the answers run out the task is cancelled in its wait. */
  predicate GetsThrough(answers: seq<Answer>) {
    answers != [] && (answers[0].Accepted? || (answers[0].Backpressure? && GetsThrough(answers[1..])))
  }

  function Waits(answers: seq<Answer>): nat {
    if answers == [] || !answers[0].Backpressure? then 0 else 1 + Waits(answers[1..])
  }

  /** A chunk gets through exactly when some attempt is accepted and every one before it met backpressure; those are the waits. */
  lemma {:induction false} GetsThroughExactly(answers: seq<Answer>)
    ensures Waits(answers) <= |answers| && (forall j :: 0 <= j < Waits(answers) ==> answers[j] == Backpressure)
    ensures Waits(answers) < |answers| ==> answers[Waits(answers)] != Backpressure
    ensures GetsThrough(answers) <==> Waits(answers) < |answers| && answers[Waits(answers)] == Accepted
    decreases |answers|
  {
    if answers != [] && answers[0].Backpressure? {
      GetsThroughExactly(answers[1..]);
      assert answers == [answers[0]] + answers[1..];
    }
  }

  /** The PCM a run of the upstream loop gets accepted: everything up to the first chunk that does not get through. */
  function AcceptedPcm(chunks: seq<Chunk>, answers: seq<seq<Answer>>, resample: Chunk -> Option<Chunk>): seq<Chunk>
    requires |answers| == |chunks|
  {
    if chunks == [] then []
    else if chunks[0] == [] then AcceptedPcm(chunks[1..], answers[1..], resample)
    else if resample(chunks[0]).None? || !GetsThrough(answers[0]) then []
    else [resample(chunks[0]).value] + AcceptedPcm(chunks[1..], answers[1..], resample)
  }

  /** The refusals it waits out. */
  function AllWaits(chunks: seq<Chunk>, answers: seq<seq<Answer>>, resample: Chunk -> Option<Chunk>): nat
    requires |answers| == |chunks|
  {
    if chunks == [] then 0
    else if chunks[0] == [] then AllWaits(chunks[1..], answers[1..], resample)
    else if resample(chunks[0]).None? then 0
    else Waits(answers[0]) + if GetsThrough(answers[0]) then AllWaits(chunks[1..], answers[1..], resample) else 0
  }

  /** An empty chunk, or one that is resampled and accepted behind nothing but backpressure. */
  ghost predicate Passes(chunk: Chunk, answers: seq<Answer>, resample: Chunk -> Option<Chunk>) {
    chunk == [] || (resample(chunk).Some?
                    && exists k :: 0 <= k < |answers| && answers[k] == Accepted && forall j :: 0 <= j < k ==> answers[j] == Backpressure)
  }

  /** The chunks that hold anything, resampled, in order. */
  function Resampled(chunks: seq<Chunk>, resample: Chunk -> Option<Chunk>): seq<Chunk> {
    if chunks == [] then []
    else
      var chunk := chunks[|chunks| - 1];
      Resampled(chunks[..|chunks| - 1], resample)
      + if chunk != [] && resample(chunk).Some? then [resample(chunk).value] else []
  }

  lemma {:induction false} ResampledFirst(chunk: Chunk, rest: seq<Chunk>, resample: Chunk -> Option<Chunk>)
    ensures Resampled([chunk] + rest, resample) ==
            (if chunk != [] && resample(chunk).Some? then [resample(chunk).value] else []) + Resampled(rest, resample)
    decreases |rest|
  {
    var all := [chunk] + rest;
    if rest == [] {
      assert all[..0] == [];
    } else {
      assert all[|all| - 1] == rest[|rest| - 1] && all[..|all| - 1] == [chunk] + rest[..|rest| - 1];
      ResampledFirst(chunk, rest[..|rest| - 1], resample);
    }
  }

  lemma PassesExactly(chunk: Chunk, answers: seq<Answer>, resample: Chunk -> Option<Chunk>)
    ensures Passes(chunk, answers, resample) <==> chunk == [] || (resample(chunk).Some? && GetsThrough(answers))
  {
    GetsThroughExactly(answers);
    if exists k :: 0 <= k < |answers| && answers[k] == Accepted && forall j :: 0 <= j < k ==> answers[j] == Backpressure {
      var k :| 0 <= k < |answers| && answers[k] == Accepted && forall j :: 0 <= j < k ==> answers[j] == Backpressure;
    }
  }

  /** What the upstream loop gets accepted is every chunk before the first that does not pass, resampled. */
  lemma {:induction false} AcceptedUpToTheFirstFailure(chunks: seq<Chunk>, answers: seq<seq<Answer>>, resample: Chunk -> Option<Chunk>)
    returns (n: nat)
    requires |answers| == |chunks|
    ensures n <= |chunks| && AcceptedPcm(chunks, answers, resample) == Resampled(chunks[..n], resample)
    ensures forall i :: 0 <= i < n ==> Passes(chunks[i], answers[i], resample)
    ensures n < |chunks| ==> !Passes(chunks[n], answers[n], resample)
    decreases |chunks|
  {
    hide Passes, GetsThrough, Resampled;
    n := 0;
    NothingResampled(resample);
    if chunks != [] {
      PassesExactly(chunks[0], answers[0], resample);
      if Passes(chunks[0], answers[0], resample) {
        n := AcceptedUpToTheFirstFailure(chunks[1..], answers[1..], resample);
        ResampledFirst(chunks[0], chunks[1..][..n], resample);
        n := n + 1;
        assert chunks[..n] == [chunks[0]] + chunks[1..][..n - 1];
      } else {
        assert chunks[..0] == [];
      }
    } else {
      assert chunks[..0] == [];
    }
  }

  /** The refusals met by the chunks that hold anything. */
  function Refusals(chunks: seq<Chunk>, answers: seq<seq<Answer>>): nat
    requires |answers| == |chunks|
  {
    if chunks == [] then 0
    else (if chunks[0] == [] then 0 else Waits(answers[0])) + Refusals(chunks[1..], answers[1..])
  }

  /** The backpressure events are the refusals met up to there, those of the failing chunk included. */
  lemma {:induction false} WaitsUpToTheFirstFailure(chunks: seq<Chunk>, answers: seq<seq<Answer>>, resample: Chunk -> Option<Chunk>, n: nat)
    requires |answers| == |chunks| && n <= |chunks|
    requires forall i :: 0 <= i < n ==> Passes(chunks[i], answers[i], resample)
    requires n < |chunks| ==> !Passes(chunks[n], answers[n], resample)
    ensures AllWaits(chunks, answers, resample) ==
            Refusals(chunks[..n], answers[..n]) + if n < |chunks| && resample(chunks[n]).Some? then Waits(answers[n]) else 0
    decreases |chunks|
  {
    hide Passes, GetsThrough;
    if chunks != [] {
      PassesExactly(chunks[0], answers[0], resample);
      if n > 0 {
        WaitsUpToTheFirstFailure(chunks[1..], answers[1..], resample, n - 1);
        assert chunks[..n][1..] == chunks[1..][..n - 1] && answers[..n][1..] == answers[1..][..n - 1];
      }
    }
  }

  lemma NothingResampled(resample: Chunk -> Option<Chunk>)
    ensures Resampled([], resample) == []
    ensures forall s: seq<Chunk> :: [] + s == s
  {
  }

  function TapUser(call: string, pcm: seq<Chunk>): seq<R.Op> {
    if pcm == [] then [] else [R.User(call, pcm[0])] + TapUser(call, pcm[1..])
  }

  function Replay(tracks: map<string, R.Tracks>, ops: seq<R.Op>): map<string, R.Tracks>
    decreases |ops|
  {
    if ops == [] then tracks else Replay(R.Apply(tracks, ops[0]), ops[1..])
  }

  /**
  _upstream_loop over the chunks the modem ring hands out; `answers[i]` is what the
  session answers to each attempt at the i-th. Every chunk that gets through is accepted
  once, in order, and tapped once behind it. `resample` is None where the resampler raises.
  */
  method UpstreamLoop(chunks: seq<Chunk>, answers: seq<seq<Answer>>, resample: Chunk -> Option<Chunk>,
                      recorder: R.Recorder, call: string)
    returns (accepted: seq<Chunk>, backpressureEvents: nat)
    requires |answers| == |chunks|
    modifies recorder
    ensures accepted == AcceptedPcm(chunks, answers, resample) && backpressureEvents == AllWaits(chunks, answers, resample)
    ensures recorder.tracks == Replay(old(recorder.tracks), TapUser(call, accepted))
  {
    hide AcceptedPcm, AllWaits, Replay, TapUser, R.Apply;
    accepted, backpressureEvents := [], 0;
    var i := 0;
    NothingAccepted(old(recorder.tracks), call, chunks, answers, resample);
    while i < |chunks|
      invariant i <= |chunks|
      invariant accepted + AcceptedPcm(chunks[i..], answers[i..], resample) == AcceptedPcm(chunks, answers, resample)
      invariant backpressureEvents + AllWaits(chunks[i..], answers[i..], resample) == AllWaits(chunks, answers, resample)
      invariant recorder.tracks == Replay(old(recorder.tracks), TapUser(call, accepted))
    {
      AcceptedNext(accepted, chunks, answers, i, resample);
      var chunk := chunks[i];
      if chunk == [] {
        i := i + 1;
        continue;
      }
      var resampled := resample(chunk);
      if resampled.None? {
        return;
      }
      ghost var before, events := accepted, backpressureEvents;
      var k, pushed := 0, false;
      assert answers[i][0..] == answers[i];
      while !pushed
        invariant k <= |answers[i]|
        invariant if pushed then GetsThrough(answers[i]) && accepted == before + [resampled.value]
                  else GetsThrough(answers[i]) == GetsThrough(answers[i][k..]) && accepted == before
        invariant backpressureEvents + (if pushed then 0 else Waits(answers[i][k..])) == events + Waits(answers[i])
        decreases if pushed then 0 else 1 + |answers[i]| - k
      {
        if k == |answers[i]| {
          return;
        }
        assert answers[i][k..][1..] == answers[i][k + 1..];
        match answers[i][k] {
          case Accepted =>
            accepted := accepted + [resampled.value];
            pushed := true;
          case Backpressure =>
            backpressureEvents := backpressureEvents + 1;
          case _ =>
            return;
        }
        k := k + 1;
      }
      TapOneMore(old(recorder.tracks), call, before, resampled.value);
      recorder.AppendUser(call, resampled.value);
      i := i + 1;
    }
  }

  lemma NothingAccepted(tracks: map<string, R.Tracks>, call: string, chunks: seq<Chunk>, answers: seq<seq<Answer>>,
                        resample: Chunk -> Option<Chunk>)
    requires |answers| == |chunks|
    ensures chunks[0..] == chunks && answers[0..] == answers
    ensures Replay(tracks, TapUser(call, [])) == tracks
    ensures AcceptedPcm(chunks[|chunks|..], answers[|chunks|..], resample) == []
    ensures AllWaits(chunks[|chunks|..], answers[|chunks|..], resample) == 0
    ensures forall pushed: seq<Chunk> :: pushed + [] == pushed
    ensures [] + AcceptedPcm(chunks, answers, resample) == AcceptedPcm(chunks, answers, resample)
  {
  }

  /** One turn of the loop, seen from what is still to come. */
  lemma AcceptedNext(pushed: seq<Chunk>, chunks: seq<Chunk>, answers: seq<seq<Answer>>, i: nat, resample: Chunk -> Option<Chunk>)
    requires |answers| == |chunks| && i < |chunks|
    ensures var now, later := AcceptedPcm(chunks[i..], answers[i..], resample), AcceptedPcm(chunks[i + 1..], answers[i + 1..], resample);
      if chunks[i] == [] then now == later
      else if resample(chunks[i]).None? || !GetsThrough(answers[i]) then now == []
      else pushed + now == (pushed + [resample(chunks[i]).value]) + later
    ensures var now, later := AllWaits(chunks[i..], answers[i..], resample), AllWaits(chunks[i + 1..], answers[i + 1..], resample);
      if chunks[i] == [] then now == later
      else if resample(chunks[i]).None? then now == 0
      else now == Waits(answers[i]) + if GetsThrough(answers[i]) then later else 0
  {
    assert chunks[i..][1..] == chunks[i + 1..] && answers[i..][1..] == answers[i + 1..];
  }

  lemma {:induction false} ReplayMore(tracks: map<string, R.Tracks>, ops: seq<R.Op>, op: R.Op)
    ensures Replay(tracks, ops + [op]) == R.Apply(Replay(tracks, ops), op)
    decreases |ops|
  {
    if ops == [] {
      assert ops + [op] == [op] && [op][1..] == [];
    } else {
      assert (ops + [op])[1..] == ops[1..] + [op];
      ReplayMore(R.Apply(tracks, ops[0]), ops[1..], op);
    }
  }

  lemma {:induction false} TapMore(call: string, pcm: seq<Chunk>, more: Chunk)
    ensures TapUser(call, pcm + [more]) == TapUser(call, pcm) + [R.User(call, more)]
    decreases |pcm|
  {
    if pcm == [] {
      assert pcm + [more] == [more] && [more][1..] == [];
    } else {
      assert (pcm + [more])[1..] == pcm[1..] + [more];
      TapMore(call, pcm[1..], more);
    }
  }

  lemma TapOneMore(tracks: map<string, R.Tracks>, call: string, pcm: seq<Chunk>, more: Chunk)
    ensures Replay(tracks, TapUser(call, pcm + [more])) == R.Apply(Replay(tracks, TapUser(call, pcm)), R.User(call, more))
  {
    TapMore(call, pcm, more);
    ReplayMore(tracks, TapUser(call, pcm), R.User(call, more));
  }

  datatype RtcFrame = RtcFrame(uid: string, pcm: Chunk)

  predicate FromPeer(f: RtcFrame, peer: string) {
    f.uid == "" || f.uid == peer
  }

  /**
  The PCM the downstream loop taps: that of every frame from the peer, up to and with
  the first whose conversion raises or that finds the ring closed.
  */
  function HeardPcm(frames: seq<RtcFrame>, open: seq<bool>, peer: string, convert: RtcFrame -> Option<Chunk>): seq<Chunk>
    requires |open| == |frames|
  {
    if frames == [] then []
    else if !FromPeer(frames[0], peer) then HeardPcm(frames[1..], open[1..], peer, convert)
    else if convert(frames[0]).None? || !open[0] then [frames[0].pcm]
    else [frames[0].pcm] + HeardPcm(frames[1..], open[1..], peer, convert)
  }

  /** What reaches the modem ring of it. */
  function Played(frames: seq<RtcFrame>, open: seq<bool>, peer: string, convert: RtcFrame -> Option<Chunk>): seq<Chunk>
    requires |open| == |frames|
  {
    if frames == [] then []
    else if !FromPeer(frames[0], peer) then Played(frames[1..], open[1..], peer, convert)
    else if convert(frames[0]).None? || !open[0] then []
    else [convert(frames[0]).value] + Played(frames[1..], open[1..], peer, convert)
  }

  /** How many frames of other users it passes over. */
  function FilteredOut(frames: seq<RtcFrame>, open: seq<bool>, peer: string, convert: RtcFrame -> Option<Chunk>): nat
    requires |open| == |frames|
  {
    if frames == [] then 0
    else if !FromPeer(frames[0], peer) then 1 + FilteredOut(frames[1..], open[1..], peer, convert)
    else if convert(frames[0]).None? || !open[0] then 0
    else FilteredOut(frames[1..], open[1..], peer, convert)
  }

  /** The frames of the peer, or of nobody in particular. */
  function PeerFrames(frames: seq<RtcFrame>, peer: string): seq<RtcFrame> {
    if frames == [] then []
    else
      (if frames[0].uid == "" || frames[0].uid == peer then [frames[0]] else []) + PeerFrames(frames[1..], peer)
  }

  function PcmOf(frames: seq<RtcFrame>): (pcm: seq<Chunk>)
    ensures |pcm| == |frames| && forall i :: 0 <= i < |frames| ==> pcm[i] == frames[i].pcm
  {
    seq(|frames|, i requires 0 <= i < |frames| => frames[i].pcm)
  }

  /** A frame of another user, or one that is converted and finds the ring open. */
  predicate GoesOn(f: RtcFrame, open: bool, peer: string, convert: RtcFrame -> Option<Chunk>) {
    (f.uid != "" && f.uid != peer) || (convert(f).Some? && open)
  }

  lemma PeerFramesFirst(f: RtcFrame, rest: seq<RtcFrame>, peer: string)
    ensures PeerFrames([f] + rest, peer) == if FromPeer(f, peer) then [f] + PeerFrames(rest, peer) else PeerFrames(rest, peer)
  {
    assert ([f] + rest)[1..] == rest;
  }

  /** The frames `peers` and then `last` are tapped, and `peers` converted are played. */
  ghost predicate Hears(peers: seq<RtcFrame>, last: seq<Chunk>, heard: seq<Chunk>, played: seq<Chunk>, convert: RtcFrame -> Option<Chunk>) {
    && heard == PcmOf(peers) + last && |played| == |peers|
    && forall i :: 0 <= i < |peers| ==> convert(peers[i]) == Some(played[i])
  }

  lemma HearsOneMore(f: RtcFrame, peers: seq<RtcFrame>, last: seq<Chunk>, heard: seq<Chunk>, played: seq<Chunk>, convert: RtcFrame -> Option<Chunk>)
    requires Hears(peers, last, heard, played, convert) && convert(f).Some?
    ensures Hears([f] + peers, last, [f.pcm] + heard, [convert(f).value] + played, convert)
  {
    assert PcmOf([f] + peers) == [f.pcm] + PcmOf(peers);
  }

  lemma HearsNothing(convert: RtcFrame -> Option<Chunk>, last: seq<Chunk>)
    ensures Hears([], last, last, [], convert)
  {
    assert PcmOf([]) + last == last;
  }

  /**
  Up to the first of the peer's frames that cannot be converted or finds the ring closed,
  exactly the peer's frames are tapped and played; that one is tapped and not played.
  */
  lemma {:induction false} HeardUpToTheFirstFailure(frames: seq<RtcFrame>, open: seq<bool>, peer: string, convert: RtcFrame -> Option<Chunk>)
    returns (n: nat)
    requires |open| == |frames|
    ensures n <= |frames| && (forall i :: 0 <= i < n ==> GoesOn(frames[i], open[i], peer, convert))
    ensures n < |frames| ==> !GoesOn(frames[n], open[n], peer, convert)
    ensures FilteredOut(frames, open, peer, convert) + |PeerFrames(frames[..n], peer)| == n
    ensures Hears(PeerFrames(frames[..n], peer), if n < |frames| then [frames[n].pcm] else [],
                  HeardPcm(frames, open, peer, convert), Played(frames, open, peer, convert), convert)
    decreases |frames|
  {
    hide Hears, PeerFrames;
    n := 0;
    if frames != [] && GoesOn(frames[0], open[0], peer, convert) {
      n := HeardUpToTheFirstFailure(frames[1..], open[1..], peer, convert);
      var rest := frames[1..][..n];
      var last := if n < |frames[1..]| then [frames[1..][n].pcm] else [];
      PeerFramesFirst(frames[0], rest, peer);
      if FromPeer(frames[0], peer) {
        HearsOneMore(frames[0], PeerFrames(rest, peer), last, HeardPcm(frames[1..], open[1..], peer, convert),
                     Played(frames[1..], open[1..], peer, convert), convert);
      }
      n := n + 1;
      assert frames[..n] == [frames[0]] + rest;
    } else {
      HearsNothing(convert, if frames == [] then [] else [frames[0].pcm]);
      assert frames[..0] == [] && PeerFrames([], peer) == [] by { NoPeers(peer); }
    }
  }

  lemma NoPeers(peer: string)
    ensures PeerFrames([], peer) == []
  {
  }

  function TapAi(call: string, pcm: seq<Chunk>): seq<R.Op> {
    if pcm == [] then [] else [R.Ai(call, pcm[0])] + TapAi(call, pcm[1..])
  }

  lemma {:induction false} TapAiMore(call: string, pcm: seq<Chunk>, more: Chunk)
    ensures TapAi(call, pcm + [more]) == TapAi(call, pcm) + [R.Ai(call, more)]
    decreases |pcm|
  {
    if pcm == [] {
      assert pcm + [more] == [more] && [more][1..] == [];
    } else {
      assert (pcm + [more])[1..] == pcm[1..] + [more];
      TapAiMore(call, pcm[1..], more);
    }
  }

  lemma NothingTapped(tracks: map<string, R.Tracks>, call: string)
    ensures Replay(tracks, TapAi(call, [])) == tracks
  {
  }

  /** _downstream_loop; `open[i]` says whether the modem ring still takes the i-th frame. */
  method DownstreamLoop(frames: seq<RtcFrame>, open: seq<bool>, peer: string, convert: RtcFrame -> Option<Chunk>,
                        recorder: R.Recorder, call: string)
    returns (ring: seq<Chunk>, filtered: nat, ghost heard: seq<Chunk>)
    requires |open| == |frames|
    modifies recorder
    ensures ring == Played(frames, open, peer, convert) && heard == HeardPcm(frames, open, peer, convert)
    ensures filtered == FilteredOut(frames, open, peer, convert)
    ensures recorder.tracks == Replay(old(recorder.tracks), TapAi(call, heard))
  {
    hide Replay, TapAi, R.Apply;
    ring, filtered, heard := [], 0, [];
    var i := 0;
    NothingTapped(recorder.tracks, call);
    assert frames[0..] == frames && open[0..] == open;
    while i < |frames|
      invariant i <= |frames|
      invariant filtered + FilteredOut(frames[i..], open[i..], peer, convert) == FilteredOut(frames, open, peer, convert)
      invariant ring + Played(frames[i..], open[i..], peer, convert) == Played(frames, open, peer, convert)
      invariant heard + HeardPcm(frames[i..], open[i..], peer, convert) == HeardPcm(frames, open, peer, convert)
      invariant recorder.tracks == Replay(old(recorder.tracks), TapAi(call, heard))
    {
      assert frames[i..][1..] == frames[i + 1..] && open[i..][1..] == open[i + 1..];
      var frame := frames[i];
      if !FromPeer(frame, peer) {
        filtered := filtered + 1;
        i := i + 1;
        continue;
      }
      ghost var rest := HeardPcm(frames[i + 1..], open[i + 1..], peer, convert);
      TapAiMore(call, heard, frame.pcm);
      ReplayMore(old(recorder.tracks), TapAi(call, heard), R.Ai(call, frame.pcm));
      assert heard + ([frame.pcm] + rest) == (heard + [frame.pcm]) + rest;
      heard := heard + [frame.pcm];
      recorder.AppendAi(call, frame.pcm);
      var resampled := convert(frame);
      if resampled.None? || !open[i] {
        assert ring + [] == ring;
        return;
      }
      ghost var later := Played(frames[i + 1..], open[i + 1..], peer, convert);
      assert ring + ([resampled.value] + later) == (ring + [resampled.value]) + later;
      ring := ring + [resampled.value];
      i := i + 1;
    }
    assert ring + [] == ring && heard + [] == heard;
  }

  // ----- The recording of a call ----------------------------------------------------------

  /** Two runs of operations in some interleaving. */
  predicate Shuffle(ops: seq<R.Op>, a: seq<R.Op>, b: seq<R.Op>)
    decreases |ops|
  {
    if ops == [] then a == [] && b == []
    else
      || (a != [] && ops[0] == a[0] && Shuffle(ops[1..], a[1..], b))
      || (b != [] && ops[0] == b[0] && Shuffle(ops[1..], a, b[1..]))
  }

  /** However the taps of the two loops interleave, each track grows by its own loop's PCM, in order. */
  lemma {:induction false} TapsFillTracks(tracks: map<string, R.Tracks>, call: string, ops: seq<R.Op>, pushed: seq<Chunk>, heard: seq<Chunk>)
    requires call in tracks && Shuffle(ops, TapUser(call, pushed), TapAi(call, heard))
    ensures Replay(tracks, ops) == tracks[call := R.Tracks(tracks[call].user + pushed, tracks[call].ai + heard)]
    decreases |ops|
  {
    var was := tracks[call];
    if ops == [] {
      assert pushed == [] && heard == [];
      assert was.user + [] == was.user && was.ai + [] == was.ai;
      assert tracks[call := was] == tracks;
    } else if pushed != [] && ops[0] == R.User(call, pushed[0]) && Shuffle(ops[1..], TapUser(call, pushed[1..]), TapAi(call, heard)) {
      var next := R.Apply(tracks, ops[0]);
      TapsFillTracks(next, call, ops[1..], pushed[1..], heard);
      assert was.user + [pushed[0]] + pushed[1..] == was.user + pushed;
      SetTwice(tracks, call, next[call], R.Tracks(was.user + pushed, was.ai + heard));
    } else {
      var next := R.Apply(tracks, ops[0]);
      TapsFillTracks(next, call, ops[1..], pushed, heard[1..]);
      assert was.ai + [heard[0]] + heard[1..] == was.ai + heard;
      SetTwice(tracks, call, next[call], R.Tracks(was.user + pushed, was.ai + heard));
    }
  }

  lemma SetTwice(tracks: map<string, R.Tracks>, call: string, first: R.Tracks, second: R.Tracks)
    ensures tracks[call := first][call := second] == tracks[call := second]
  {
  }

  /**
  A call begun, tapped by both loops in any interleaving and finalized: the left track
  of the wav is exactly the PCM of the pushes that completed, the right one exactly the
  peer's, each padded to the longer of the two.
  */
  lemma CallIsRecorded(tracks: map<string, R.Tracks>, call: string, ops: seq<R.Op>, pushed: seq<Chunk>, heard: seq<Chunk>)
    requires Shuffle(ops, TapUser(call, pushed), TapAi(call, heard))
    ensures var wav := R.Finished(Replay(R.Apply(tracks, R.Begin(call)), ops), call);
      var left, right := Join(pushed), Join(heard); var n := R.Longer(left, right);
      && (wav.Malformed? <==> n % 2 != 0) && !wav.Missing?
      && (wav.Stereo? ==>
            && R.Unwords(R.LeftOf(wav.samples)) == R.Padded(left, n)
            && R.Unwords(R.RightOf(wav.samples)) == R.Padded(right, n))
  {
    var begun := R.Apply(tracks, R.Begin(call));
    TapsFillTracks(begun, call, ops, pushed, heard);
    assert [] + pushed == pushed && [] + heard == heard;
    R.WavGivesTracksBack(Join(pushed), Join(heard));
  }
}
