/** Per-call stereo recording: modem_controller/recorder.py. */
module Recording {
  import opened Options
  import opened Bytes

  datatype Tracks = Tracks(user: seq<Chunk>, ai: seq<Chunk>)

  /** A little-endian int16 sample, as its two bytes. */
  type Word = (Byte, Byte)

  /** finalize(): no such recording, a track that is no whole number of samples, or the wav. */
  datatype Wav = Missing | Malformed | Stereo(samples: seq<Word>)

  function Words(s: Chunk): (ws: seq<Word>)
    requires |s| % 2 == 0
    ensures |ws| == |s| / 2
  {
    if s == [] then [] else [(s[0], s[1])] + Words(s[2..])
  }

  function Unwords(ws: seq<Word>): Chunk {
    if ws == [] then [] else [ws[0].0, ws[0].1] + Unwords(ws[1..])
  }

  lemma {:induction false} WordsRoundTrip(s: Chunk)
    requires |s| % 2 == 0
    ensures Unwords(Words(s)) == s
    decreases |s|
  {
    if s != [] {
      WordsRoundTrip(s[2..]);
      assert s == [s[0], s[1]] + s[2..];
    }
  }

  /** A track padded with silence to n bytes. */
  function Padded(s: Chunk, n: nat): Chunk {
    if |s| < n then s + Zeros(n - |s|) else s
  }

  function Longer(a: Chunk, b: Chunk): nat {
    if |a| < |b| then |b| else |a|
  }

  /** Left and right samples in turn. */
  function Interleaved(left: seq<Word>, right: seq<Word>): seq<Word>
    requires |left| == |right|
  {
    if left == [] then [] else [left[0], right[0]] + Interleaved(left[1..], right[1..])
  }

  function LeftOf(samples: seq<Word>): seq<Word> {
    if |samples| < 2 then samples else [samples[0]] + LeftOf(samples[2..])
  }

  function RightOf(samples: seq<Word>): seq<Word> {
    if |samples| < 2 then [] else [samples[1]] + RightOf(samples[2..])
  }

  lemma {:induction false} InterleavedAt(left: seq<Word>, right: seq<Word>, i: nat)
    requires |left| == |right|
    ensures |Interleaved(left, right)| == 2 * |left|
    ensures i < |left| ==> Interleaved(left, right)[2 * i] == left[i] && Interleaved(left, right)[2 * i + 1] == right[i]
    decreases |left|
  {
    if left != [] { InterleavedAt(left[1..], right[1..], if i > 0 then i - 1 else 0); }
  }

  lemma {:induction false} Deinterleaves(left: seq<Word>, right: seq<Word>)
    requires |left| == |right|
    ensures LeftOf(Interleaved(left, right)) == left && RightOf(Interleaved(left, right)) == right
    decreases |left|
  {
    if left != [] {
      Deinterleaves(left[1..], right[1..]);
      assert Interleaved(left, right)[2..] == Interleaved(left[1..], right[1..]);
    }
  }

  /** _write_stereo_wav on two tracks. */
  function Mixed(left: Chunk, right: Chunk): Wav {
    var n := Longer(left, right);
    if n % 2 != 0 then Malformed
    else Stereo(Interleaved(Words(Padded(left, n)), Words(Padded(right, n))))
  }

  /** The bytes of a track as far as they go, then zeros. */
  predicate Pads(track: Chunk, s: Chunk, n: nat) {
    |track| == n && |s| <= n && track[..|s|] == s && forall i :: |s| <= i < n ==> track[i] == 0
  }

  lemma {:induction false} WordsAt(s: Chunk, i: nat)
    requires |s| % 2 == 0 && i < |s| / 2
    ensures Words(s)[i] == (s[2 * i], s[2 * i + 1])
    decreases |s|
  {
    if i > 0 { WordsAt(s[2..], i - 1); }
  }

  /** Sample by sample: left and right in turn, each track padded with silence to the longer one. */
  lemma WavSampleAt(left: Chunk, right: Chunk, i: nat)
    requires Mixed(left, right).Stereo?
    ensures var n := if |left| < |right| then |right| else |left|; var samples := Mixed(left, right).samples;
      && |samples| == n && Pads(Padded(left, n), left, n) && Pads(Padded(right, n), right, n)
      && (2 * i + 1 < n ==>
            && samples[2 * i] == (Padded(left, n)[2 * i], Padded(left, n)[2 * i + 1])
            && samples[2 * i + 1] == (Padded(right, n)[2 * i], Padded(right, n)[2 * i + 1]))
  {
    var n := Longer(left, right);
    var l, r := Padded(left, n), Padded(right, n);
    InterleavedAt(Words(l), Words(r), i);
    if 2 * i + 1 < n {
      WordsAt(l, i);
      WordsAt(r, i);
    }
  }

  /** A wav gives both tracks back, padded to equal length; there is none exactly when the longer track is odd. */
  lemma WavGivesTracksBack(left: Chunk, right: Chunk)
    ensures Mixed(left, right).Malformed? <==> Longer(left, right) % 2 != 0
    ensures Mixed(left, right).Stereo? ==>
      var samples, n := Mixed(left, right).samples, Longer(left, right);
      && Unwords(LeftOf(samples)) == Padded(left, n) && Unwords(RightOf(samples)) == Padded(right, n)
      && |Padded(left, n)| == |Padded(right, n)| == n && left <= Padded(left, n) && right <= Padded(right, n)
  {
    var n := Longer(left, right);
    if n % 2 == 0 {
      var l, r := Padded(left, n), Padded(right, n);
      WordsRoundTrip(l);
      WordsRoundTrip(r);
      Deinterleaves(Words(l), Words(r));
    }
  }

  class Recorder {
    const minFree: nat
    var tracks: map<string, Tracks>

    constructor (minFreeBytes: nat)
      ensures tracks == map[] && minFree == minFreeBytes
    {
      minFree, tracks := minFreeBytes, map[];
    }

    /** begin_call; `full` stands for DiskFullError. */
    method BeginCall(callId: string, free: nat) returns (full: bool)
      modifies this
      ensures full == (free < minFree)
      ensures tracks == if full then old(tracks) else old(tracks)[callId := Tracks([], [])]
    {
      if free < minFree {
        return true;
      }
      tracks := tracks[callId := Tracks([], [])];
      full := false;
    }

    method AppendUser(callId: string, pcm: Chunk)
      modifies this
      ensures tracks == Apply(old(tracks), User(callId, pcm))
    {
      if callId !in tracks {
        return;
      }
      var track := tracks[callId];
      tracks := tracks[callId := track.(user := track.user + [pcm])];
    }

    method AppendAi(callId: string, pcm: Chunk)
      modifies this
      ensures tracks == Apply(old(tracks), Ai(callId, pcm))
    {
      if callId !in tracks {
        return;
      }
      var track := tracks[callId];
      tracks := tracks[callId := track.(ai := track.ai + [pcm])];
    }

    /** The recording leaves the table first, so one that cannot be written is lost. */
    method Finalize(callId: string) returns (wav: Wav)
      modifies this
      ensures tracks == Apply(old(tracks), Finish(callId))
      ensures wav == Finished(old(tracks), callId)
    {
      if callId !in tracks {
        return Missing;
      }
      var track := tracks[callId];
      tracks := tracks - {callId};
      var left := Joined(track.user);
      var right := Joined(track.ai);
      wav := WriteStereo(left, right);
    }
  }

  /** b"".join */
  method Joined(chunks: seq<Chunk>) returns (all: Chunk)
    ensures all == Join(chunks)
  {
    all := [];
    var i := 0;
    while i < |chunks|
      invariant i <= |chunks| && all == Join(chunks[..i])
    {
      assert chunks[..i + 1] == chunks[..i] + [chunks[i]];
      JoinOne(chunks[..i], chunks[i]);
      all := all + chunks[i];
      i := i + 1;
    }
    assert chunks[..i] == chunks;
  }

  /** The strided assignments interleaved[0::2] = left, interleaved[1::2] = right. */
  method WriteStereo(left: Chunk, right: Chunk) returns (wav: Wav)
    ensures wav == Mixed(left, right)
  {
    var l, r := left, right;
    if |l| < |r| {
      l := l + Zeros(|r| - |l|);
    } else if |r| < |l| {
      r := r + Zeros(|l| - |r|);
    }
    if |l| % 2 != 0 {
      return Malformed;
    }
    var leftArr, rightArr := Words(l), Words(r);
    var n := |leftArr|;
    var interleaved := new Word[2 * n];
    for i := 0 to n
      invariant forall k :: 0 <= k < i ==> interleaved[2 * k] == leftArr[k]
    {
      interleaved[2 * i] := leftArr[i];
    }
    for i := 0 to n
      invariant forall k :: 0 <= k < n ==> interleaved[2 * k] == leftArr[k]
      invariant forall k :: 0 <= k < i ==> interleaved[2 * k + 1] == rightArr[k]
    {
      interleaved[2 * i + 1] := rightArr[i];
    }
    InterleavesArray(interleaved[..], leftArr, rightArr);
    wav := Stereo(interleaved[..]);
  }

  lemma InterleavesArray(s: seq<Word>, left: seq<Word>, right: seq<Word>)
    requires |left| == |right| && |s| == 2 * |left|
    requires forall k :: 0 <= k < |left| ==> s[2 * k] == left[k]
    requires forall k :: 0 <= k < |left| ==> s[2 * k + 1] == right[k]
    ensures s == Interleaved(left, right)
  {
    InterleavedAt(left, right, 0);
    forall j | 0 <= j < |s| ensures s[j] == Interleaved(left, right)[j] {
      InterleavedAt(left, right, j / 2);
      assert j == 2 * (j / 2) || j == 2 * (j / 2) + 1;
    }
  }

  // ----- Recordings over time -----------------------------------------------------

  datatype Op = Begin(call: string) | User(call: string, pcm: Chunk) | Ai(call: string, pcm: Chunk) | Finish(call: string)

  function Apply(tracks: map<string, Tracks>, op: Op): map<string, Tracks> {
    match op
    case Begin(c) => tracks[c := Tracks([], [])]
    case User(c, pcm) => if c in tracks then tracks[c := tracks[c].(user := tracks[c].user + [pcm])] else tracks
    case Ai(c, pcm) => if c in tracks then tracks[c := tracks[c].(ai := tracks[c].ai + [pcm])] else tracks
    case Finish(c) => tracks - {c}
  }

  function Run(ops: seq<Op>): map<string, Tracks> {
    if ops == [] then map[] else Apply(Run(ops[..|ops| - 1]), ops[|ops| - 1])
  }

  function Finished(tracks: map<string, Tracks>, call: string): Wav {
    if call in tracks then Mixed(Join(tracks[call].user), Join(tracks[call].ai)) else Missing
  }

  /** The operations on `call` since it last began, if it is being recorded. */
  function Session(ops: seq<Op>, call: string): Option<seq<Op>> {
    if ops == [] then None
    else
      var rest, last := Session(ops[..|ops| - 1], call), ops[|ops| - 1];
      if last.call != call then rest
      else match last
        case Begin(_) => Some([])
        case Finish(_) => None
        case _ => if rest.Some? then Some(rest.value + [last]) else None
  }

  function UserPcm(ops: seq<Op>): seq<Chunk> {
    if ops == [] then []
    else UserPcm(ops[..|ops| - 1]) + (if ops[|ops| - 1].User? then [ops[|ops| - 1].pcm] else [])
  }

  function AiPcm(ops: seq<Op>): seq<Chunk> {
    if ops == [] then []
    else AiPcm(ops[..|ops| - 1]) + (if ops[|ops| - 1].Ai? then [ops[|ops| - 1].pcm] else [])
  }

  /** A recording holds exactly what was appended to its own call since it began, side by side and in order. */
  lemma {:induction false} TracksAreTheSession(ops: seq<Op>, call: string)
    ensures call in Run(ops) <==> Session(ops, call).Some?
    ensures call in Run(ops) ==> Run(ops)[call] == Tracks(UserPcm(Session(ops, call).value), AiPcm(Session(ops, call).value))
    decreases |ops|
  {
    if ops != [] {
      var last := ops[|ops| - 1];
      TracksAreTheSession(ops[..|ops| - 1], call);
      var rest := Session(ops[..|ops| - 1], call);
      if last.call == call && rest.Some? && (last.User? || last.Ai?) {
        assert (rest.value + [last])[..|rest.value|] == rest.value;
        assert UserPcm(rest.value) + [] == UserPcm(rest.value) && AiPcm(rest.value) + [] == AiPcm(rest.value);
      }
    }
  }

  /** So calls never mix, and the wav de-interleaves to the two sessions padded to equal length. */
  lemma RecordingFidelity(ops: seq<Op>, call: string)
    ensures Finished(Run(ops), call).Missing? <==> Session(ops, call).None?
    ensures Finished(Run(ops), call).Stereo? ==>
      var samples := Finished(Run(ops), call).samples;
      var left, right := Join(UserPcm(Session(ops, call).value)), Join(AiPcm(Session(ops, call).value));
      Unwords(LeftOf(samples)) == Padded(left, Longer(left, right)) && Unwords(RightOf(samples)) == Padded(right, Longer(left, right))
  {
    TracksAreTheSession(ops, call);
    if Session(ops, call).Some? {
      WavGivesTracksBack(Join(UserPcm(Session(ops, call).value)), Join(AiPcm(Session(ops, call).value)));
    }
  }
}
