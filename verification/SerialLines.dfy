/** Line reassembly in the serial reader thread of platforms/windows_serial_at.py. */
module SerialLines {
  import opened Options
  import opened Bytes

  const NEWLINE: Byte := 10

  /** buf.find(b"\n"), with None for -1. */
  function Find(buf: Chunk): (r: Option<nat>)
    ensures r.Some? ==> r.value < |buf| && buf[r.value] == NEWLINE && NEWLINE !in buf[..r.value]
    ensures r.None? ==> NEWLINE !in buf
  {
    if buf == [] then None
    else if buf[0] == NEWLINE then Some(0)
    else
      match Find(buf[1..])
      case None => None
      case Some(k) =>
        assert buf[..k + 1] == [buf[0]] + buf[1..][..k];
        Some(k + 1)
  }

  /** The complete lines of a byte string, and what follows the last newline. */
  function Lines(buf: Chunk): seq<Chunk>
    decreases |buf|
  {
    match Find(buf)
    case None => []
    case Some(k) => [buf[..k + 1]] + Lines(buf[k + 1..])
  }

  function Residue(buf: Chunk): Chunk
    decreases |buf|
  {
    match Find(buf)
    case None => buf
    case Some(k) => Residue(buf[k + 1..])
  }

  /** Exactly one newline, at the end. */
  predicate IsLine(line: Chunk) {
    line != [] && line[|line| - 1] == NEWLINE && NEWLINE !in line[..|line| - 1]
  }

  ghost predicate Decomposes(lines: seq<Chunk>, rest: Chunk, buf: Chunk) {
    && (forall i :: 0 <= i < |lines| ==> IsLine(lines[i]))
    && NEWLINE !in rest
    && Join(lines) + rest == buf
  }

  lemma CutLine(buf: Chunk, k: nat)
    requires Find(buf) == Some(k)
    ensures IsLine(buf[..k + 1]) && buf == buf[..k + 1] + buf[k + 1..]
  {
  }

  lemma DecomposesBehind(line: Chunk, lines: seq<Chunk>, rest: Chunk, tail: Chunk)
    requires IsLine(line) && Decomposes(lines, rest, tail)
    ensures Decomposes([line] + lines, rest, line + tail)
  {
  }

  /** Lines and residue give the bytes back, each line with exactly one newline, at its end. */
  lemma {:induction false} LinesDecompose(buf: Chunk)
    ensures Decomposes(Lines(buf), Residue(buf), buf)
    decreases |buf|
  {
    match Find(buf)
    case None => assert [] + buf == buf;
    case Some(k) =>
      CutLine(buf, k);
      LinesDecompose(buf[k + 1..]);
      DecomposesBehind(buf[..k + 1], Lines(buf[k + 1..]), Residue(buf[k + 1..]), buf[k + 1..]);
  }

  lemma FindAt(buf: Chunk, n: nat)
    requires n < |buf| && buf[n] == NEWLINE && forall j :: 0 <= j < n ==> buf[j] != NEWLINE
    ensures Find(buf) == Some(n)
  {
  }

  /** The first newline of `line + tail` is the one that ends `line`. */
  lemma FindFirst(line: Chunk, tail: Chunk)
    requires IsLine(line)
    ensures Find(line + tail) == Some(|line| - 1)
  {
    forall j | 0 <= j < |line| - 1 ensures (line + tail)[j] != NEWLINE {
      assert line[..|line| - 1][j] == line[j];
    }
    FindAt(line + tail, |line| - 1);
  }

  /** There is only one way to cut a byte string like that. */
  lemma {:induction false} DecompositionIsUnique(lines: seq<Chunk>, rest: Chunk, buf: Chunk)
    requires Decomposes(lines, rest, buf)
    ensures lines == Lines(buf) && rest == Residue(buf)
    decreases |lines|
  {
    if lines == [] {
      assert buf == rest;
    } else {
      var tail := Join(lines[1..]) + rest;
      assert buf == lines[0] + tail;
      FindFirst(lines[0], tail);
      assert buf[..|lines[0]|] == lines[0] && buf[|lines[0]|..] == tail;
      DecompositionIsUnique(lines[1..], rest, tail);
    }
  }

  lemma DecomposesJoin(first: seq<Chunk>, second: seq<Chunk>, middle: Chunk, rest: Chunk, a: Chunk, b: Chunk)
    requires Decomposes(first, middle, a) && Decomposes(second, rest, middle + b)
    ensures Decomposes(first + second, rest, a + b)
  {
    JoinConcat(first, second);
    assert Join(first) + Join(second) + rest == Join(first) + (Join(second) + rest);
    assert Join(first) + (middle + b) == a + b;
  }

  /** More bytes only add lines cut from the residue. */
  lemma LinesGrow(a: Chunk, b: Chunk)
    ensures Lines(a + b) == Lines(a) + Lines(Residue(a) + b) && Residue(a + b) == Residue(Residue(a) + b)
  {
    LinesDecompose(a);
    LinesDecompose(Residue(a) + b);
    DecomposesJoin(Lines(a), Lines(Residue(a) + b), Residue(a), Residue(Residue(a) + b), a, b);
    DecompositionIsUnique(Lines(a) + Lines(Residue(a) + b), Residue(Residue(a) + b), a + b);
  }

  // ----- The incremental reader -----------------------------------------------------

  /** What the reader has queued, and the buffer it carries from read to read. */
  datatype Reader = Reader(queued: seq<Chunk>, buf: Chunk)

  const AWAKE := Reader([], [])

  /** One read: an empty one is skipped, any other goes behind the buffer, which is then emptied of its lines. */
  function Feed(r: Reader, chunk: Chunk): Reader {
    if chunk == [] then r
    else Reader(r.queued + Lines(r.buf + chunk), Residue(r.buf + chunk))
  }

  function FeedAll(r: Reader, chunks: seq<Chunk>): Reader
    decreases |chunks|
  {
    if chunks == [] then r else FeedAll(Feed(r, chunks[0]), chunks[1..])
  }

  lemma NoLineWithoutNewline(buf: Chunk)
    requires NEWLINE !in buf
    ensures Lines(buf) == [] && Residue(buf) == buf
  {
  }

  /** What one read leaves to be done is what was left to be done before it. */
  lemma FeedKeepsWhole(r: Reader, chunk: Chunk, rest: Chunk)
    requires NEWLINE !in r.buf
    ensures var next := Feed(r, chunk);
      && NEWLINE !in next.buf
      && r.queued + Lines(r.buf + (chunk + rest)) == next.queued + Lines(next.buf + rest)
      && Residue(r.buf + (chunk + rest)) == Residue(next.buf + rest)
  {
    hide Lines, Residue;
    assert r.buf + (chunk + rest) == (r.buf + chunk) + rest;
    if chunk == [] {
      assert r.buf + chunk == r.buf;
    } else {
      LinesDecompose(r.buf + chunk);
      LinesGrow(r.buf + chunk, rest);
      var first, second := Lines(r.buf + chunk), Lines(Residue(r.buf + chunk) + rest);
      assert r.queued + (first + second) == (r.queued + first) + second;
    }
  }

  /** Reading piece by piece comes to reading everything at once. */
  lemma {:induction false} FeedAllIsWhole(r: Reader, chunks: seq<Chunk>)
    requires NEWLINE !in r.buf
    ensures FeedAll(r, chunks) == Reader(r.queued + Lines(r.buf + Join(chunks)), Residue(r.buf + Join(chunks)))
    decreases |chunks|
  {
    hide Lines, Residue, Feed;
    if chunks == [] {
      NoLineWithoutNewline(r.buf);
      assert r.buf + [] == r.buf && r.queued + [] == r.queued;
    } else {
      FeedKeepsWhole(r, chunks[0], Join(chunks[1..]));
      FeedAllIsWhole(Feed(r, chunks[0]), chunks[1..]);
    }
  }

  /** However the same bytes are split into reads, the reader queues the same lines and keeps the same buffer. */
  lemma ChunkingDoesNotMatter(chunks: seq<Chunk>, others: seq<Chunk>)
    requires Join(chunks) == Join(others)
    ensures FeedAll(AWAKE, chunks) == FeedAll(AWAKE, others)
  {
    FeedAllIsWhole(AWAKE, chunks);
    FeedAllIsWhole(AWAKE, others);
  }

  lemma {:induction false} FeedAllMore(r: Reader, chunks: seq<Chunk>, chunk: Chunk)
    ensures FeedAll(r, chunks + [chunk]) == Feed(FeedAll(r, chunks), chunk)
    decreases |chunks|
  {
    if chunks == [] {
      assert chunks + [chunk] == [chunk] && [chunk][1..] == [];
    } else {
      assert (chunks + [chunk])[1..] == chunks[1..] + [chunk];
      FeedAllMore(Feed(r, chunks[0]), chunks[1..], chunk);
    }
  }

  /** One read of the port: nothing, some bytes, or an error that ends the thread. */
  datatype Read = Data(chunk: Chunk) | Failed

  /** The reads before the first failed one. */
  function Received(input: seq<Read>): seq<Chunk> {
    if input == [] || input[0].Failed? then [] else [input[0].chunk] + Received(input[1..])
  }

  lemma {:induction false} ReceivedMore(input: seq<Read>, n: nat)
    requires n < |input| && forall i :: 0 <= i <= n ==> input[i].Data?
    ensures Received(input[..n + 1]) == Received(input[..n]) + [input[n].chunk]
    decreases n
  {
    if n == 0 {
      assert input[..1][1..] == [] && input[..0] == [];
    } else {
      assert input[..n + 1][1..] == input[1..][..n] && input[..n][1..] == input[1..][..n - 1];
      ReceivedMore(input[1..], n - 1);
    }
  }

  lemma {:induction false} ReceivedStops(input: seq<Read>, n: nat)
    requires n <= |input| && (forall i :: 0 <= i < n ==> input[i].Data?) && (n < |input| ==> input[n].Failed?)
    ensures Received(input[..n]) == Received(input)
    decreases n
  {
    if n == 0 {
      assert input[..0] == [];
    } else {
      assert input[..n][1..] == input[1..][..n - 1];
      ReceivedStops(input[1..], n - 1);
    }
  }

  /** The inner loop: complete lines leave the buffer. */
  method EmitLines(full: Chunk) returns (lines: seq<Chunk>, buf: Chunk)
    ensures lines == Lines(full) && buf == Residue(full)
  {
    lines, buf := [], full;
    while true
      invariant lines + Lines(buf) == Lines(full) && Residue(buf) == Residue(full)
      decreases |buf|
    {
      var newline := Find(buf);
      if newline.None? {
        assert lines + [] == lines;
        return;
      }
      var line, rest := buf[..newline.value + 1], buf[newline.value + 1..];
      assert lines + ([line] + Lines(rest)) == (lines + [line]) + Lines(rest);
      lines, buf := lines + [line], rest;
    }
  }

  /**
  The reader thread over a run of reads: what it queues and keeps is the fold over the
  reads before the first failure, hence the lines and the residue of their bytes taken
  together; the empty end-of-file marker comes last.
  */
  method ReaderThread(input: seq<Read>) returns (queued: seq<Chunk>, buf: Chunk)
    ensures queued == FeedAll(AWAKE, Received(input)).queued + [[]] && buf == FeedAll(AWAKE, Received(input)).buf
    ensures queued == Lines(Join(Received(input))) + [[]] && buf == Residue(Join(Received(input)))
  {
    queued, buf := [], [];
    var i := 0;
    while i < |input|
      invariant i <= |input| && forall j :: 0 <= j < i ==> input[j].Data?
      invariant Reader(queued, buf) == FeedAll(AWAKE, Received(input[..i]))
    {
      if input[i].Failed? {
        break;
      }
      var chunk := input[i].chunk;
      ReceivedMore(input, i);
      FeedAllMore(AWAKE, Received(input[..i]), chunk);
      i := i + 1;
      if chunk == [] {
        continue;
      }
      var lines;
      lines, buf := EmitLines(buf + chunk);
      queued := queued + lines;
    }
    ReceivedStops(input, i);
    FeedAllIsWhole(AWAKE, Received(input));
    assert [] + Join(Received(input)) == Join(Received(input));
    assert [] + Lines(Join(Received(input))) == Lines(Join(Received(input)));
    queued := queued + [[]];
  }
}
