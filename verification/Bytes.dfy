/** Bytes and byte strings. */
module Bytes {
  type Byte = b: int | 0 <= b < 256

  type Chunk = seq<Byte>

  function Join(chunks: seq<Chunk>): Chunk {
    if chunks == [] then [] else chunks[0] + Join(chunks[1..])
  }

  /** Total length. */
  function Size(chunks: seq<Chunk>): nat {
    if chunks == [] then 0 else |chunks[0]| + Size(chunks[1..])
  }

  lemma {:induction false} JoinConcat(a: seq<Chunk>, b: seq<Chunk>)
    ensures Join(a + b) == Join(a) + Join(b)
    decreases |a|
  {
    if a == [] {
      assert a + b == b;
    } else {
      assert (a + b)[1..] == a[1..] + b;
      JoinConcat(a[1..], b);
    }
  }

  lemma JoinOne(a: seq<Chunk>, c: Chunk)
    ensures Join(a + [c]) == Join(a) + c
  {
    JoinConcat(a, [c]);
    assert Join([c]) == c;
  }

  lemma {:induction false} SizeConcat(a: seq<Chunk>, b: seq<Chunk>)
    ensures Size(a + b) == Size(a) + Size(b)
    decreases |a|
  {
    if a == [] {
      assert a + b == b;
    } else {
      assert (a + b)[1..] == a[1..] + b;
      SizeConcat(a[1..], b);
    }
  }

  function Zeros(n: nat): Chunk {
    seq(n, _ => 0)
  }
}
