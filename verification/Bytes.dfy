/** Bytes, chunks of bytes, and the facts about flattening them that the other modules share. */
module Bytes {

  newtype byte = b: int | 0 <= b < 256

  type Chunk = seq<byte>

  datatype Option<+T> = None | Some(value: T)

  /** The concatenation of a list of chunks, in order. */
  function Flat(chunks: seq<Chunk>): seq<byte> {
    if chunks == [] then [] else chunks[0] + Flat(chunks[1..])
  }

  lemma FlatAppend(a: seq<Chunk>, b: seq<Chunk>)
    ensures Flat(a + b) == Flat(a) + Flat(b)
  {
    if a == [] {
      assert a + b == b;
    } else {
      assert (a + b)[1..] == a[1..] + b;
      FlatAppend(a[1..], b);
    }
  }

  lemma FlatSnoc(a: seq<Chunk>, c: Chunk)
    ensures Flat(a + [c]) == Flat(a) + c
  {
    FlatAppend(a, [c]);
    assert Flat([c]) == c + Flat([]);
  }
}
