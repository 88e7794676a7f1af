/** Byte strings and the searches the stream decoders use on them. */
module Bytes {

  newtype byte = b: int | 0 <= b < 256

  type Bytes = seq<byte>

  const ESC: byte := 0x1b
  const RS: byte := 0x1e
  const US: byte := 0x1f
  const SPACE: byte := 32
  const DQUOTE: byte := 34
  const QUOTE: byte := 39
  const COLON: byte := 58

  /** The first position of a byte, or -1. */
  function IndexOf(s: Bytes, c: byte): (r: int)
    ensures -1 <= r < |s|
    ensures r < 0 <==> c !in s
    ensures r >= 0 ==> s[r] == c && c !in s[..r]
  {
    if s == [] then -1
    else if s[0] == c then 0
    else
      var r := IndexOf(s[1..], c);
      assert s == [s[0]] + s[1..];
      if r < 0 then -1
      else
        assert s[..r + 1] == [s[0]] + s[1..][..r];
        r + 1
  }

  /** The first position of a byte is where any decomposition without earlier occurrences puts it. */
  lemma {:induction false} IndexOfUnique(before: Bytes, c: byte, after: Bytes)
    requires c !in before
    ensures IndexOf(before + [c] + after, c) == |before|
  {
    if before != [] {
      IndexOfUnique(before[1..], c, after);
      assert (before + [c] + after)[1..] == before[1..] + [c] + after;
    }
  }

  /** Appending does not move a first occurrence. */
  lemma {:induction false} IndexOfAppend(s: Bytes, more: Bytes, c: byte)
    ensures IndexOf(s, c) >= 0 ==> IndexOf(s + more, c) == IndexOf(s, c)
    ensures IndexOf(s, c) < 0 ==> IndexOf(s + more, c) < 0 || IndexOf(s + more, c) >= |s|
  {
    if s != [] {
      IndexOfAppend(s[1..], more, c);
      assert (s + more)[1..] == s[1..] + more;
    }
  }

  lemma Regroup<T>(a: seq<T>, b: seq<T>, c: seq<T>)
    ensures a + (b + c) == (a + b) + c
  {
  }

  function Concat(chunks: seq<Bytes>): Bytes {
    if chunks == [] then [] else chunks[0] + Concat(chunks[1..])
  }
}
