/** The number of bytes a string occupies once encoded as UTF-8
    (Node's `Buffer.byteLength` with its default encoding). A Dafny `char`
    is a Unicode scalar value, so each one takes 1 to 4 bytes, as
    section 3 of RFC 3629 lays out. */
module Utf8 {

  /** Bytes needed to encode one scalar value. */
  function CharLength(c: char): (n: nat)
    ensures 1 <= n <= 4
    ensures (c as int < 0x80) <==> n == 1
  {
    if c as int < 0x80 then 1
    else if c as int < 0x800 then 2
    else if c as int < 0x10000 then 3
    else 4
  }

  /** `Buffer.byteLength(s)`: the length of the UTF-8 encoding of `s`. */
  function ByteLength(s: string): (n: nat)
    ensures n == 0 <==> s == []
  {
    if s == [] then 0 else ByteLength(s[..|s| - 1]) + CharLength(s[|s| - 1])
  }

  /** Every character takes at least one and at most four bytes. */
  lemma {:induction false} ByteLengthBounds(s: string)
    ensures |s| <= ByteLength(s) <= 4 * |s|
  {
    if s != [] {
      ByteLengthBounds(s[..|s| - 1]);
    }
  }

  /** The encoding of a concatenation is the concatenation of the encodings. */
  lemma {:induction false} ByteLengthAppend(a: string, b: string)
    ensures ByteLength(a + b) == ByteLength(a) + ByteLength(b)
  {
    if b == [] {
      assert a + b == a;
    } else {
      assert (a + b)[..|a + b| - 1] == a + b[..|b| - 1];
      ByteLengthAppend(a, b[..|b| - 1]);
    }
  }
}
