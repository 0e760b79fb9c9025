/** Bytes and little-endian 32-bit words, as the host and the firmware lay them out in shared memory. */
module Bytes {

  type Byte = b: int | 0 <= b < 256

  const U32_LIMIT: nat := 0x1_0000_0000

  /** The u32 stored at byte offset `at`. */
  function GetWord(s: seq<Byte>, at: nat): (w: nat)
    requires at + 4 <= |s|
    ensures w < U32_LIMIT
  {
    s[at] as int + 0x100 * s[at + 1] as int + 0x1_0000 * s[at + 2] as int + 0x100_0000 * s[at + 3] as int
  }

  /** The four bytes of a u32, least significant first. */
  function PutWord(w: nat): (s: seq<Byte>)
    requires w < U32_LIMIT
    ensures |s| == 4 && GetWord(s, 0) == w
  {
    var high24 := w / 0x100;
    var high16 := high24 / 0x100;
    var high8 := high16 / 0x100;
    [w % 0x100, high24 % 0x100, high16 % 0x100, high8]
  }

  /** The value a C expression of type u32 keeps of `x`. */
  function Wrap32(x: int): (r: nat)
    ensures r < U32_LIMIT
    ensures 0 <= x < U32_LIMIT ==> r == x
    ensures -0x1_0000_0000 <= x < 0 ==> r == x + U32_LIMIT
  {
    if 0 <= x < U32_LIMIT then x else x % U32_LIMIT
  }

  /** The least significant byte comes first. */
  lemma WordIsLittleEndian(s: seq<Byte>, at: nat)
    requires at + 4 <= |s|
    ensures GetWord(s, at) == s[at] as int + 0x100 * (s[at + 1] as int + 0x100 * (s[at + 2] as int + 0x100 * s[at + 3] as int))
  {
  }

  /** A u32 keeps the remainder of 2^32. */
  lemma WrapsAround(x: int)
    ensures (x - Wrap32(x)) % U32_LIMIT == 0
  {
  }

  lemma GetWordOfSlice(s: seq<Byte>, lo: nat, hi: nat, at: nat)
    requires lo + at + 4 <= hi <= |s|
    ensures GetWord(s[lo..hi], at) == GetWord(s, lo + at)
  {
  }

  lemma GetWordOfPrefix(s: seq<Byte>, t: seq<Byte>, at: nat)
    requires at + 4 <= |s|
    ensures GetWord(s + t, at) == GetWord(s, at)
  {
  }
}
