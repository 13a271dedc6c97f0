/**
 Unsigned big-endian integers as the `binary` library's `word16bu` and
 `word32bu` read them, and the inverse encodings.
 */
module BigEndian {

  newtype byte = b: int | 0 <= b < 256

  const TwoTo16: nat := 0x1_0000
  const TwoTo32: nat := 0x1_0000_0000

  /** The unsigned 16-bit value of two bytes, most significant first. */
  function U16(s: seq<byte>): (n: nat)
    requires |s| == 2
    ensures n < TwoTo16
  {
    s[0] as int * 0x100 + s[1] as int
  }

  /** The unsigned 32-bit value of four bytes, most significant first. */
  function U32(s: seq<byte>): (n: nat)
    requires |s| == 4
    ensures n < TwoTo32
  {
    ((s[0] as int * 0x100 + s[1] as int) * 0x100 + s[2] as int) * 0x100 + s[3] as int
  }

  function U16Bytes(n: nat): (s: seq<byte>)
    requires n < TwoTo16
    ensures |s| == 2
  {
    [(n / 0x100) as byte, (n % 0x100) as byte]
  }

  function U32Bytes(n: nat): (s: seq<byte>)
    requires n < TwoTo32
    ensures |s| == 4
  {
    [(n / 0x100_0000) as byte, (n / 0x1_0000 % 0x100) as byte,
     (n / 0x100 % 0x100) as byte, (n % 0x100) as byte]
  }

  /** Decoding an encoded 16-bit value gives the value back. */
  lemma U16OfBytes(n: nat)
    requires n < TwoTo16
    ensures U16(U16Bytes(n)) == n
  {
  }

  /** Every two-byte field is the encoding of its value: the decoding loses nothing. */
  lemma BytesOfU16(s: seq<byte>)
    requires |s| == 2
    ensures U16Bytes(U16(s)) == s
  {
    var n := U16(s);
    assert n / 0x100 == s[0] as int;
    assert n % 0x100 == s[1] as int;
  }

  /** Decoding an encoded 32-bit value gives the value back. */
  lemma U32OfBytes(n: nat)
    requires n < TwoTo32
    ensures U32(U32Bytes(n)) == n
  {
    var s := U32Bytes(n);
    var hi := n / 0x1_0000;
    var lo := n % 0x1_0000;
    assert s[0] as int * 0x100 + s[1] as int == hi;
    assert s[2] as int * 0x100 + s[3] as int == lo;
    assert U32(s) == hi * 0x1_0000 + lo;
  }

  /** Every four-byte field is the encoding of its value. */
  lemma BytesOfU32(s: seq<byte>)
    requires |s| == 4
    ensures U32Bytes(U32(s)) == s
  {
    var hi := s[0] as int * 0x100 + s[1] as int;
    var lo := s[2] as int * 0x100 + s[3] as int;
    var n := U32(s);
    assert n == hi * 0x1_0000 + lo;
    assert n / 0x1_0000 == hi;
    assert n % 0x1_0000 == lo;
    assert n / 0x100_0000 == hi / 0x100 == s[0] as int;
    assert n / 0x1_0000 % 0x100 == s[1] as int;
    assert n / 0x100 % 0x100 == lo / 0x100 == s[2] as int;
    assert n % 0x100 == lo % 0x100 == s[3] as int;
  }
}
