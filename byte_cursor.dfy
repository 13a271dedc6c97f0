/**
 The forward-only reader the decoder walks the input with: the observable
 behaviour of the `binary` library's parse mode (`buffer`, `word16bu`,
 `word32bu`, `eof`). Each read is described twice: as a function of the
 buffer and a position (used by the specification of the decoder), and as a
 method of `Cursor` that advances a `pos` field (used by the decoder itself).
 */
module ByteCursor {
  import opened Wrappers
  import opened BigEndian

  /** Why a decode stops. Only the decoder raises `NotAdobeSwatches`. */
  datatype Error =
    | NotAdobeSwatches
    | ShortRead(at: nat, wanted: nat)

  /** A value read at some position, and the position just after it. */
  datatype Read<T> = Read(value: T, next: nat)

  /** The `n` bytes at `p`, or a short read when fewer than `n` remain. */
  function BytesAt(data: seq<byte>, p: nat, n: nat): (r: Result<Read<seq<byte>>, Error>)
    ensures r.Ok? <==> p + n <= |data|
    ensures r.Ok? ==> r.value.next == p + n && |r.value.value| == n
  {
    if p + n <= |data| then Ok(Read(data[p..p + n], p + n)) else Err(ShortRead(p, n))
  }

  /** The big-endian 16-bit word at `p`. */
  function U16At(data: seq<byte>, p: nat): (r: Result<Read<nat>, Error>)
    ensures r.Ok? <==> p + 2 <= |data|
    ensures r.Ok? ==> r.value.next == p + 2 && r.value.value < TwoTo16
  {
    var b :- BytesAt(data, p, 2);
    Ok(Read(U16(b.value), b.next))
  }

  /** The big-endian 32-bit word at `p`. */
  function U32At(data: seq<byte>, p: nat): (r: Result<Read<nat>, Error>)
    ensures r.Ok? <==> p + 4 <= |data|
    ensures r.Ok? ==> r.value.next == p + 4 && r.value.value < TwoTo32
  {
    var b :- BytesAt(data, p, 4);
    Ok(Read(U32(b.value), b.next))
  }

  /**
   A method result `r` with the cursor moved from `before` to `after` is
   what the read function `spec` describes: on success the same value and
   the cursor at the position after it; on failure the same error.
   */
  ghost predicate Agrees<T>(r: Result<T, Error>, spec: Result<Read<T>, Error>, after: nat)
  {
    match spec
    case Ok(rd) => r == Ok(rd.value) && after == rd.next
    case Err(e) => r == Err(e)
  }

  /** An immutable buffer and a read position that only moves forward. */
  class Cursor {
    const data: seq<byte>
    var pos: nat

    ghost predicate Valid()
      reads this
    {
      pos <= |data|
    }

    constructor (data: seq<byte>)
      ensures Valid() && this.data == data && pos == 0
    {
      this.data := data;
      pos := 0;
    }

    /** End of stream: nothing is left to read. */
    predicate Eof()
      reads this
    {
      pos >= |data|
    }

    /** The next `n` bytes; a short read leaves the cursor where it was. */
    method ReadBytes(n: nat) returns (r: Result<seq<byte>, Error>)
      requires Valid()
      modifies this`pos
      ensures Valid()
      ensures Agrees(r, BytesAt(data, old(pos), n), pos)
      ensures r.Ok? ==> pos == old(pos) + n && r.value == data[old(pos)..pos]
      ensures r.Err? ==> pos == old(pos) && |data| < pos + n
    {
      if pos + n <= |data| {
        r := Ok(data[pos..pos + n]);
        pos := pos + n;
      } else {
        r := Err(ShortRead(pos, n));
      }
    }

    /** The next big-endian 16-bit word (`word16bu`). */
    method ReadU16BE() returns (r: Result<nat, Error>)
      requires Valid()
      modifies this`pos
      ensures Valid()
      ensures Agrees(r, U16At(data, old(pos)), pos)
      ensures r.Ok? ==> pos == old(pos) + 2 && r.value == U16(data[old(pos)..pos])
      ensures r.Err? ==> pos == old(pos)
    {
      var b :- ReadBytes(2);
      r := Ok(U16(b));
    }

    /** The next big-endian 32-bit word (`word32bu`). */
    method ReadU32BE() returns (r: Result<nat, Error>)
      requires Valid()
      modifies this`pos
      ensures Valid()
      ensures Agrees(r, U32At(data, old(pos)), pos)
      ensures r.Ok? ==> pos == old(pos) + 4 && r.value == U32(data[old(pos)..pos])
      ensures r.Err? ==> pos == old(pos)
    {
      var b :- ReadBytes(4);
      r := Ok(U32(b));
    }
  }
}
