/**
 The Adobe Swatch Exchange (ASE) block decoder of `ase2json.js`.

 A file is a 12-byte header (the signature "ASEF", a version as two 16-bit
 words, a declared block count as a 32-bit word) followed by blocks until
 the end of the stream. Every block starts with a 2-byte type tag and a
 32-bit declared length; the payload that follows is consumed field by
 field according to the tag, and the declared length is never used.

 `BlockAt`, `BlocksFrom` and `DocumentOf` specify the decoder as functions of
 the input bytes; `ReadBlock` and `Parse` are the decoder itself, walking a
 `Cursor`, and are proved to compute exactly those functions.
 */
module Ase {
  import opened Wrappers
  import opened BigEndian
  import opened ByteCursor

  /** "ASEF" */
  const Signature: seq<byte> := [0x41, 0x53, 0x45, 0x46]

  const GroupStartTag: seq<byte> := [0xC0, 0x01]
  const GroupEndTag: seq<byte> := [0xC0, 0x02]
  const ColorEntryTag: seq<byte> := [0x00, 0x01]

  /** "CMYK" */
  const Cmyk: seq<byte> := [0x43, 0x4D, 0x59, 0x4B]
  /** "RGB", three bytes: the source compares the 4-byte model field with this 3-character text. */
  const Rgb: seq<byte> := [0x52, 0x47, 0x42]

  const GlobalCode: nat := 0
  const SpotCode: nat := 1
  const NormalCode: nat := 2

  datatype ColorType = Global | Spot | Normal | Unknown

  /** The channel words a colour entry carries, as raw unsigned 32-bit words. */
  datatype Channels =
    | CmykWords(cyan: nat, magenta: nat, yellow: nat, black: nat)
    | RgbWords(red: nat, green: nat, blue: nat)
    | NoWords

  /** One decoded block. Names and model tags are kept as raw bytes. */
  datatype Block =
    | GroupStart(declaredLength: nat, name: seq<byte>)
    | GroupEnd(declaredLength: nat)
    | ColorEntry(declaredLength: nat, name: seq<byte>, model: seq<byte>,
                 channels: Channels, typeCode: nat, colorType: ColorType)
    | Unrecognised(tag: seq<byte>, declaredLength: nat)

  datatype Header = Header(signature: seq<byte>, versionMajor: nat, versionMinor: nat, blockCount: nat)

  datatype Document = Document(header: Header, blocks: seq<Block>)

  /** The label the source prints for a colour-type word. */
  function ColorTypeOf(code: nat): ColorType
  {
    if code == GlobalCode then Global
    else if code == SpotCode then Spot
    else if code == NormalCode then Normal
    else Unknown
  }

  /** The colour-type word a label stands for; `Unknown` stands for many. */
  function CodeOf(t: ColorType): Option<nat>
  {
    match t
    case Global => Some(GlobalCode)
    case Spot => Some(SpotCode)
    case Normal => Some(NormalCode)
    case Unknown => None
  }

  /**
   The channel words that follow a colour entry's model tag at `p`: four
   32-bit words (16 bytes) for "CMYK", three (12 bytes) for a model equal to
   "RGB", and nothing for any other model.
   */
  function ChannelsAt(data: seq<byte>, p: nat, model: seq<byte>): (r: Result<Read<Channels>, Error>)
    ensures var width := if model == Cmyk then 16 else if model == Rgb then 12 else 0;
      (r.Ok? <==> width == 0 || p + width <= |data|) && (r.Ok? ==> r.value.next == p + width)
  {
    if model == Cmyk then
      var c :- U32At(data, p);
      var m :- U32At(data, c.next);
      var y :- U32At(data, m.next);
      var k :- U32At(data, y.next);
      Ok(Read(CmykWords(c.value, m.value, y.value, k.value), k.next))
    else if model == Rgb then
      var r :- U32At(data, p);
      var g :- U32At(data, r.next);
      var b :- U32At(data, g.next);
      Ok(Read(RgbWords(r.value, g.value, b.value), b.next))
    else
      Ok(Read(NoWords, p))
  }

  /** A name field at `p`: a 16-bit count of 16-bit units, then twice that many bytes. */
  function NameAt(data: seq<byte>, p: nat): (r: Result<Read<seq<byte>>, Error>)
    ensures r.Ok? ==> p + 2 <= |data| && |r.value.value| == 2 * U16(data[p..p + 2])
    ensures r.Ok? ==> r.value.next == p + 2 + |r.value.value| <= |data|
  {
    var n :- U16At(data, p);
    BytesAt(data, n.next, 2 * n.value)
  }

  /** The payload of a colour entry at `p`, given the block's declared length. */
  function ColorEntryAt(data: seq<byte>, p: nat, length: nat): (r: Result<Read<Block>, Error>)
    ensures r.Ok? ==> p + 8 <= r.value.next <= |data|
  {
    var name :- NameAt(data, p);
    var model :- BytesAt(data, name.next, 4);
    var channels :- ChannelsAt(data, model.next, model.value);
    var code :- U16At(data, channels.next);
    Ok(Read(ColorEntry(length, name.value, model.value, channels.value,
                       code.value, ColorTypeOf(code.value)), code.next))
  }

  /**
   The block at `p`. Every block that decodes takes at least its 6-byte
   tag-and-length header and never reaches past the end of the input.
   */
  function BlockAt(data: seq<byte>, p: nat): (r: Result<Read<Block>, Error>)
    ensures r.Ok? ==> p + 6 <= r.value.next <= |data|
  {
    var tag :- BytesAt(data, p, 2);
    var length :- U32At(data, tag.next);
    if tag.value == GroupStartTag then
      var name :- NameAt(data, length.next);
      Ok(Read(GroupStart(length.value, name.value), name.next))
    else if tag.value == GroupEndTag then
      Ok(Read(GroupEnd(length.value), length.next))
    else if tag.value == ColorEntryTag then
      ColorEntryAt(data, length.next, length.value)
    else
      Ok(Read(Unrecognised(tag.value, length.value), length.next))
  }

  /** The blocks from `p` to the end of the stream. */
  function BlocksFrom(data: seq<byte>, p: nat): Result<seq<Block>, Error>
    decreases |data| - p
  {
    if p >= |data| then Ok([])
    else
      var b :- BlockAt(data, p);
      var rest :- BlocksFrom(data, b.next);
      Ok([b.value] + rest)
  }

  /** The decoded file: header fields and every block up to the end of the stream. */
  function DocumentOf(data: seq<byte>): Result<Document, Error>
  {
    if |data| < 4 || data[..4] != Signature then Err(NotAdobeSwatches)
    else
      var version :- BytesAt(data, 4, 4);
      var count :- BytesAt(data, 8, 4);
      var blocks :- BlocksFrom(data, 12);
      Ok(Document(Header(data[..4], U16(version.value[..2]), U16(version.value[2..]),
                         U32(count.value)), blocks))
  }

  /** `bs` followed by the blocks of `r`, or the error of `r`. */
  function Prepend(bs: seq<Block>, r: Result<seq<Block>, Error>): Result<seq<Block>, Error>
  {
    match r
    case Ok(rest) => Ok(bs + rest)
    case Err(e) => Err(e)
  }

  lemma PrependTwice(a: seq<Block>, b: seq<Block>, r: Result<seq<Block>, Error>)
    ensures Prepend(a, Prepend(b, r)) == Prepend(a + b, r)
  {
    if r.Ok? {
      assert a + (b + r.value) == (a + b) + r.value;
    }
  }

  /**
   The label of a colour-type word, computed as the source does: start from
   `Unknown` and overwrite it for each known code in turn.
   */
  method ClassifyColorType(code: nat) returns (colorType: ColorType)
    ensures colorType == ColorTypeOf(code)
    ensures colorType != Unknown <==> code <= NormalCode
  {
    colorType := Unknown;
    if code == GlobalCode {
      colorType := Global;
    }
    if code == SpotCode {
      colorType := Spot;
    }
    if code == NormalCode {
      colorType := Normal;
    }
  }

  /**
   Reads the channel words that follow a colour entry's model tag. The source
   tests the model against "CMYK" and against "RGB" in turn; a model that is
   neither consumes nothing.
   */
  method ReadChannels(c: Cursor, model: seq<byte>) returns (r: Result<Channels, Error>)
    requires c.Valid()
    modifies c
    ensures c.Valid() && old(c.pos) <= c.pos
    ensures Agrees(r, ChannelsAt(c.data, old(c.pos), model), c.pos)
  {
    r := Ok(NoWords);
    if model == Cmyk {
      var cyan :- c.ReadU32BE();
      var magenta :- c.ReadU32BE();
      var yellow :- c.ReadU32BE();
      var black :- c.ReadU32BE();
      r := Ok(CmykWords(cyan, magenta, yellow, black));
    }
    if model == Rgb {
      var red :- c.ReadU32BE();
      var green :- c.ReadU32BE();
      var blue :- c.ReadU32BE();
      r := Ok(RgbWords(red, green, blue));
    }
  }

  /** Reads a name field: its 16-bit unit count, then twice that many bytes. */
  method ReadName(c: Cursor) returns (r: Result<seq<byte>, Error>)
    requires c.Valid()
    modifies c
    ensures c.Valid() && old(c.pos) <= c.pos
    ensures Agrees(r, NameAt(c.data, old(c.pos)), c.pos)
  {
    var nameLength :- c.ReadU16BE();
    r := c.ReadBytes(nameLength * 2);
  }

  /** Reads the payload of a colour entry: name, model tag, channel words, colour type. */
  method ReadColorEntry(c: Cursor, length: nat) returns (r: Result<Block, Error>)
    requires c.Valid()
    modifies c
    ensures c.Valid() && old(c.pos) <= c.pos
    ensures Agrees(r, ColorEntryAt(c.data, old(c.pos), length), c.pos)
  {
    var name :- ReadName(c);
    var model :- c.ReadBytes(4);
    var channels :- ReadChannels(c, model);
    var code :- c.ReadU16BE();
    var colorType := ClassifyColorType(code);
    r := Ok(ColorEntry(length, name, model, channels, code, colorType));
  }

  /**
   Reads one block at the cursor. The three tag constants are distinct, so at
   most one of the source's three tag tests holds; a tag that matches none of
   them leaves the cursor just after the block's 6-byte header.
   */
  method ReadBlock(c: Cursor) returns (r: Result<Block, Error>)
    requires c.Valid()
    modifies c
    ensures c.Valid() && old(c.pos) <= c.pos
    ensures Agrees(r, BlockAt(c.data, old(c.pos)), c.pos)
  {
    var tag :- c.ReadBytes(2);
    var length :- c.ReadU32BE();
    if tag == GroupStartTag {
      var name :- ReadName(c);
      r := Ok(GroupStart(length, name));
    } else if tag == GroupEndTag {
      r := Ok(GroupEnd(length));
    } else if tag == ColorEntryTag {
      r := ReadColorEntry(c, length);
    } else {
      r := Ok(Unrecognised(tag, length));
    }
  }

  /**
   Decodes a whole file: checks the signature, reads the header, then reads
   blocks until the end of the stream (not until the declared block count).
   */
  method Parse(data: seq<byte>) returns (r: Result<Document, Error>)
    ensures r == DocumentOf(data)
  {
    var c := new Cursor(data);
    var signature := c.ReadBytes(4);
    if signature.Err? || signature.value != Signature {
      return Err(NotAdobeSwatches);
    }
    var version :- c.ReadBytes(4);
    var count :- c.ReadBytes(4);
    var blocks: seq<Block> := [];
    assert Prepend(blocks, BlocksFrom(data, c.pos)) == BlocksFrom(data, 12) by {
      assert c.pos == 12;
      match BlocksFrom(data, 12)
      case Ok(rest) => assert blocks + rest == rest;
      case Err(_) =>
    }
    while !c.Eof()
      invariant c.Valid() && c.data == data
      invariant 12 <= c.pos
      invariant Prepend(blocks, BlocksFrom(data, c.pos)) == BlocksFrom(data, 12)
      decreases |data| - c.pos
    {
      ghost var p := c.pos;
      var b :- ReadBlock(c);
      assert BlocksFrom(data, p) == Prepend([b], BlocksFrom(data, c.pos));
      PrependTwice(blocks, [b], BlocksFrom(data, c.pos));
      blocks := blocks + [b];
    }
    assert BlocksFrom(data, c.pos) == Ok([]);
    assert blocks + [] == blocks;
    assert version == data[4..8] && count == data[8..12];
    r := Ok(Document(Header(signature.value, U16(version[..2]), U16(version[2..]), U32(count)), blocks));
  }
}
