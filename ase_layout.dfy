/**
 The byte layout of an ASE file, written as an encoder, and the proof that
 the decoder of module `Ase` and this encoder are inverse to each other:
 every well-formed document decodes from its encoding, and every input the
 decoder accepts is exactly the encoding of what it decodes to. The second
 direction says that the decoded blocks account for every byte from offset
 12 to the end of the stream, whatever the declared lengths and count say.
 */
module AseLayout {
  import opened Wrappers
  import opened BigEndian
  import opened ByteCursor
  import opened Ase
  import opened AseProperties

  /** A name field: an even number of bytes, at most 0xFFFF 16-bit units. */
  predicate NameFits(name: seq<byte>)
  {
    |name| % 2 == 0 && |name| / 2 < TwoTo16
  }

  /** The channel words a colour entry with this model tag carries. */
  predicate ChannelsFit(model: seq<byte>, ch: Channels)
  {
    match ch
    case CmykWords(c, m, y, k) =>
      model == Cmyk && c < TwoTo32 && m < TwoTo32 && y < TwoTo32 && k < TwoTo32
    case RgbWords(_, _, _) => false
    case NoWords => model != Cmyk && model != Rgb
  }

  /** The blocks the decoder can produce. */
  predicate WellFormedBlock(b: Block)
  {
    b.declaredLength < TwoTo32 &&
    match b
    case GroupStart(_, name) => NameFits(name)
    case GroupEnd(_) => true
    case ColorEntry(_, name, model, ch, code, t) =>
      NameFits(name) && |model| == 4 && ChannelsFit(model, ch) &&
      code < TwoTo16 && t == ColorTypeOf(code)
    case Unrecognised(tag, _) =>
      |tag| == 2 && tag != GroupStartTag && tag != GroupEndTag && tag != ColorEntryTag
  }

  predicate WellFormedBlocks(bs: seq<Block>)
  {
    bs == [] || (WellFormedBlock(bs[0]) && WellFormedBlocks(bs[1..]))
  }

  /** The headers the decoder can produce. */
  predicate WellFormedHeader(h: Header)
  {
    h.signature == Signature &&
    h.versionMajor < TwoTo16 && h.versionMinor < TwoTo16 && h.blockCount < TwoTo32
  }

  predicate WellFormedDocument(d: Document)
  {
    WellFormedHeader(d.header) && WellFormedBlocks(d.blocks)
  }

  function ChannelBytes(model: seq<byte>, ch: Channels): seq<byte>
    requires ChannelsFit(model, ch)
  {
    match ch
    case CmykWords(c, m, y, k) => U32Bytes(c) + U32Bytes(m) + U32Bytes(y) + U32Bytes(k)
    case NoWords => []
  }

  function EncodeBlock(b: Block): seq<byte>
    requires WellFormedBlock(b)
  {
    match b
    case GroupStart(length, name) =>
      GroupStartTag + U32Bytes(length) + U16Bytes(|name| / 2) + name
    case GroupEnd(length) =>
      GroupEndTag + U32Bytes(length)
    case ColorEntry(length, name, model, ch, code, _) =>
      ColorEntryTag + U32Bytes(length) + U16Bytes(|name| / 2) + name + model +
      ChannelBytes(model, ch) + U16Bytes(code)
    case Unrecognised(tag, length) =>
      tag + U32Bytes(length)
  }

  function EncodeBlocks(bs: seq<Block>): seq<byte>
    requires WellFormedBlocks(bs)
  {
    if bs == [] then [] else EncodeBlock(bs[0]) + EncodeBlocks(bs[1..])
  }

  function EncodeHeader(h: Header): seq<byte>
    requires WellFormedHeader(h)
  {
    Signature + U16Bytes(h.versionMajor) + U16Bytes(h.versionMinor) + U32Bytes(h.blockCount)
  }

  function EncodeDocument(d: Document): seq<byte>
    requires WellFormedDocument(d)
  {
    EncodeHeader(d.header) + EncodeBlocks(d.blocks)
  }

  /** `data` holds `x` at offset `p`. */
  predicate HoldsAt(data: seq<byte>, p: nat, x: seq<byte>)
  {
    p + |x| <= |data| && data[p..p + |x|] == x
  }

  lemma HoldsAtSplit(data: seq<byte>, p: nat, x: seq<byte>, y: seq<byte>)
    requires HoldsAt(data, p, x + y)
    ensures HoldsAt(data, p, x) && HoldsAt(data, p + |x|, y)
  {
    assert data[p..p + |x|] == (x + y)[..|x|] == x;
    assert data[p + |x|..p + |x| + |y|] == (x + y)[|x|..] == y;
  }

  /** Two adjacent slices make the slice that spans both. */
  lemma SliceJoin(data: seq<byte>, a: nat, b: nat, c: nat)
    requires a <= b <= c <= |data|
    ensures data[a..b] + data[b..c] == data[a..c]
  {
  }

  lemma U16Held(data: seq<byte>, p: nat, n: nat)
    requires n < TwoTo16 && HoldsAt(data, p, U16Bytes(n))
    ensures U16(data[p..p + 2]) == n
  {
    U16OfBytes(n);
  }

  lemma U32Held(data: seq<byte>, p: nat, n: nat)
    requires n < TwoTo32 && HoldsAt(data, p, U32Bytes(n))
    ensures U32(data[p..p + 4]) == n
  {
    U32OfBytes(n);
  }

  lemma ChannelsHeld(data: seq<byte>, p: nat, model: seq<byte>, ch: Channels)
    requires |model| == 4 && ChannelsFit(model, ch) && HoldsAt(data, p, ChannelBytes(model, ch))
    ensures ChannelWidth(model) == |ChannelBytes(model, ch)|
    ensures ChannelWords(data, p, model) == ch
  {
    match ch
    case CmykWords(c, m, y, k) =>
      HoldsAtSplit(data, p, U32Bytes(c) + U32Bytes(m) + U32Bytes(y), U32Bytes(k));
      HoldsAtSplit(data, p, U32Bytes(c) + U32Bytes(m), U32Bytes(y));
      HoldsAtSplit(data, p, U32Bytes(c), U32Bytes(m));
      U32Held(data, p, c);
      U32Held(data, p + 4, m);
      U32Held(data, p + 8, y);
      U32Held(data, p + 12, k);
    case NoWords =>
  }

  lemma DecodeEncodedGroupStart(data: seq<byte>, p: nat, b: Block)
    requires b.GroupStart? && WellFormedBlock(b) && HoldsAt(data, p, EncodeBlock(b))
    ensures BlockAt(data, p) == Ok(Read(b, p + |EncodeBlock(b)|))
  {
    var n := |b.name| / 2;
    HoldsAtSplit(data, p, GroupStartTag + U32Bytes(b.declaredLength) + U16Bytes(n), b.name);
    HoldsAtSplit(data, p, GroupStartTag + U32Bytes(b.declaredLength), U16Bytes(n));
    HoldsAtSplit(data, p, GroupStartTag, U32Bytes(b.declaredLength));
    U32Held(data, p + 2, b.declaredLength);
    U16Held(data, p + 6, n);
    GroupStartLayout(data, p);
  }

  /** The bytes of a colour entry after its 6-byte header. */
  function ColorPayload(b: Block): seq<byte>
    requires b.ColorEntry? && WellFormedBlock(b)
  {
    U16Bytes(|b.name| / 2) + b.name + b.model + ChannelBytes(b.model, b.channels) + U16Bytes(b.typeCode)
  }

  lemma NameHeld(data: seq<byte>, p: nat, name: seq<byte>)
    requires NameFits(name) && HoldsAt(data, p, U16Bytes(|name| / 2) + name)
    ensures NameAt(data, p) == Ok(Read(name, p + 2 + |name|))
  {
    HoldsAtSplit(data, p, U16Bytes(|name| / 2), name);
    U16Held(data, p, |name| / 2);
  }

  /**
   The fields of a colour-entry payload, each held at its own offset: the
   name field at `p`, the model tag at `q`, the channel words after it and
   the type code at `r`.
   */
  lemma PayloadFieldsHeld(data: seq<byte>, p: nat, q: nat, r: nat, b: Block)
    requires b.ColorEntry? && WellFormedBlock(b) && HoldsAt(data, p, ColorPayload(b))
    requires q == p + 2 + |b.name| && r == q + 4 + |ChannelBytes(b.model, b.channels)|
    ensures NameAt(data, p) == Ok(Read(b.name, q))
    ensures HoldsAt(data, q, b.model)
    ensures HoldsAt(data, q + 4, ChannelBytes(b.model, b.channels))
    ensures HoldsAt(data, r, U16Bytes(b.typeCode))
    ensures p + |ColorPayload(b)| == r + 2
  {
    var nb := U16Bytes(|b.name| / 2);
    var chb := ChannelBytes(b.model, b.channels);
    HoldsAtSplit(data, p, nb + b.name + b.model + chb, U16Bytes(b.typeCode));
    HoldsAtSplit(data, p, nb + b.name + b.model, chb);
    HoldsAtSplit(data, p, nb + b.name, b.model);
    NameHeld(data, p, b.name);
  }

  /** The model tag, channel words and type code held from `q` on decode to those of `b`. */
  lemma TailFieldsDecode(data: seq<byte>, q: nat, r: nat, b: Block)
    requires b.ColorEntry? && WellFormedBlock(b) && r == q + 4 + |ChannelBytes(b.model, b.channels)|
    requires HoldsAt(data, q, b.model)
    requires HoldsAt(data, q + 4, ChannelBytes(b.model, b.channels))
    requires HoldsAt(data, r, U16Bytes(b.typeCode))
    ensures BytesAt(data, q, 4) == Ok(Read(b.model, q + 4))
    ensures ChannelsAt(data, q + 4, b.model) == Ok(Read(b.channels, r))
    ensures U16At(data, r) == Ok(Read(b.typeCode, r + 2))
  {
    ChannelsHeld(data, q + 4, b.model, b.channels);
    ChannelsLayout(data, q + 4, b.model);
    U16Held(data, r, b.typeCode);
  }

  /** A colour entry decodes once each of its fields does, one after the other. */
  lemma ColorEntryOfFields(data: seq<byte>, p: nat, q: nat, r: nat, b: Block)
    requires b.ColorEntry? && b.colorType == ColorTypeOf(b.typeCode)
    requires NameAt(data, p) == Ok(Read(b.name, q))
    requires BytesAt(data, q, 4) == Ok(Read(b.model, q + 4))
    requires ChannelsAt(data, q + 4, b.model) == Ok(Read(b.channels, r))
    requires U16At(data, r) == Ok(Read(b.typeCode, r + 2))
    ensures ColorEntryAt(data, p, b.declaredLength) == Ok(Read(b, r + 2))
  {
  }

  lemma DecodeColorPayload(data: seq<byte>, p: nat, b: Block)
    requires b.ColorEntry? && WellFormedBlock(b) && HoldsAt(data, p, ColorPayload(b))
    ensures ColorEntryAt(data, p, b.declaredLength) == Ok(Read(b, p + |ColorPayload(b)|))
  {
    var q := p + 2 + |b.name|;
    var r := q + 4 + |ChannelBytes(b.model, b.channels)|;
    PayloadFieldsHeld(data, p, q, r, b);
    TailFieldsDecode(data, q, r, b);
    ColorEntryOfFields(data, p, q, r, b);
  }

  /** The 6-byte header of an encoded colour entry, and the payload after it. */
  lemma ColorEntryHeld(data: seq<byte>, p: nat, b: Block)
    requires b.ColorEntry? && WellFormedBlock(b) && HoldsAt(data, p, EncodeBlock(b))
    ensures p + 6 <= |data| && data[p..p + 2] == ColorEntryTag
    ensures U32(data[p + 2..p + 6]) == b.declaredLength
    ensures HoldsAt(data, p + 6, ColorPayload(b))
    ensures |EncodeBlock(b)| == 6 + |ColorPayload(b)|
  {
    EncodeColorEntryIs(b);
    HoldsAtSplit(data, p, ColorEntryTag + U32Bytes(b.declaredLength), ColorPayload(b));
    HoldsAtSplit(data, p, ColorEntryTag, U32Bytes(b.declaredLength));
    U32Held(data, p + 2, b.declaredLength);
  }

  lemma DecodeEncodedColorEntry(data: seq<byte>, p: nat, b: Block)
    requires b.ColorEntry? && WellFormedBlock(b) && HoldsAt(data, p, EncodeBlock(b))
    ensures BlockAt(data, p) == Ok(Read(b, p + |EncodeBlock(b)|))
  {
    ColorEntryHeld(data, p, b);
    ColorEntryDispatch(data, p);
    DecodeColorPayload(data, p + 6, b);
  }

  /** A colour entry whose header and payload stand at `p` is encoded by the bytes they span. */
  lemma JoinColorEntry(data: seq<byte>, p: nat, n: nat, b: Block)
    requires b.ColorEntry? && WellFormedBlock(b) && p + 6 <= n <= |data|
    requires data[p..p + 2] == ColorEntryTag && data[p + 2..p + 6] == U32Bytes(b.declaredLength)
    requires data[p + 6..n] == ColorPayload(b)
    ensures EncodeBlock(b) == data[p..n]
  {
    EncodeColorEntryIs(b);
    SliceJoin(data, p, p + 2, p + 6);
    SliceJoin(data, p, p + 6, n);
  }

  lemma EncodeDecodedColorEntry(data: seq<byte>, p: nat)
    requires p + 6 <= |data| && data[p..p + 2] == ColorEntryTag && BlockAt(data, p).Ok?
    ensures WellFormedBlock(BlockAt(data, p).value.value)
    ensures EncodeBlock(BlockAt(data, p).value.value) == data[p..BlockAt(data, p).value.next]
  {
    var lb := data[p + 2..p + 6];
    BytesOfU32(lb);
    ColorEntryDispatch(data, p);
    var rd := ColorEntryAt(data, p + 6, U32(lb)).value;
    EncodeColorPayload(data, p + 6, U32(lb));
    JoinColorEntry(data, p, rd.next, rd.value);
  }

  /** A well-formed block decodes from its encoding, wherever it stands in the input. */
  lemma DecodeEncodedBlock(data: seq<byte>, p: nat, b: Block)
    requires WellFormedBlock(b) && HoldsAt(data, p, EncodeBlock(b))
    ensures BlockAt(data, p) == Ok(Read(b, p + |EncodeBlock(b)|))
  {
    match b
    case GroupStart(_, _) =>
      DecodeEncodedGroupStart(data, p, b);
    case GroupEnd(length) =>
      HoldsAtSplit(data, p, GroupEndTag, U32Bytes(length));
      U32Held(data, p + 2, length);
      GroupEndLayout(data, p);
    case ColorEntry(_, _, _, _, _, _) =>
      DecodeEncodedColorEntry(data, p, b);
    case Unrecognised(tag, length) =>
      HoldsAtSplit(data, p, tag, U32Bytes(length));
      U32Held(data, p + 2, length);
      UnrecognisedLayout(data, p);
  }

  /** The channel words the decoder reads are encoded by exactly the bytes they were read from. */
  lemma EncodeChannelWords(data: seq<byte>, p: nat, model: seq<byte>)
    requires |model| == 4 && p + ChannelWidth(model) <= |data|
    ensures ChannelsFit(model, ChannelWords(data, p, model))
    ensures ChannelBytes(model, ChannelWords(data, p, model)) == data[p..p + ChannelWidth(model)]
  {
    if model == Cmyk {
      BytesOfU32(data[p..p + 4]);
      BytesOfU32(data[p + 4..p + 8]);
      BytesOfU32(data[p + 8..p + 12]);
      BytesOfU32(data[p + 12..p + 16]);
      assert data[p..p + 16] ==
        data[p..p + 4] + data[p + 4..p + 8] + data[p + 8..p + 12] + data[p + 12..p + 16];
    }
  }

  /** The five fields of a colour-entry payload, as slices, make the whole payload. */
  lemma PayloadSlices(data: seq<byte>, p: nat, q: nat, r: nat)
    requires p + 2 <= q && q + 4 <= r && r + 2 <= |data|
    ensures data[p..r + 2] == data[p..p + 2] + data[p + 2..q] + data[q..q + 4] + data[q + 4..r] + data[r..r + 2]
  {
    SliceJoin(data, p, p + 2, q);
    SliceJoin(data, p, q, q + 4);
    SliceJoin(data, p, q + 4, r);
    SliceJoin(data, p, r, r + 2);
  }

  lemma PayloadWellFormed(data: seq<byte>, p: nat, length: nat)
    requires length < TwoTo32 && PayloadFits(data, p)
    ensures WellFormedBlock(PayloadBlock(data, p, length))
    ensures U16Bytes(|PayloadBlock(data, p, length).name| / 2) == data[p..p + 2]
  {
    var q := NameEnd(data, p);
    var r := q + 4 + ChannelWidth(data[q..q + 4]);
    BytesOfU16(data[p..p + 2]);
    BytesOfU16(data[r..r + 2]);
    EncodeChannelWords(data, q + 4, data[q..q + 4]);
  }

  lemma PayloadBytes(data: seq<byte>, p: nat, length: nat)
    requires length < TwoTo32 && PayloadFits(data, p)
    ensures WellFormedBlock(PayloadBlock(data, p, length))
    ensures ColorPayload(PayloadBlock(data, p, length)) == data[p..PayloadEnd(data, p)]
  {
    var q := NameEnd(data, p);
    var model := data[q..q + 4];
    var r := q + 4 + ChannelWidth(model);
    PayloadWellFormed(data, p, length);
    BytesOfU16(data[r..r + 2]);
    EncodeChannelWords(data, q + 4, model);
    PayloadSlices(data, p, q, r);
  }

  lemma EncodeColorPayload(data: seq<byte>, p: nat, length: nat)
    requires length < TwoTo32 && ColorEntryAt(data, p, length).Ok?
    ensures ColorEntryAt(data, p, length).value.value.declaredLength == length
    ensures WellFormedBlock(ColorEntryAt(data, p, length).value.value)
    ensures ColorPayload(ColorEntryAt(data, p, length).value.value) == data[p..ColorEntryAt(data, p, length).value.next]
  {
    ColorEntryAtLayout(data, p, length);
    PayloadBytes(data, p, length);
  }

  lemma EncodeColorEntryIs(b: Block)
    requires b.ColorEntry? && WellFormedBlock(b)
    ensures EncodeBlock(b) == ColorEntryTag + U32Bytes(b.declaredLength) + ColorPayload(b)
  {
  }

  /** Whatever block the decoder reads is well formed and is encoded by exactly the bytes it consumed. */
  lemma EncodeDecodedBlock(data: seq<byte>, p: nat)
    requires BlockAt(data, p).Ok?
    ensures WellFormedBlock(BlockAt(data, p).value.value)
    ensures EncodeBlock(BlockAt(data, p).value.value) == data[p..BlockAt(data, p).value.next]
  {
    var tag := data[p..p + 2];
    var lb := data[p + 2..p + 6];
    BytesOfU32(lb);
    if tag == GroupStartTag {
      GroupStartLayout(data, p);
      var nb := data[p + 6..p + 8];
      BytesOfU16(nb);
      var q := NameEnd(data, p + 6);
      assert data[p..q] == tag + lb + nb + data[p + 8..q];
    } else if tag == GroupEndTag {
      GroupEndLayout(data, p);
      assert data[p..p + 6] == tag + lb;
    } else if tag == ColorEntryTag {
      EncodeDecodedColorEntry(data, p);
    } else {
      UnrecognisedLayout(data, p);
      assert data[p..p + 6] == tag + lb;
    }
  }

  lemma SuffixSplit(data: seq<byte>, p: nat, e: seq<byte>, rest: seq<byte>)
    requires p <= |data| && data[p..] == e + rest
    ensures HoldsAt(data, p, e) && data[p + |e|..] == rest
  {
    assert data[p..p + |e|] == (e + rest)[..|e|];
    assert data[p + |e|..] == (e + rest)[|e|..];
  }

  /** The encoding of a non-empty block list is its first block, then the encoding of the others. */
  lemma EncodedFirst(data: seq<byte>, p: nat, bs: seq<Block>)
    requires bs != [] && WellFormedBlocks(bs) && p <= |data| && data[p..] == EncodeBlocks(bs)
    ensures WellFormedBlock(bs[0]) && WellFormedBlocks(bs[1..])
    ensures HoldsAt(data, p, EncodeBlock(bs[0]))
    ensures p + |EncodeBlock(bs[0])| <= |data| && data[p + |EncodeBlock(bs[0])|..] == EncodeBlocks(bs[1..])
  {
    SuffixSplit(data, p, EncodeBlock(bs[0]), EncodeBlocks(bs[1..]));
  }

  /** A well-formed block encoded at `p` comes first in whatever the decoder reads from `p`. */
  lemma DecodeEncodedBlockThen(data: seq<byte>, p: nat, b: Block)
    requires WellFormedBlock(b) && HoldsAt(data, p, EncodeBlock(b))
    ensures var after := BlocksFrom(data, p + |EncodeBlock(b)|);
      BlocksFrom(data, p) == if after.Ok? then Ok([b] + after.value) else after
  {
    DecodeEncodedBlock(data, p, b);
    BlocksFromAfter(data, p, b, p + |EncodeBlock(b)|);
  }

  /** The encodings of `bs` stand one after the other in `data` from `p` to the end. */
  predicate LaidOut(data: seq<byte>, p: nat, bs: seq<Block>)
    decreases bs
  {
    if bs == [] then p == |data|
    else
      WellFormedBlock(bs[0]) && HoldsAt(data, p, EncodeBlock(bs[0])) &&
      LaidOut(data, p + |EncodeBlock(bs[0])|, bs[1..])
  }

  lemma {:induction false} LaidOutEncoded(data: seq<byte>, p: nat, bs: seq<Block>)
    requires WellFormedBlocks(bs) && p <= |data| && data[p..] == EncodeBlocks(bs)
    ensures LaidOut(data, p, bs)
    decreases bs
  {
    if bs != [] {
      EncodedFirst(data, p, bs);
      LaidOutEncoded(data, p + |EncodeBlock(bs[0])|, bs[1..]);
    }
  }

  lemma {:induction false} DecodeLaidOut(data: seq<byte>, p: nat, bs: seq<Block>)
    requires LaidOut(data, p, bs)
    ensures BlocksFrom(data, p) == Ok(bs)
    decreases bs
  {
    if bs != [] {
      DecodeEncodedBlockThen(data, p, bs[0]);
      DecodeLaidOut(data, p + |EncodeBlock(bs[0])|, bs[1..]);
      BlocksFromJoin(data, p, p + |EncodeBlock(bs[0])|, bs);
    }
  }

  /** Well-formed blocks laid end to end decode back to the same blocks. */
  lemma DecodeEncodedBlocks(data: seq<byte>, p: nat, bs: seq<Block>)
    requires WellFormedBlocks(bs) && p <= |data| && data[p..] == EncodeBlocks(bs)
    ensures BlocksFrom(data, p) == Ok(bs)
  {
    LaidOutEncoded(data, p, bs);
    DecodeLaidOut(data, p, bs);
  }

  /** A block encoded by `data[p..n]` and blocks encoded by `data[n..]` together encode `data[p..]`. */
  lemma EncodeBlocksCons(data: seq<byte>, p: nat, n: nat, b: Block, rest: seq<Block>)
    requires WellFormedBlock(b) && WellFormedBlocks(rest) && p <= n <= |data|
    requires EncodeBlock(b) == data[p..n] && EncodeBlocks(rest) == data[n..]
    ensures WellFormedBlocks([b] + rest) && EncodeBlocks([b] + rest) == data[p..]
  {
    var bs := [b] + rest;
    assert bs[0] == b && bs[1..] == rest;
    assert data[p..] == data[p..n] + data[n..];
  }

  /**
   The blocks the decoder reads from `p` are well formed and encode to exactly
   the bytes from `p` to the end: the loop stops at the end of the stream and
   leaves nothing behind.
   */
  lemma {:induction false} EncodeDecodedBlocks(data: seq<byte>, p: nat)
    requires p <= |data| && BlocksFrom(data, p).Ok?
    ensures WellFormedBlocks(BlocksFrom(data, p).value)
    ensures EncodeBlocks(BlocksFrom(data, p).value) == data[p..]
    decreases |data| - p
  {
    if p < |data| {
      BlocksFromStep(data, p);
      EncodeDecodedBlock(data, p);
      var rd := BlockAt(data, p).value;
      EncodeDecodedBlocks(data, rd.next);
      EncodeBlocksCons(data, p, rd.next, rd.value, BlocksFrom(data, rd.next).value);
    }
  }

  /** An encoded header at the start of `data` holds each of its fields at the decoder's offsets. */
  lemma HeaderHeld(data: seq<byte>, h: Header)
    requires WellFormedHeader(h) && HoldsAt(data, 0, EncodeHeader(h))
    ensures 12 <= |data| && data[..4] == Signature
    ensures U16(data[4..6]) == h.versionMajor && U16(data[6..8]) == h.versionMinor
    ensures U32(data[8..12]) == h.blockCount
  {
    var major := U16Bytes(h.versionMajor);
    var minor := U16Bytes(h.versionMinor);
    HoldsAtSplit(data, 0, Signature + major + minor, U32Bytes(h.blockCount));
    HoldsAtSplit(data, 0, Signature + major, minor);
    HoldsAtSplit(data, 0, Signature, major);
    U16Held(data, 4, h.versionMajor);
    U16Held(data, 6, h.versionMinor);
    U32Held(data, 8, h.blockCount);
  }

  /** The header the decoder reads is well formed and is encoded by exactly the first 12 bytes. */
  lemma HeaderBytes(data: seq<byte>)
    requires 12 <= |data| && data[..4] == Signature
    ensures WellFormedHeader(HeaderAt(data)) && EncodeHeader(HeaderAt(data)) == data[..12]
  {
    BytesOfU16(data[4..6]);
    BytesOfU16(data[6..8]);
    BytesOfU32(data[8..12]);
    assert data[..12] == data[..4] + data[4..6] + data[6..8] + data[8..12];
  }

  /** A well-formed document decodes from its encoding. */
  lemma DecodeEncodedDocument(d: Document)
    requires WellFormedDocument(d)
    ensures DocumentOf(EncodeDocument(d)) == Ok(d)
  {
    var data := EncodeDocument(d);
    assert data[0..] == data;
    SuffixSplit(data, 0, EncodeHeader(d.header), EncodeBlocks(d.blocks));
    HeaderHeld(data, d.header);
    DecodeEncodedBlocks(data, 12, d.blocks);
    HeaderLayout(data);
  }

  lemma DecodedDocument(data: seq<byte>)
    requires DocumentOf(data).Ok?
    ensures 12 <= |data| && data[..4] == Signature && BlocksFrom(data, 12).Ok?
    ensures DocumentOf(data).value == Document(HeaderAt(data), BlocksFrom(data, 12).value)
  {
    SignatureCheck(data);
    HeaderLayout(data);
  }

  lemma JoinDocument(d: Document, data: seq<byte>)
    requires WellFormedDocument(d) && 12 <= |data|
    requires EncodeHeader(d.header) == data[..12] && EncodeBlocks(d.blocks) == data[12..]
    ensures EncodeDocument(d) == data
  {
    assert data == data[..12] + data[12..];
  }

  /** Every input the decoder accepts is exactly the encoding of the document it yields. */
  lemma EncodeDecodedDocument(data: seq<byte>)
    requires DocumentOf(data).Ok?
    ensures WellFormedDocument(DocumentOf(data).value)
    ensures EncodeDocument(DocumentOf(data).value) == data
  {
    DecodedDocument(data);
    HeaderBytes(data);
    EncodeDecodedBlocks(data, 12);
    JoinDocument(DocumentOf(data).value, data);
  }
}
