/**
 What the decoder of module `Ase` does, block kind by block kind, stated in
 terms of byte offsets: how many bytes each block consumes, where each
 field comes from, which fields are read and never used (the declared block
 length and the declared block count), and how the header is checked.
 */
module AseProperties {
  import opened Wrappers
  import opened BigEndian
  import opened ByteCursor
  import opened Ase

  /** Bytes of channel words that follow a model tag: four words for "CMYK", none otherwise. */
  function ChannelWidth(model: seq<byte>): nat
  {
    if model == Cmyk then 16 else 0
  }

  /** The channel words at `p` for a 4-byte model tag, read as raw big-endian words. */
  function ChannelWords(data: seq<byte>, p: nat, model: seq<byte>): Channels
    requires p + ChannelWidth(model) <= |data|
  {
    if model == Cmyk then
      CmykWords(U32(data[p..p + 4]), U32(data[p + 4..p + 8]),
                U32(data[p + 8..p + 12]), U32(data[p + 12..p + 16]))
    else NoWords
  }

  /** The offset just after a name field at `p` whose 16-bit unit count is in bounds. */
  function NameEnd(data: seq<byte>, p: nat): nat
    requires p + 2 <= |data|
  {
    p + 2 + 2 * U16(data[p..p + 2])
  }

  /** A name field at `p` is a 16-bit unit count n followed by exactly 2n bytes. */
  lemma NameLayout(data: seq<byte>, p: nat)
    requires p + 2 <= |data|
    ensures NameAt(data, p).Ok? <==> NameEnd(data, p) <= |data|
    ensures NameAt(data, p).Ok? ==>
      NameAt(data, p).value == Read(data[p + 2..NameEnd(data, p)], NameEnd(data, p))
  {
  }

  /**
   A 4-byte model tag is followed by four words exactly when it is "CMYK";
   the "RGB" test never holds for it, so any other tag, "RGB " included,
   is followed by no channel words at all.
   */
  lemma ChannelsLayout(data: seq<byte>, p: nat, model: seq<byte>)
    requires |model| == 4 && p <= |data|
    ensures ChannelsAt(data, p, model).Ok? <==> p + ChannelWidth(model) <= |data|
    ensures ChannelsAt(data, p, model).Ok? ==>
      ChannelsAt(data, p, model).value == Read(ChannelWords(data, p, model), p + ChannelWidth(model))
  {
    assert model != Rgb;
    if model == Cmyk {
      if p + 16 <= |data| {
        assert U32At(data, p) == Ok(Read(U32(data[p..p + 4]), p + 4));
        assert U32At(data, p + 4) == Ok(Read(U32(data[p + 4..p + 8]), p + 8));
        assert U32At(data, p + 8) == Ok(Read(U32(data[p + 8..p + 12]), p + 12));
        assert U32At(data, p + 12) == Ok(Read(U32(data[p + 12..p + 16]), p + 16));
      } else if p + 4 > |data| {
        assert U32At(data, p).Err?;
      } else if p + 8 > |data| {
        assert U32At(data, p + 4).Err?;
      } else if p + 12 > |data| {
        assert U32At(data, p + 8).Err?;
      } else {
        assert U32At(data, p + 12).Err?;
      }
    }
  }

  /** A block whose 6-byte tag-and-length header is cut short is a short read. */
  lemma ShortBlockHeader(data: seq<byte>, p: nat)
    requires p < |data| < p + 6
    ensures BlockAt(data, p).Err? && BlockAt(data, p).error.ShortRead?
  {
  }

  /** A group start consumes its 6-byte header, a 2-byte unit count n and 2n name bytes. */
  lemma GroupStartLayout(data: seq<byte>, p: nat)
    requires p + 6 <= |data| && data[p..p + 2] == GroupStartTag
    ensures BlockAt(data, p).Ok? <==> p + 8 <= |data| && NameEnd(data, p + 6) <= |data|
    ensures BlockAt(data, p).Ok? ==>
      var q := NameEnd(data, p + 6);
      BlockAt(data, p).value == Read(GroupStart(U32(data[p + 2..p + 6]), data[p + 8..q]), q)
  {
    if p + 8 <= |data| {
      NameLayout(data, p + 6);
    }
  }

  /** A group end consumes its 6-byte header and nothing else. */
  lemma GroupEndLayout(data: seq<byte>, p: nat)
    requires p + 6 <= |data| && data[p..p + 2] == GroupEndTag
    ensures BlockAt(data, p) == Ok(Read(GroupEnd(U32(data[p + 2..p + 6])), p + 6))
  {
  }

  /**
   A tag that is none of the three block tags consumes only the 6-byte
   header; the next block is read from the byte after it.
   */
  lemma UnrecognisedLayout(data: seq<byte>, p: nat)
    requires p + 6 <= |data|
    requires data[p..p + 2] !in {GroupStartTag, GroupEndTag, ColorEntryTag}
    ensures BlockAt(data, p) == Ok(Read(Unrecognised(data[p..p + 2], U32(data[p + 2..p + 6])), p + 6))
  {
  }

  /** The bytes a colour-entry payload at `p` needs are all present. */
  predicate PayloadFits(data: seq<byte>, p: nat)
  {
    p + 2 <= |data| && NameEnd(data, p) + 4 <= |data| &&
    var q := NameEnd(data, p);
    q + 4 + ChannelWidth(data[q..q + 4]) + 2 <= |data|
  }

  function PayloadEnd(data: seq<byte>, p: nat): nat
    requires PayloadFits(data, p)
  {
    var q := NameEnd(data, p);
    q + 4 + ChannelWidth(data[q..q + 4]) + 2
  }

  /** The colour entry whose payload fields are read from the bytes at `p`. */
  function PayloadBlock(data: seq<byte>, p: nat, length: nat): Block
    requires PayloadFits(data, p)
  {
    var q := NameEnd(data, p);
    var model := data[q..q + 4];
    var r := q + 4 + ChannelWidth(model);
    var code := U16(data[r..r + 2]);
    ColorEntry(length, data[p + 2..q], model, ChannelWords(data, q + 4, model), code, ColorTypeOf(code))
  }

  /** The payload of a colour entry decodes exactly when its bytes are all present, to the fields read from them. */
  lemma ColorEntryAtLayout(data: seq<byte>, p: nat, length: nat)
    ensures ColorEntryAt(data, p, length).Ok? <==> PayloadFits(data, p)
    ensures PayloadFits(data, p) ==>
      ColorEntryAt(data, p, length).value == Read(PayloadBlock(data, p, length), PayloadEnd(data, p))
  {
    if p + 2 <= |data| {
      NameLayout(data, p);
      var q := NameEnd(data, p);
      if q + 4 <= |data| {
        ChannelsLayout(data, q + 4, data[q..q + 4]);
      }
    }
  }

  /**
   A colour entry consumes its 6-byte header, a 2-byte unit count n, 2n name
   bytes, a 4-byte model tag, 16 bytes of channel words only when the tag is
   "CMYK", and a 2-byte colour type, which gives its label.
   */
  lemma ColorEntryLayout(data: seq<byte>, p: nat)
    requires p + 6 <= |data| && data[p..p + 2] == ColorEntryTag
    ensures BlockAt(data, p).Ok? <==> PayloadFits(data, p + 6)
    ensures BlockAt(data, p).Ok? ==>
      var q := NameEnd(data, p + 6);
      var model := data[q..q + 4];
      var w := ChannelWidth(model);
      var code := U16(data[q + 4 + w..q + 6 + w]);
      BlockAt(data, p).value ==
        Read(ColorEntry(U32(data[p + 2..p + 6]), data[p + 8..q], model,
                        ChannelWords(data, q + 4, model), code, ColorTypeOf(code)),
             q + 6 + w)
  {
    ColorEntryDispatch(data, p);
    ColorEntryAtLayout(data, p + 6, U32(data[p + 2..p + 6]));
  }

  /** No decoded colour entry carries RGB channel words; exactly the "CMYK" ones carry four. */
  lemma RgbBranchNeverTaken(data: seq<byte>, p: nat)
    requires BlockAt(data, p).Ok? && BlockAt(data, p).value.value.ColorEntry?
    ensures !BlockAt(data, p).value.value.channels.RgbWords?
    ensures BlockAt(data, p).value.value.channels.CmykWords? <==> BlockAt(data, p).value.value.model == Cmyk
  {
    ColorEntryLayout(data, p);
  }

  /** Two inputs of the same length that agree from offset `p` on. */
  predicate SameFrom(data: seq<byte>, other: seq<byte>, p: nat)
  {
    |data| == |other| && forall i :: p <= i < |data| ==> data[i] == other[i]
  }

  lemma BytesAtFrame(data: seq<byte>, other: seq<byte>, p: nat, q: nat, n: nat)
    requires SameFrom(data, other, p) && p <= q
    ensures BytesAt(data, q, n) == BytesAt(other, q, n)
  {
    if q + n <= |data| {
      assert data[q..q + n] == other[q..q + n];
    }
  }

  lemma NameAtFrame(data: seq<byte>, other: seq<byte>, p: nat, q: nat)
    requires SameFrom(data, other, p) && p <= q
    ensures NameAt(data, q) == NameAt(other, q)
  {
    BytesAtFrame(data, other, p, q, 2);
    if q + 2 <= |data| {
      BytesAtFrame(data, other, p, q + 2, 2 * U16(data[q..q + 2]));
    }
  }

  lemma ChannelsAtFrame(data: seq<byte>, other: seq<byte>, p: nat, q: nat, model: seq<byte>)
    requires SameFrom(data, other, p) && p <= q
    ensures ChannelsAt(data, q, model) == ChannelsAt(other, q, model)
  {
    BytesAtFrame(data, other, p, q, 4);
    BytesAtFrame(data, other, p, q + 4, 4);
    BytesAtFrame(data, other, p, q + 8, 4);
    BytesAtFrame(data, other, p, q + 12, 4);
  }

  /**
   A colour entry's payload depends only on the bytes from the payload on;
   the declared length it is given is carried into the block and nothing else.
   */
  lemma ColorEntryAtFrame(data: seq<byte>, other: seq<byte>, p: nat, length: nat, length': nat)
    requires SameFrom(data, other, p)
    ensures ColorEntryAt(other, p, length') ==
      match ColorEntryAt(data, p, length)
      case Ok(rd) => Ok(Read(WithLength(rd.value, length'), rd.next))
      case Err(e) => Err(e)
  {
    NameAtFrame(data, other, p, p);
    var name := NameAt(data, p);
    if name.Ok? {
      var q := name.value.next;
      BytesAtFrame(data, other, p, q, 4);
      if q + 4 <= |data| {
        var model := data[q..q + 4];
        ChannelsAtFrame(data, other, p, q + 4, model);
        var ch := ChannelsAt(data, q + 4, model);
        if ch.Ok? {
          BytesAtFrame(data, other, p, ch.value.next, 2);
        }
      }
    }
  }

  lemma ColorEntryDispatch(data: seq<byte>, p: nat)
    requires p + 6 <= |data| && data[p..p + 2] == ColorEntryTag
    ensures BlockAt(data, p) == ColorEntryAt(data, p + 6, U32(data[p + 2..p + 6]))
  {
  }

  lemma ColorEntryAtSame(data: seq<byte>, other: seq<byte>, p: nat, length: nat)
    requires SameFrom(data, other, p)
    ensures ColorEntryAt(other, p, length) == ColorEntryAt(data, p, length)
  {
    ColorEntryAtFrame(data, other, p, length, length);
    match ColorEntryAt(data, p, length)
    case Ok(rd) => assert WithLength(rd.value, length) == rd.value;
    case Err(_) =>
  }

  /** What the decoder makes of a block depends only on the bytes from the block on. */
  lemma BlockAtFrame(data: seq<byte>, other: seq<byte>, p: nat)
    requires SameFrom(data, other, p)
    ensures BlockAt(data, p) == BlockAt(other, p)
  {
    BytesAtFrame(data, other, p, p, 2);
    BytesAtFrame(data, other, p, p + 2, 4);
    NameAtFrame(data, other, p, p + 6);
    if p + 6 <= |data| {
      ColorEntryAtSame(data, other, p + 6, U32(data[p + 2..p + 6]));
    }
  }

  /** The blocks from `p` to the end depend only on the bytes from `p` on. */
  lemma {:induction false} BlocksFromFrame(data: seq<byte>, other: seq<byte>, p: nat)
    requires SameFrom(data, other, p)
    ensures BlocksFrom(data, p) == BlocksFrom(other, p)
    decreases |data| - p
  {
    if p < |data| {
      BlockAtFrame(data, other, p);
      if BlockAt(data, p).Ok? {
        BlocksFromFrame(data, other, BlockAt(data, p).value.next);
      }
    }
  }

  /** The block with its declared length replaced. */
  function WithLength(b: Block, length: nat): Block
  {
    match b
    case GroupStart(_, name) => GroupStart(length, name)
    case GroupEnd(_) => GroupEnd(length)
    case ColorEntry(_, name, model, ch, code, t) => ColorEntry(length, name, model, ch, code, t)
    case Unrecognised(tag, _) => Unrecognised(tag, length)
  }

  /**
   The declared block length is read and kept but steers nothing: whatever
   four bytes stand in it, the block decodes to the same fields and ends at
   the same offset.
   */
  lemma DeclaredLengthIgnored(data: seq<byte>, p: nat, length: seq<byte>)
    requires p + 6 <= |data| && |length| == 4
    ensures var other := data[..p + 2] + length + data[p + 6..];
      BlockAt(other, p).Ok? == BlockAt(data, p).Ok? &&
      (BlockAt(data, p).Ok? ==>
        BlockAt(other, p) == Ok(Read(WithLength(BlockAt(data, p).value.value, U32(length)),
                                     BlockAt(data, p).value.next)))
  {
    var other := data[..p + 2] + length + data[p + 6..];
    assert SameFrom(data, other, p + 6);
    assert other[p..p + 2] == data[p..p + 2];
    assert other[p + 2..p + 6] == length;
    var tag := data[p..p + 2];
    if tag == GroupStartTag {
      GroupStartLayout(data, p);
      GroupStartLayout(other, p);
      if p + 8 <= |data| {
        assert data[p + 6..p + 8] == other[p + 6..p + 8];
        var q := NameEnd(data, p + 6);
        if q <= |data| {
          assert data[p + 8..q] == other[p + 8..q];
        }
      }
    } else if tag == GroupEndTag {
      GroupEndLayout(data, p);
      GroupEndLayout(other, p);
    } else if tag == ColorEntryTag {
      ColorEntryDispatch(data, p);
      ColorEntryDispatch(other, p);
      ColorEntryAtFrame(data, other, p + 6, U32(data[p + 2..p + 6]), U32(length));
    } else {
      UnrecognisedLayout(data, p);
      UnrecognisedLayout(other, p);
    }
  }

  /** One turn of the block loop: the block at `p`, then the blocks after it. */
  lemma BlocksFromStep(data: seq<byte>, p: nat)
    requires p < |data|
    ensures BlocksFrom(data, p).Ok? <==>
      BlockAt(data, p).Ok? && BlocksFrom(data, BlockAt(data, p).value.next).Ok?
    ensures BlocksFrom(data, p).Ok? ==>
      BlocksFrom(data, p).value ==
        [BlockAt(data, p).value.value] + BlocksFrom(data, BlockAt(data, p).value.next).value
  {
  }

  /** A block at `p` followed by the blocks after it are the blocks from `p`. */
  /** Once the block at `p` is read, the blocks from `p` are it followed by the blocks after it. */
  lemma BlocksFromAfter(data: seq<byte>, p: nat, b: Block, q: nat)
    requires BlockAt(data, p) == Ok(Read(b, q))
    ensures var after := BlocksFrom(data, q);
      BlocksFrom(data, p) == if after.Ok? then Ok([b] + after.value) else after
  {
  }

  /** The blocks from `p` are a first block and then the blocks from `q`, which decode to the rest. */
  lemma BlocksFromJoin(data: seq<byte>, p: nat, q: nat, bs: seq<Block>)
    requires bs != []
    requires var after := BlocksFrom(data, q);
      BlocksFrom(data, p) == if after.Ok? then Ok([bs[0]] + after.value) else after
    requires BlocksFrom(data, q) == Ok(bs[1..])
    ensures BlocksFrom(data, p) == Ok(bs)
  {
    assert [bs[0]] + bs[1..] == bs;
  }

  /** Reading blocks only ever fails on a short read. */
  lemma {:induction false} OnlyShortReads(data: seq<byte>, p: nat)
    ensures BlocksFrom(data, p).Err? ==> BlocksFrom(data, p).error.ShortRead?
    decreases |data| - p
  {
    if p < |data| && BlockAt(data, p).Ok? {
      OnlyShortReads(data, BlockAt(data, p).value.next);
    }
  }

  /**
   The signature is the first four bytes and nothing else: the decoder
   rejects the input as "not an Adobe Swatches Export file" exactly when
   they are missing or are not "ASEF", and an accepted input carries "ASEF".
   */
  lemma SignatureCheck(data: seq<byte>)
    ensures DocumentOf(data) == Err(NotAdobeSwatches) <==> |data| < 4 || data[..4] != Signature
    ensures DocumentOf(data).Ok? ==> DocumentOf(data).value.header.signature == Signature
  {
    OnlyShortReads(data, 12);
  }

  /**
   After the signature, the header is 8 more bytes: the version words at
   offsets 4 and 6 and the block count at offset 8. The first block starts
   at offset 12.
   */
  function HeaderAt(data: seq<byte>): Header
    requires 12 <= |data|
  {
    Header(Signature, U16(data[4..6]), U16(data[6..8]), U32(data[8..12]))
  }

  lemma HeaderLayout(data: seq<byte>)
    requires 4 <= |data| && data[..4] == Signature
    ensures |data| < 12 ==> DocumentOf(data).Err? && DocumentOf(data).error.ShortRead?
    ensures 12 <= |data| ==>
      DocumentOf(data) ==
        match BlocksFrom(data, 12)
        case Ok(blocks) =>
          Ok(Document(HeaderAt(data), blocks))
        case Err(e) => Err(e)
  {
    if 12 <= |data| {
      assert data[4..8][..2] == data[4..6] && data[4..8][2..] == data[6..8];
    }
  }

  /**
   The declared block count is read but does not bound the loop: whatever
   four bytes stand in it, the same blocks are decoded.
   */
  lemma BlockCountIgnored(data: seq<byte>, count: seq<byte>)
    requires 12 <= |data| && |count| == 4
    ensures var other := data[..8] + count + data[12..];
      DocumentOf(other).Ok? == DocumentOf(data).Ok? &&
      (DocumentOf(data).Ok? ==>
        DocumentOf(other).value.blocks == DocumentOf(data).value.blocks &&
        DocumentOf(other).value.header.blockCount == U32(count))
  {
    var other := data[..8] + count + data[12..];
    assert other[..4] == data[..4];
    assert other[8..12] == count;
    assert SameFrom(data, other, 12);
    BlocksFromFrame(data, other, 12);
  }

  /** The colour-type mapping is total: 0, 1 and 2 have their own labels and every other word is Unknown. */
  lemma ColorTypeTotal(code: nat)
    ensures ColorTypeOf(code) == Global <==> code == GlobalCode
    ensures ColorTypeOf(code) == Spot <==> code == SpotCode
    ensures ColorTypeOf(code) == Normal <==> code == NormalCode
    ensures ColorTypeOf(code) == Unknown <==> code > NormalCode
  {
  }

  /** A label names a single code, except Unknown, which stands for every code above 2. */
  lemma ColorTypeCodes(code: nat, t: ColorType)
    ensures CodeOf(ColorTypeOf(code)) == if code <= NormalCode then Some(code) else None
    ensures CodeOf(t).Some? ==> ColorTypeOf(CodeOf(t).value) == t
  {
  }
}
