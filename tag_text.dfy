/**
 How `ase2json.js` tells block tags apart as written: it turns the tag and
 each constant into text with `Buffer.prototype.toString()` and compares the
 texts. That decoding is UTF-8 with every byte that does not begin a valid
 sequence replaced by U+FFFD, so a tag can match a constant it is not equal
 to. The decoder of module `Ase` dispatches on the bytes themselves; this
 module states where the two agree and exhibits where they do not.
 */
module TagText {
  import opened Wrappers
  import opened BigEndian
  import opened ByteCursor
  import opened Ase
  import opened AseProperties

  /**
   Text equality of two 2-byte buffers, for a constant `c` whose second byte
   is ASCII. That byte decodes to itself and can come from no other byte, so
   the tag must end in the same byte; the tag's first byte then decodes on
   its own, to itself when it is ASCII and to U+FFFD when it is not.
   */
  predicate TextMatches(t: seq<byte>, c: seq<byte>)
    requires |t| == 2 && |c| == 2 && c[1] < 0x80
  {
    t[1] == c[1] && (t[0] == c[0] || (t[0] >= 0x80 && c[0] >= 0x80))
  }

  datatype TagKind = GroupStartKind | GroupEndKind | ColorEntryKind | OtherKind

  /** The branch the source's three text comparisons select for a tag. */
  function SourceTagKind(t: seq<byte>): TagKind
    requires |t| == 2
  {
    if TextMatches(t, GroupStartTag) then GroupStartKind
    else if TextMatches(t, GroupEndTag) then GroupEndKind
    else if TextMatches(t, ColorEntryTag) then ColorEntryKind
    else OtherKind
  }

  /** The branch a byte-for-byte comparison selects. */
  function ByteTagKind(t: seq<byte>): TagKind
  {
    if t == GroupStartTag then GroupStartKind
    else if t == GroupEndTag then GroupEndKind
    else if t == ColorEntryTag then ColorEntryKind
    else OtherKind
  }

  /** The kind of block the decoder produced. */
  function KindOf(b: Block): TagKind
  {
    match b
    case GroupStart(_, _) => GroupStartKind
    case GroupEnd(_) => GroupEndKind
    case ColorEntry(_, _, _, _, _, _) => ColorEntryKind
    case Unrecognised(_, _) => OtherKind
  }

  /**
   The source's three tests are exclusive, so testing them one after the
   other, as the source does, selects at most one branch.
   */
  lemma TextTestsExclusive(t: seq<byte>)
    requires |t| == 2
    ensures !(TextMatches(t, GroupStartTag) && TextMatches(t, GroupEndTag))
    ensures !(TextMatches(t, GroupStartTag) && TextMatches(t, ColorEntryTag))
    ensures !(TextMatches(t, GroupEndTag) && TextMatches(t, ColorEntryTag))
  {
  }

  /**
   As written, the tag 0x80 0x01 reads as a group start, although it is not
   the group-start tag; the decoder of module `Ase` reads it as an
   unrecognised block of 6 bytes.
   */
  lemma StrayTagReadsAsGroupStart(data: seq<byte>)
    requires 6 <= |data| && data[..2] == [0x80, 0x01]
    ensures data[..2] != GroupStartTag && SourceTagKind(data[..2]) == GroupStartKind
    ensures BlockAt(data, 0) == Ok(Read(Unrecognised(data[..2], U32(data[2..6])), 6))
  {
    assert data[0..2] == data[..2];
    UnrecognisedLayout(data, 0);
  }

  /**
   The decoder takes the branch whose tag equals the block's first two
   bytes, and that branch is the one the source takes too whenever the
   source's text test is not fooled: for every tag whose first byte is ASCII
   or is 0xC0, and for every tag the decoder recognises.
   */
  lemma ByteDispatch(data: seq<byte>, p: nat)
    requires BlockAt(data, p).Ok?
    ensures KindOf(BlockAt(data, p).value.value) == ByteTagKind(data[p..p + 2])
    ensures data[p] < 0x80 || data[p] == 0xC0 || ByteTagKind(data[p..p + 2]) != OtherKind ==>
      SourceTagKind(data[p..p + 2]) == ByteTagKind(data[p..p + 2])
  {
    var t := data[p..p + 2];
    if t == GroupStartTag {
      GroupStartLayout(data, p);
    } else if t == GroupEndTag {
      GroupEndLayout(data, p);
    } else if t == ColorEntryTag {
      ColorEntryLayout(data, p);
    } else {
      UnrecognisedLayout(data, p);
    }
  }
}
