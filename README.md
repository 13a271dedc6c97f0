# ase2json: the Adobe Swatch Exchange block decoder, in Dafny

This project models the part of `ase2json.js` that decodes an Adobe Swatch
Exchange (ASE) file, and proves properties of that model.

An ASE file starts with a 12-byte header:

- the signature "ASEF";
- a version, as two big-endian 16-bit words;
- a declared block count, as a big-endian 32-bit word.

Blocks follow until the end of the stream. Each block has a 2-byte type tag
and a big-endian 32-bit declared length. The payload is then read field by
field according to the tag:

- **group start** (`C0 01`): a 16-bit unit count n, then 2n name bytes;
- **group end** (`C0 02`): nothing;
- **colour entry** (`00 01`): a name as above, a 4-byte model tag, four
  32-bit channel words if the tag is "CMYK", and a 16-bit colour type
  (0 Global, 1 Spot, 2 Normal, anything else Unknown);
- **any other tag**: nothing.

The declared length is never used to skip or bound a payload.

Files:

- `wrappers.dfy`: `Option` and `Result`.
- `big_endian.dfy`: the `byte` type, 16/32-bit big-endian decoding (`U16`, `U32`) and the inverse encodings.
- `byte_cursor.dfy`: the `Cursor` class. It gives the `binary` library's observable reads: `buffer`, `word16bu`, `word32bu` and `eof` over a buffer and a forward-only `pos`. The same reads are also written as functions of a buffer and an offset (`BytesAt`, `U16At`, `U32At`).
- `ase.dfy`: the decoder.
  - `BlockAt`, `BlocksFrom` and `DocumentOf` specify it as functions of the input bytes.
  - `ReadBlock` and `Parse` are the decoder itself: methods that walk a `Cursor` in a `while` loop until end of stream. They are proved to compute exactly those functions.
- `ase_properties.dfy`: what each block kind consumes, offset by offset; what the header check does; and that the declared length and declared block count steer nothing.
- `ase_layout.dfy`: an encoder for the same layout, and proofs that decoder and encoder are inverse in both directions. So the decoded blocks account for every byte from offset 12 to the end of the stream.
- `tag_text.dfy`: the source's text-based tag comparison, as written, against the byte comparison the model uses (see Findings).

Modelling choices that differ from the code as it runs:

- **Signature mismatch.** In the source, the mismatch handler at `ase2json.js:47-50` returns from the `tap` callback only. The `process.exit(1)` after the `return` never runs, so parsing goes on. The model stops with `Err(NotAdobeSwatches)` instead. An input shorter than 4 bytes counts as a mismatch, because the source compares whatever slice it got.
- **Short reads.** What the `binary` library does when it reads past the end is not part of this model. Any short read, in the header or in a block, is `Err(ShortRead(at, wanted))`.
- **End of the block loop.** In the source, `endBlocks()` at `ase2json.js:63-64` only flags the loop to stop. The rest of that last pass still reads past the end and matches no tag. The model stops at end of stream, so that final pass is not represented.
- **Tag comparisons.** The source compares tags as text (`toString()`). The model compares them as bytes against the constants at `ase2json.js:15-17`. For the colour-model tag the two agree, because "CMYK" is ASCII. For block tags they differ; see Findings.
- **The RGB test is reproduced.** It compares the 4-byte model field with the 3-character `'RGB'`, so it never holds. An "RGB " entry therefore consumes no channel words. The RGB branch is kept, and `RgbBranchNeverTaken` proves it is never taken.
- **Field formats.** Channels are raw unsigned 32-bit words, not floats. Names and model tags are kept as raw bytes.

## Model

| member | source | states |
|---|---|---|
| `BigEndian.U16OfBytes` | ase2json.js:143 | decoding the 2-byte big-endian encoding of a 16-bit value gives the value back |
| `BigEndian.BytesOfU16` | ase2json.js:143 | every 2-byte field is the encoding of its `word16bu` value, so decoding loses nothing |
| `BigEndian.U32OfBytes` | ase2json.js:121-124 | decoding the 4-byte big-endian encoding of a 32-bit value gives the value back |
| `BigEndian.BytesOfU32` | ase2json.js:121-124 | every 4-byte field is the encoding of its `word32bu` value |
| `ByteCursor.BytesAt` | ase2json.js:86 | reading n bytes at p succeeds exactly when p + n is within the buffer, and then yields n bytes and ends at p + n |
| `ByteCursor.U16At` | ase2json.js:83 | a 16-bit read succeeds exactly when 2 bytes remain, ends 2 bytes on and yields a value below 2^16 |
| `ByteCursor.U32At` | ase2json.js:74 | a 32-bit read succeeds exactly when 4 bytes remain, ends 4 bytes on and yields a value below 2^32 |
| `ByteCursor.Cursor.constructor` | ase2json.js:40 | parsing starts at offset 0 of the given buffer |
| `ByteCursor.Cursor.ReadBytes` | ase2json.js:86 | returns the next n bytes and advances by exactly n; a short read fails and leaves the cursor in place; the cursor never passes the end |
| `ByteCursor.Cursor.ReadU16BE` | ase2json.js:83 | returns the big-endian value of the next 2 bytes and advances by exactly 2, or fails without moving |
| `ByteCursor.Cursor.ReadU32BE` | ase2json.js:74 | returns the big-endian value of the next 4 bytes and advances by exactly 4, or fails without moving |
| `Ase.NameAt` | ase2json.js:102-106 | a name field read at p has exactly twice its 16-bit count in bytes and ends 2 + that many bytes after p |
| `Ase.ChannelsAt` | ase2json.js:117-140 | the channel words take 16 bytes for "CMYK", 12 for a model equal to "RGB" and none otherwise; the read fails exactly when those bytes are not all there |
| `Ase.ColorEntryAt` | ase2json.js:102-143 | a colour-entry payload takes at least its 2-byte count, 4-byte model and 2-byte type, within the buffer |
| `Ase.BlockAt` | ase2json.js:67-160 | every decoded block consumes at least its 6-byte tag-and-length header and never reaches past the end of the input |
| `Ase.ClassifyColorType` | ase2json.js:145-154 | the sequence of `if`s yields the label of the code, and the label is not Unknown exactly when the code is 0, 1 or 2 |
| `Ase.ReadChannels` | ase2json.js:117-140 | reads exactly the channel words `ChannelsAt` specifies (four for "CMYK", three when the model equals "RGB", none otherwise) and moves the cursor past them |
| `Ase.ReadName` | ase2json.js:102-106 | reads the 16-bit count and twice that many bytes, as `NameAt` specifies |
| `Ase.ReadColorEntry` | ase2json.js:99-158 | reads name, model, channels and colour type in order and builds the entry `ColorEntryAt` specifies |
| `Ase.ReadBlock` | ase2json.js:67-160 | reads the tag and declared length, then the payload for the tag; result and new cursor are those of `BlockAt`; the cursor never moves backward |
| `Ase.Parse` | ase2json.js:40-65 | the loop over `eof()` returns exactly `DocumentOf(data)`: the signature check, the header and every block up to the end of the stream |
| `AseProperties.NameLayout` | ase2json.js:102-106 | a name field at p succeeds exactly when p + 2 + 2n fits, and is then the 2n bytes after the count |
| `AseProperties.ChannelsLayout` | ase2json.js:117-140 | after a 4-byte model tag come 16 bytes of four raw words when it is "CMYK" and nothing otherwise, "RGB " included |
| `AseProperties.ShortBlockHeader` | ase2json.js:71-74 | a block whose 6-byte header is cut off by the end of the stream is a short read |
| `AseProperties.GroupStartLayout` | ase2json.js:80-90 | a group start consumes 6 + 2 + 2n bytes, n being the 16-bit count at offset 6, and its name is the 2n bytes after the count |
| `AseProperties.GroupEndLayout` | ase2json.js:93-97 | a group end consumes only its 6-byte header |
| `AseProperties.UnrecognisedLayout` | ase2json.js:71-100 | a tag matching none of the three constants consumes only the 6-byte header; the next block starts at the following byte |
| `AseProperties.ColorEntryAtLayout` | ase2json.js:102-143 | a colour-entry payload at p decodes exactly when its count, name, model tag, channel words and type word all fit, and then to the entry whose fields are read at their offsets, ending right after the type word |
| `AseProperties.ColorEntryLayout` | ase2json.js:100-158 | a colour entry consumes 6 + 2 + 2n + 4 + (16 only for "CMYK") + 2 bytes; every field comes from its offset and the label is that of the final 16-bit word; it fails exactly when those bytes are missing |
| `AseProperties.RgbBranchNeverTaken` | ase2json.js:130-140 | no decoded colour entry carries RGB words; exactly the "CMYK" entries carry four |
| `AseProperties.BlockAtFrame` | ase2json.js:67-160 | a block's decoding depends only on the bytes from the block on |
| `AseProperties.BlocksFromFrame` | ase2json.js:60-65 | the block loop from p depends only on the bytes from p on |
| `AseProperties.ColorEntryAtFrame` | ase2json.js:99-158 | a colour-entry payload depends only on the bytes from the payload on, and the declared length it is given is only carried into the block |
| `AseProperties.DeclaredLengthIgnored` | ase2json.js:73-74 | whatever 4 bytes stand in a block's declared length, the block decodes to the same fields and ends at the same offset |
| `AseProperties.BlocksFromStep` | ase2json.js:60-65 | one pass of the loop reads one block and continues right after it |
| `AseProperties.BlocksFromAfter` | ase2json.js:60-65 | once the block at p is read, the loop from p yields that block followed by whatever the loop yields from where the block ended, or that same failure |
| `AseProperties.OnlyShortReads` | ase2json.js:60-65 | the block loop fails only on a short read |
| `AseProperties.SignatureCheck` | ase2json.js:43-50 | the input is rejected as not an Adobe Swatches Export file exactly when its first 4 bytes are missing or differ from "ASEF"; an accepted input carries "ASEF" |
| `AseProperties.HeaderLayout` | ase2json.js:53-57 | after a good signature the header is 8 more bytes: version words at offsets 4 and 6, block count at offset 8, first block at offset 12; fewer than 12 bytes is a short read |
| `AseProperties.BlockCountIgnored` | ase2json.js:56-65 | whatever 4 bytes stand in the declared block count, the same blocks are decoded: the loop is bounded by end of stream |
| `AseProperties.ColorTypeTotal` | ase2json.js:145-154 | the mapping is total: Global exactly for 0, Spot exactly for 1, Normal exactly for 2, Unknown exactly for every larger word |
| `AseProperties.ColorTypeCodes` | ase2json.js:26-28 | the codes 0, 1, 2 and the labels Global, Spot, Normal are in one-to-one correspondence; Unknown stands for every other code |
| `AseLayout.DecodeEncodedBlock` | ase2json.js:67-160 | a well-formed block decodes from its encoding wherever it stands, consuming exactly its encoded size |
| `AseLayout.EncodeDecodedBlock` | ase2json.js:67-160 | every decoded block is well formed, and its encoding is exactly the bytes the decoder consumed |
| `AseLayout.DecodeEncodedBlockThen` | ase2json.js:60-65 | a well-formed block encoded at p comes first in what the loop reads from p, followed by whatever it reads after the block's encoded size |
| `AseLayout.DecodeEncodedBlocks` | ase2json.js:60-65 | well-formed blocks laid end to end decode back to the same blocks |
| `AseLayout.EncodeDecodedBlocks` | ase2json.js:60-65 | the blocks read from p encode to exactly the bytes from p to the end of the stream |
| `AseLayout.DecodeEncodedDocument` | ase2json.js:40-65 | a well-formed document decodes from its encoding |
| `AseLayout.EncodeDecodedDocument` | ase2json.js:40-65 | every accepted input is exactly the encoding of the document it decodes to |
| `TagText.TextTestsExclusive` | ase2json.js:80-100 | the source's three text comparisons never hold together, so its sequence of `if`s selects at most one branch |
| `TagText.StrayTagReadsAsGroupStart` | ase2json.js:80 | as written, the tag 0x80 0x01 passes the group-start test although it is not the group-start tag; the model reads it as a 6-byte unrecognised block |
| `TagText.ByteDispatch` | ase2json.js:80-100 | the model takes the branch whose tag equals the block's first two bytes; the source takes the same branch whenever the first byte is ASCII or 0xC0, and for every tag the model recognises |

## Left out

- Command-line handling and the undefined `exit()` call (`ase2json.js:8-12`): process plumbing.
- Reading the file with `fs.readFile` (`ase2json.js:31-36`): I/O. The decoder takes the bytes as a parameter.
- All console output (`ase2json.js:48, 88, 156, 166-169`): presentation only. The model returns the header and the ordered list of blocks instead.
- The `binary` library's internals. Only its observable reads are modelled: fixed-width slices, big-endian words and `eof`. A read past the end is a failure result.
- Ase.Parse: on a signature mismatch it returns an error, while the source prints a message and keeps parsing (the `process.exit(1)` after the `return` is unreachable).
- Ase.Parse: the last pass of the source's loop, which runs after `endBlocks()` and reads past the end, is not represented.
- Ase.BlockAt: it dispatches on tag bytes, not on the text comparison the source makes; `tag_text.dfy` models the text comparison and proves where the two differ.
- Conversion of channel words to floats and from CMYK to RGB: the source has only TODO comments for it (`ase2json.js:111-115`).
- Decoding names from UTF-16, and the LAB and Gray models: the source does neither; the constants at `ase2json.js:22-23` are never used.

## Findings

| source | as written | input that shows it | evidently intended | confidence | as-written member | corrected member |
|---|---|---|---|---|---|---|
| ase2json.js:80 | block tags are compared as UTF-8 text, where every byte from 0x80 up that does not start a valid sequence becomes U+FFFD | a block whose tag is 0x80 0x01 (or 0xFF 0x02) is handled as a group start (or group end) | only the exact tags C0 01 and C0 02 start and end groups | medium, not executed | `TagText.StrayTagReadsAsGroupStart` | `TagText.ByteDispatch` |
