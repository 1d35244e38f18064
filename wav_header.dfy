/** The 44-byte RIFF/WAVE header of src/wav.js: its fields, the DataView
    integer and string accessors over them, and the header a new WAV starts
    with. Integers are written modulo 256^width, least significant byte
    first in a RIFF file and most significant first in a RIFX file. */
module WavHeader {
  import opened Common

  const HeaderLength: nat := 44

  /** A header field: its byte offset and its width in bytes. */
  datatype Field = Field(offset: nat, width: nat)

  const ChunkIdField := Field(0, 4)
  const ChunkSizeField := Field(4, 4)
  const FormatField := Field(8, 4)
  const SubChunk1IdField := Field(12, 4)
  const SubChunk1SizeField := Field(16, 4)
  const AudioFormatField := Field(20, 2)
  const NumChannelsField := Field(22, 2)
  const SampleRateField := Field(24, 4)
  const ByteRateField := Field(28, 4)
  const BlockAlignField := Field(32, 2)
  const BitsPerSampleField := Field(34, 2)
  const SubChunk2IdField := Field(36, 4)
  const SubChunk2SizeField := Field(40, 4)

  /** The header's fields in file order. */
  function Fields(): seq<Field> {
    [ChunkIdField, ChunkSizeField, FormatField, SubChunk1IdField, SubChunk1SizeField,
     AudioFormatField, NumChannelsField, SampleRateField, ByteRateField, BlockAlignField,
     BitsPerSampleField, SubChunk2IdField, SubChunk2SizeField]
  }

  predicate Disjoint(f: Field, g: Field) {
    f.offset + f.width <= g.offset || g.offset + g.width <= f.offset
  }

  /** The bytes DataView stores for `value` in a field of `width` bytes. */
  function EncodeUint(value: int, width: nat, littleEndian: bool): (r: seq<byte>)
    ensures |r| == width
  {
    if littleEndian then LittleEndianBytes(value, width) else Reverse(LittleEndianBytes(value, width))
  }

  /** The unsigned value DataView reads from `s`. */
  function DecodeUint(s: seq<byte>, littleEndian: bool): nat {
    if littleEndian then LittleEndian(s) else BigEndian(s)
  }

  /** `h` with `b` written at `offset`. */
  function Put(h: seq<byte>, offset: nat, b: seq<byte>): (r: seq<byte>)
    requires offset + |b| <= |h|
    ensures |r| == |h|
    ensures forall i :: 0 <= i < |h| ==> r[i] == if offset <= i < offset + |b| then b[i - offset] else h[i]
  {
    h[..offset] + b + h[offset + |b|..]
  }

  /** The value of an integer field. */
  function FieldValue(h: seq<byte>, f: Field, littleEndian: bool): nat
    requires f.offset + f.width <= |h|
  {
    DecodeUint(h[f.offset..f.offset + f.width], littleEndian)
  }

  /** An integer setter: `h` with `value` stored in field `f`. */
  function SetField(h: seq<byte>, f: Field, value: int, littleEndian: bool): (r: seq<byte>)
    requires f.offset + f.width <= |h|
    ensures |r| == |h|
  {
    Put(h, f.offset, EncodeUint(value, f.width, littleEndian))
  }

  /** The bytes `setString` stores: the low byte of each character code, and
      0 for positions past the end of the string. */
  function StringBytes(str: string, byteLength: nat): (r: seq<byte>)
    ensures |r| == byteLength
  {
    seq<byte>(byteLength, i requires 0 <= i < byteLength => if i < |str| then (str[i] as int) % 256 else 0)
  }

  function SetStringField(h: seq<byte>, str: string, f: Field): (r: seq<byte>)
    requires f.offset + f.width <= |h|
    ensures |r| == |h|
  {
    Put(h, f.offset, StringBytes(str, f.width))
  }

  /** `getString`: the characters whose codes are the bytes of field `f`. */
  function FieldString(h: seq<byte>, f: Field): (r: string)
    requires f.offset + f.width <= |h|
    ensures |r| == f.width
  {
    Chars(h[f.offset..f.offset + f.width])
  }

  /** `bitsPerSample >>> 3`. */
  function BytesPerSample(bitsPerSample: int): nat {
    (bitsPerSample % 0x1_0000_0000) / 8
  }

  /** The chunk id: RIFF for a little-endian file, RIFX for a big-endian one. */
  function ChunkId(littleEndian: bool): string {
    if littleEndian then "RIFF" else "RIFX"
  }

  /** The header the WAV constructor writes, setter by setter in the
      constructor's order, over the zero-filled buffer. */
  function InitialHeader(numChannels: int, sampleRate: int, bitsPerSample: int, littleEndian: bool, samples: nat): (r: seq<byte>)
    ensures |r| == HeaderLength
  {
    var bytesPerSample := BytesPerSample(bitsPerSample);
    var h0 := seq<byte>(HeaderLength, _ => 0);
    var h1 := SetStringField(h0, ChunkId(littleEndian), ChunkIdField);
    var h2 := SetField(h1, ChunkSizeField, HeaderLength - 8, littleEndian);
    var h3 := SetStringField(h2, "WAVE", FormatField);
    var h4 := SetStringField(h3, "fmt ", SubChunk1IdField);
    var h5 := SetField(h4, SubChunk1SizeField, 16, littleEndian);
    var h6 := SetField(h5, AudioFormatField, 1, littleEndian);
    var h7 := SetField(h6, NumChannelsField, numChannels, littleEndian);
    var h8 := SetField(h7, SampleRateField, sampleRate, littleEndian);
    var h9 := SetField(h8, ByteRateField, numChannels * sampleRate * bytesPerSample, littleEndian);
    var h10 := SetField(h9, BlockAlignField, numChannels * bytesPerSample, littleEndian);
    var h11 := SetField(h10, BitsPerSampleField, bitsPerSample, littleEndian);
    var h12 := SetStringField(h11, "data", SubChunk2IdField);
    SetField(h12, SubChunk2SizeField, samples * bytesPerSample, littleEndian)
  }

  // ---------------------------------------------------------------------
  // Properties

  /** The fields follow each other without gaps and fill the 44 bytes. */
  lemma HeaderLayout()
    ensures Fields()[0].offset == 0
    ensures forall k :: 0 < k < |Fields()| ==> Fields()[k].offset == Fields()[k - 1].offset + Fields()[k - 1].width
    ensures Fields()[|Fields()| - 1].offset + Fields()[|Fields()| - 1].width == HeaderLength
  {
  }

  /** Fields that follow each other in a gapless layout do not overlap. */
  lemma FieldsDisjoint(j: nat, k: nat)
    requires j < k < |Fields()|
    ensures Disjoint(Fields()[j], Fields()[k])
  {
    HeaderLayout();
  }

  lemma {:induction false} BigEndianReverse(s: seq<byte>)
    ensures BigEndian(Reverse(s)) == LittleEndian(s)
  {
    if s != [] {
      var r := Reverse(s[1..]);
      assert Reverse(s) == r + [s[0]];
      assert (r + [s[0]])[..|r|] == r;
      BigEndianReverse(s[1..]);
    }
  }

  /** Reading a field back gives the value stored, modulo 256^width. */
  lemma DecodeEncode(value: int, width: nat, littleEndian: bool)
    ensures DecodeUint(EncodeUint(value, width, littleEndian), littleEndian) == value % Pow256(width)
  {
    LittleEndianRoundTrip(value, width);
    if !littleEndian {
      BigEndianReverse(LittleEndianBytes(value, width));
    }
  }

  /** An integer setter stores its value in its own field... */
  lemma GetAfterSet(h: seq<byte>, f: Field, value: int, littleEndian: bool)
    requires f.offset + f.width <= |h|
    ensures FieldValue(SetField(h, f, value, littleEndian), f, littleEndian) == value % Pow256(f.width)
  {
    var b := EncodeUint(value, f.width, littleEndian);
    assert SetField(h, f, value, littleEndian)[f.offset..f.offset + f.width] == b;
    DecodeEncode(value, f.width, littleEndian);
  }

  /** ...and leaves every byte outside that field as it was. */
  lemma PutFrame(h: seq<byte>, offset: nat, b: seq<byte>, g: Field)
    requires offset + |b| <= |h| && g.offset + g.width <= |h|
    requires Disjoint(Field(offset, |b|), g)
    ensures Put(h, offset, b)[g.offset..g.offset + g.width] == h[g.offset..g.offset + g.width]
  {
  }

  lemma SetFieldFrame(h: seq<byte>, f: Field, value: int, littleEndian: bool, g: Field)
    requires f.offset + f.width <= |h| && g.offset + g.width <= |h| && Disjoint(f, g)
    ensures FieldValue(SetField(h, f, value, littleEndian), g, littleEndian) == FieldValue(h, g, littleEndian)
    ensures FieldString(SetField(h, f, value, littleEndian), g) == FieldString(h, g)
  {
    PutFrame(h, f.offset, EncodeUint(value, f.width, littleEndian), g);
  }

  /** A string of single-byte characters that fills its field reads back unchanged. */
  lemma GetStringAfterSet(h: seq<byte>, str: string, f: Field)
    requires f.offset + f.width <= |h| && |str| == f.width
    requires forall i :: 0 <= i < |str| ==> str[i] as int < 256
    ensures FieldString(SetStringField(h, str, f), f) == str
  {
    assert SetStringField(h, str, f)[f.offset..f.offset + f.width] == StringBytes(str, f.width);
  }

  /** The slices of the initial header are the bytes each setter wrote. */
  lemma InitialHeaderBytes(numChannels: int, sampleRate: int, bitsPerSample: int, littleEndian: bool, samples: nat)
    ensures var h := InitialHeader(numChannels, sampleRate, bitsPerSample, littleEndian, samples);
      var bytesPerSample := BytesPerSample(bitsPerSample);
      && h[0..4] == StringBytes(ChunkId(littleEndian), 4)
      && h[4..8] == EncodeUint(HeaderLength - 8, 4, littleEndian)
      && h[8..12] == StringBytes("WAVE", 4)
      && h[12..16] == StringBytes("fmt ", 4)
      && h[16..20] == EncodeUint(16, 4, littleEndian)
      && h[20..22] == EncodeUint(1, 2, littleEndian)
      && h[22..24] == EncodeUint(numChannels, 2, littleEndian)
      && h[24..28] == EncodeUint(sampleRate, 4, littleEndian)
      && h[28..32] == EncodeUint(numChannels * sampleRate * bytesPerSample, 4, littleEndian)
      && h[32..34] == EncodeUint(numChannels * bytesPerSample, 2, littleEndian)
      && h[34..36] == EncodeUint(bitsPerSample, 2, littleEndian)
      && h[36..40] == StringBytes("data", 4)
      && h[40..44] == EncodeUint(samples * bytesPerSample, 4, littleEndian)
  {
    InitialIdBytes(numChannels, sampleRate, bitsPerSample, littleEndian, samples);
    InitialSizeBytes(numChannels, sampleRate, bitsPerSample, littleEndian, samples);
    InitialFormatBytes(numChannels, sampleRate, bitsPerSample, littleEndian, samples);
  }

  lemma InitialIdBytes(numChannels: int, sampleRate: int, bitsPerSample: int, littleEndian: bool, samples: nat)
    ensures var h := InitialHeader(numChannels, sampleRate, bitsPerSample, littleEndian, samples);
      var bytesPerSample := BytesPerSample(bitsPerSample);
      && h[0..4] == StringBytes(ChunkId(littleEndian), 4)
      && h[8..12] == StringBytes("WAVE", 4)
      && h[12..16] == StringBytes("fmt ", 4)
      && h[36..40] == StringBytes("data", 4)
  {
  }

  lemma InitialSizeBytes(numChannels: int, sampleRate: int, bitsPerSample: int, littleEndian: bool, samples: nat)
    ensures var h := InitialHeader(numChannels, sampleRate, bitsPerSample, littleEndian, samples);
      var bytesPerSample := BytesPerSample(bitsPerSample);
      && h[4..8] == EncodeUint(HeaderLength - 8, 4, littleEndian)
      && h[16..20] == EncodeUint(16, 4, littleEndian)
      && h[20..22] == EncodeUint(1, 2, littleEndian)
      && h[40..44] == EncodeUint(samples * bytesPerSample, 4, littleEndian)
  {
  }

  lemma InitialFormatBytes(numChannels: int, sampleRate: int, bitsPerSample: int, littleEndian: bool, samples: nat)
    ensures var h := InitialHeader(numChannels, sampleRate, bitsPerSample, littleEndian, samples);
      var bytesPerSample := BytesPerSample(bitsPerSample);
      && h[22..24] == EncodeUint(numChannels, 2, littleEndian)
      && h[24..28] == EncodeUint(sampleRate, 4, littleEndian)
      && h[28..32] == EncodeUint(numChannels * sampleRate * bytesPerSample, 4, littleEndian)
      && h[32..34] == EncodeUint(numChannels * bytesPerSample, 2, littleEndian)
      && h[34..36] == EncodeUint(bitsPerSample, 2, littleEndian)
  {
  }

  /** What a new WAV's header getters return: the RIFF (little-endian) or
      RIFX (big-endian) chunk id, chunk size 36, PCM format 1 and the sizes
      derived from the channel count, sample rate and sample width. */
  lemma InitialHeaderFields(numChannels: int, sampleRate: int, bitsPerSample: int, littleEndian: bool, samples: nat)
    ensures var h := InitialHeader(numChannels, sampleRate, bitsPerSample, littleEndian, samples);
      var bytesPerSample := BytesPerSample(bitsPerSample);
      && FieldString(h, ChunkIdField) == ChunkId(littleEndian)
      && FieldValue(h, ChunkSizeField, littleEndian) == 36
      && FieldString(h, FormatField) == "WAVE"
      && FieldString(h, SubChunk1IdField) == "fmt "
      && FieldValue(h, SubChunk1SizeField, littleEndian) == 16
      && FieldValue(h, AudioFormatField, littleEndian) == 1
      && FieldValue(h, NumChannelsField, littleEndian) == numChannels % 0x1_0000
      && FieldValue(h, SampleRateField, littleEndian) == sampleRate % 0x1_0000_0000
      && FieldValue(h, ByteRateField, littleEndian) == (numChannels * sampleRate * bytesPerSample) % 0x1_0000_0000
      && FieldValue(h, BlockAlignField, littleEndian) == (numChannels * bytesPerSample) % 0x1_0000
      && FieldValue(h, BitsPerSampleField, littleEndian) == bitsPerSample % 0x1_0000
      && FieldString(h, SubChunk2IdField) == "data"
      && FieldValue(h, SubChunk2SizeField, littleEndian) == (samples * bytesPerSample) % 0x1_0000_0000
  {
    InitialIdBytes(numChannels, sampleRate, bitsPerSample, littleEndian, samples);
    IdsRead(InitialHeader(numChannels, sampleRate, bitsPerSample, littleEndian, samples), littleEndian);
    InitialSizeBytes(numChannels, sampleRate, bitsPerSample, littleEndian, samples);
    SizesRead(InitialHeader(numChannels, sampleRate, bitsPerSample, littleEndian, samples), littleEndian,
              samples * BytesPerSample(bitsPerSample));
    InitialFormatBytes(numChannels, sampleRate, bitsPerSample, littleEndian, samples);
    FormatRead(InitialHeader(numChannels, sampleRate, bitsPerSample, littleEndian, samples), littleEndian,
               numChannels, sampleRate, numChannels * sampleRate * BytesPerSample(bitsPerSample),
               numChannels * BytesPerSample(bitsPerSample), bitsPerSample);
  }

  /** A header holding the four chunk ids reads them back. */
  lemma IdsRead(h: seq<byte>, littleEndian: bool)
    requires |h| == HeaderLength
    requires && h[0..4] == StringBytes(ChunkId(littleEndian), 4)
             && h[8..12] == StringBytes("WAVE", 4)
             && h[12..16] == StringBytes("fmt ", 4)
             && h[36..40] == StringBytes("data", 4)
    ensures && FieldString(h, ChunkIdField) == ChunkId(littleEndian)
            && FieldString(h, FormatField) == "WAVE"
            && FieldString(h, SubChunk1IdField) == "fmt "
            && FieldString(h, SubChunk2IdField) == "data"
  {
    FieldStringIs(h, ChunkIdField, 0, 4, 4, ChunkId(littleEndian));
    FieldStringIs(h, FormatField, 8, 12, 4, "WAVE");
    FieldStringIs(h, SubChunk1IdField, 12, 16, 4, "fmt ");
    FieldStringIs(h, SubChunk2IdField, 36, 40, 4, "data");
  }

  /** A header holding the chunk sizes and PCM format reads them back. */
  lemma SizesRead(h: seq<byte>, littleEndian: bool, dataSize: int)
    requires |h| == HeaderLength
    requires && h[4..8] == EncodeUint(HeaderLength - 8, 4, littleEndian)
             && h[16..20] == EncodeUint(16, 4, littleEndian)
             && h[20..22] == EncodeUint(1, 2, littleEndian)
             && h[40..44] == EncodeUint(dataSize, 4, littleEndian)
    ensures && FieldValue(h, ChunkSizeField, littleEndian) == 36
            && FieldValue(h, SubChunk1SizeField, littleEndian) == 16
            && FieldValue(h, AudioFormatField, littleEndian) == 1
            && FieldValue(h, SubChunk2SizeField, littleEndian) == dataSize % 0x1_0000_0000
  {
    Pow256Widths();
    FieldValueIs(h, ChunkSizeField, 4, 8, 4, HeaderLength - 8, littleEndian);
    FieldValueIs(h, SubChunk1SizeField, 16, 20, 4, 16, littleEndian);
    FieldValueIs(h, AudioFormatField, 20, 22, 2, 1, littleEndian);
    FieldValueIs(h, SubChunk2SizeField, 40, 44, 4, dataSize, littleEndian);
  }

  /** A header holding the sample format reads it back modulo the field widths. */
  lemma FormatRead(h: seq<byte>, littleEndian: bool, numChannels: int, sampleRate: int, byteRate: int,
                   blockAlign: int, bitsPerSample: int)
    requires |h| == HeaderLength
    requires && h[22..24] == EncodeUint(numChannels, 2, littleEndian)
             && h[24..28] == EncodeUint(sampleRate, 4, littleEndian)
             && h[28..32] == EncodeUint(byteRate, 4, littleEndian)
             && h[32..34] == EncodeUint(blockAlign, 2, littleEndian)
             && h[34..36] == EncodeUint(bitsPerSample, 2, littleEndian)
    ensures && FieldValue(h, NumChannelsField, littleEndian) == numChannels % 0x1_0000
            && FieldValue(h, SampleRateField, littleEndian) == sampleRate % 0x1_0000_0000
            && FieldValue(h, ByteRateField, littleEndian) == byteRate % 0x1_0000_0000
            && FieldValue(h, BlockAlignField, littleEndian) == blockAlign % 0x1_0000
            && FieldValue(h, BitsPerSampleField, littleEndian) == bitsPerSample % 0x1_0000
  {
    Pow256Widths();
    FieldValueIs(h, NumChannelsField, 22, 24, 2, numChannels, littleEndian);
    FieldValueIs(h, SampleRateField, 24, 28, 4, sampleRate, littleEndian);
    FieldValueIs(h, ByteRateField, 28, 32, 4, byteRate, littleEndian);
    FieldValueIs(h, BlockAlignField, 32, 34, 2, blockAlign, littleEndian);
    FieldValueIs(h, BitsPerSampleField, 34, 36, 2, bitsPerSample, littleEndian);
  }

  lemma Pow256Widths()
    ensures Pow256(2) == 0x1_0000 && Pow256(4) == 0x1_0000_0000
  {
    assert Pow256(1) == 256;
    assert Pow256(3) == 0x100_0000;
  }

  /** An integer field whose bytes h[lo..hi] encode `value` reads back
      `value` modulo 256^width. */
  lemma FieldValueIs(h: seq<byte>, f: Field, lo: nat, hi: nat, width: nat, value: int, littleEndian: bool)
    requires lo == f.offset && width == f.width && hi == lo + width && hi <= |h|
    requires h[lo..hi] == EncodeUint(value, width, littleEndian)
    ensures FieldValue(h, f, littleEndian) == value % Pow256(width)
  {
    DecodeEncode(value, width, littleEndian);
  }

  /** A string field whose bytes h[lo..hi] are those of `str` reads back `str`. */
  lemma FieldStringIs(h: seq<byte>, f: Field, lo: nat, hi: nat, width: nat, str: string)
    requires lo == f.offset && width == f.width && hi == lo + width && hi <= |h| && |str| == width
    requires forall i :: 0 <= i < |str| ==> str[i] as int < 256
    requires h[lo..hi] == StringBytes(str, width)
    ensures FieldString(h, f) == str
  {
    StringBytesRoundTrip(str);
  }

  lemma StringBytesRoundTrip(str: string)
    requires forall i :: 0 <= i < |str| ==> str[i] as int < 256
    ensures Chars(StringBytes(str, |str|)) == str
  {
  }

  /** What the header's getters return. */
  datatype HeaderFields = HeaderFields(
    chunkId: string, chunkSize: nat, format: string,
    subChunk1Id: string, subChunk1Size: nat, audioFormat: nat, numChannels: nat,
    sampleRate: nat, byteRate: nat, blockAlign: nat, bitsPerSample: nat,
    subChunk2Id: string, subChunk2Size: nat)

  function DecodeHeader(h: seq<byte>, littleEndian: bool): HeaderFields
    requires |h| == HeaderLength
  {
    HeaderFields(
      FieldString(h, ChunkIdField), FieldValue(h, ChunkSizeField, littleEndian), FieldString(h, FormatField),
      FieldString(h, SubChunk1IdField), FieldValue(h, SubChunk1SizeField, littleEndian),
      FieldValue(h, AudioFormatField, littleEndian), FieldValue(h, NumChannelsField, littleEndian),
      FieldValue(h, SampleRateField, littleEndian), FieldValue(h, ByteRateField, littleEndian),
      FieldValue(h, BlockAlignField, littleEndian), FieldValue(h, BitsPerSampleField, littleEndian),
      FieldString(h, SubChunk2IdField), FieldValue(h, SubChunk2SizeField, littleEndian))
  }

  /** The getters of a new WAV. */
  function InitialFields(numChannels: int, sampleRate: int, bitsPerSample: int, littleEndian: bool, samples: nat): HeaderFields {
    var bytesPerSample := BytesPerSample(bitsPerSample);
    HeaderFields(
      ChunkId(littleEndian), 36, "WAVE", "fmt ", 16, 1,
      numChannels % 0x1_0000, sampleRate % 0x1_0000_0000,
      (numChannels * sampleRate * bytesPerSample) % 0x1_0000_0000,
      (numChannels * bytesPerSample) % 0x1_0000, bitsPerSample % 0x1_0000,
      "data", (samples * bytesPerSample) % 0x1_0000_0000)
  }

  lemma InitialHeaderDecodes(numChannels: int, sampleRate: int, bitsPerSample: int, littleEndian: bool, samples: nat)
    ensures DecodeHeader(InitialHeader(numChannels, sampleRate, bitsPerSample, littleEndian, samples), littleEndian)
         == InitialFields(numChannels, sampleRate, bitsPerSample, littleEndian, samples)
  {
    InitialHeaderFields(numChannels, sampleRate, bitsPerSample, littleEndian, samples);
  }

  /** Setting the RIFF chunk size changes that getter only. */
  lemma {:induction false} SetChunkSizeDecodes(h: seq<byte>, value: int, littleEndian: bool)
    requires |h| == HeaderLength
    ensures DecodeHeader(SetField(h, ChunkSizeField, value, littleEndian), littleEndian)
         == DecodeHeader(h, littleEndian).(chunkSize := value % 0x1_0000_0000)
  {
    var f := ChunkSizeField;
    Pow256Widths();
    GetAfterSet(h, f, value, littleEndian);
    SetFieldFrame(h, f, value, littleEndian, ChunkIdField);
    SetFieldFrame(h, f, value, littleEndian, FormatField);
    SetFieldFrame(h, f, value, littleEndian, SubChunk1IdField);
    SetFieldFrame(h, f, value, littleEndian, SubChunk1SizeField);
    SetFieldFrame(h, f, value, littleEndian, AudioFormatField);
    SetFieldFrame(h, f, value, littleEndian, NumChannelsField);
    SetFieldFrame(h, f, value, littleEndian, SampleRateField);
    SetFieldFrame(h, f, value, littleEndian, ByteRateField);
    SetFieldFrame(h, f, value, littleEndian, BlockAlignField);
    SetFieldFrame(h, f, value, littleEndian, BitsPerSampleField);
    SetFieldFrame(h, f, value, littleEndian, SubChunk2IdField);
    SetFieldFrame(h, f, value, littleEndian, SubChunk2SizeField);
  }

  /** Setting the data chunk size changes that getter only. */
  lemma {:induction false} SetSubChunk2SizeDecodes(h: seq<byte>, value: int, littleEndian: bool)
    requires |h| == HeaderLength
    ensures DecodeHeader(SetField(h, SubChunk2SizeField, value, littleEndian), littleEndian)
         == DecodeHeader(h, littleEndian).(subChunk2Size := value % 0x1_0000_0000)
  {
    var f := SubChunk2SizeField;
    Pow256Widths();
    GetAfterSet(h, f, value, littleEndian);
    SetFieldFrame(h, f, value, littleEndian, ChunkIdField);
    SetFieldFrame(h, f, value, littleEndian, ChunkSizeField);
    SetFieldFrame(h, f, value, littleEndian, FormatField);
    SetFieldFrame(h, f, value, littleEndian, SubChunk1IdField);
    SetFieldFrame(h, f, value, littleEndian, SubChunk1SizeField);
    SetFieldFrame(h, f, value, littleEndian, AudioFormatField);
    SetFieldFrame(h, f, value, littleEndian, NumChannelsField);
    SetFieldFrame(h, f, value, littleEndian, SampleRateField);
    SetFieldFrame(h, f, value, littleEndian, ByteRateField);
    SetFieldFrame(h, f, value, littleEndian, BlockAlignField);
    SetFieldFrame(h, f, value, littleEndian, BitsPerSampleField);
    SetFieldFrame(h, f, value, littleEndian, SubChunk2IdField);
  }
}
