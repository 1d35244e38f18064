/** The sample encoding of `WAV.typedData` (src/wav.js): each normalised
    sample becomes an integer of `bytesPerSample` bytes, stored in the
    byte order of the file, and the buffer holds as many bytes as the
    header's data size announces. */
module WavPcm {
  import opened Common
  import opened WavHeader

  /** ToInt32's truncation toward zero, before the wrap. */
  function Trunc(x: real): int {
    if x >= 0.0 then x.Floor else -((-x).Floor)
  }

  /** The full-scale sample value: 2^(8 bytesPerSample - 1) - 1. */
  function Amplitude(bytesPerSample: nat): int
    requires 1 <= bytesPerSample <= 4
  {
    Pow2(8 * bytesPerSample - 1) - 1
  }

  /** The offset added before masking: 0x80 makes 8-bit samples unsigned;
      256^width leaves the wider ones in two's complement. */
  function SampleOffset(bytesPerSample: nat): int
    requires 1 <= bytesPerSample <= 4
  {
    if bytesPerSample == 1 then 0x80 else Pow256(bytesPerSample)
  }

  /** The integer stored for sample x: (x * amplitude + offset) masked to the width. */
  function Quantise(x: real, bytesPerSample: nat): (q: nat)
    requires 1 <= bytesPerSample <= 4
    ensures q < Pow256(bytesPerSample)
  {
    Trunc(x * Amplitude(bytesPerSample) as real + SampleOffset(bytesPerSample) as real) % Pow256(bytesPerSample)
  }

  /** The bytes the typed data stores for sample i: its encoding, or zeros
      when the data has no sample i (`undefined` masks to 0). */
  function SampleBytes(data: seq<real>, i: nat, bytesPerSample: nat, littleEndian: bool): (r: seq<byte>)
    requires 1 <= bytesPerSample <= 4
    ensures |r| == bytesPerSample
  {
    if i < |data| then EncodeUint(Quantise(data[i], bytesPerSample), bytesPerSample, littleEndian)
    else seq(bytesPerSample, _ => 0)
  }

  /** Byte p of the typed data: byte p % bytesPerSample of sample
      p / bytesPerSample. Every byte is 0 when the width is not 1 to 4 bytes. */
  function PcmByte(data: seq<real>, p: nat, bytesPerSample: nat, littleEndian: bool): byte {
    if !(1 <= bytesPerSample <= 4) then 0
    else SampleBytes(data, p / bytesPerSample, bytesPerSample, littleEndian)[p % bytesPerSample]
  }

  /** The typed data of `size` bytes. */
  function PcmBytes(data: seq<real>, size: nat, bytesPerSample: nat, littleEndian: bool): (r: seq<byte>)
    ensures |r| == size
  {
    seq<byte>(size, p requires 0 <= p < size => PcmByte(data, p, bytesPerSample, littleEndian))
  }

  /** The typed data as src/wav.js writes it: the 24-bit case has no
      `break`, so the 32-bit loop runs after it and overwrites every byte
      with 4-byte words of the 24-bit samples. */
  function PcmBytesAsWritten(data: seq<real>, size: nat, bytesPerSample: nat, littleEndian: bool): (r: seq<byte>)
    ensures |r| == size
  {
    if bytesPerSample != 3 then PcmBytes(data, size, bytesPerSample, littleEndian)
    else
      seq<byte>(size, p requires 0 <= p < size =>
        var i := p / 4;
        if i < |data| then
          EncodeUint(Trunc(data[i] * Amplitude(3) as real + 0x1_0000_0000 as real) % 0x1_0000_0000, 4, littleEndian)[p % 4]
        else 0)
  }

  /** Sample i's signed value in two's complement. */
  function Signed(q: int, width: nat): int {
    if q >= Pow256(width) / 2 then q - Pow256(width) else q
  }

  // ---------------------------------------------------------------------
  // Properties

  lemma AmplitudeValues()
    ensures Amplitude(1) == 0x7F && Amplitude(2) == 0x7FFF
    ensures Amplitude(3) == 0x7F_FFFF && Amplitude(4) == 0x7FFF_FFFF
    ensures Pow256(1) == 0x100 && Pow256(2) == 0x1_0000
    ensures Pow256(3) == 0x100_0000 && Pow256(4) == 0x1_0000_0000
  {
    Pow2Values();
  }

  lemma DivBlock(i: nat, w: nat, m: nat)
    requires m < w
    ensures (i * w + m) / w == i && (i * w + m) % w == m
  {
    EuclideanUnique(i * w + m, w, i, m);
  }

  /** The typed data is the samples' encodings one after another. */
  lemma PcmSampleBytes(data: seq<real>, size: nat, bytesPerSample: nat, littleEndian: bool, i: nat)
    requires 1 <= bytesPerSample <= 4 && i < |data| && (i + 1) * bytesPerSample <= size
    ensures PcmBytes(data, size, bytesPerSample, littleEndian)[i * bytesPerSample..(i + 1) * bytesPerSample]
         == EncodeUint(Quantise(data[i], bytesPerSample), bytesPerSample, littleEndian)
  {
    var r := PcmBytes(data, size, bytesPerSample, littleEndian);
    var e := EncodeUint(Quantise(data[i], bytesPerSample), bytesPerSample, littleEndian);
    var base := i * bytesPerSample;
    assert (i + 1) * bytesPerSample == base + bytesPerSample;
    assert r[base..base + bytesPerSample] == e by {
      assert SampleBytes(data, i, bytesPerSample, littleEndian) == e;
      SampleBlock(data, i, base, bytesPerSample, littleEndian);
      forall p | base <= p < base + bytesPerSample
        ensures r[p] == e[p - base]
      {
        assert r[p] == PcmByte(data, p, bytesPerSample, littleEndian);
      }
    }
  }

  /** Byte p of the typed data, inside sample i, which starts at base ==
      i * bytesPerSample, is byte p - base of that sample's bytes. */
  lemma PcmByteOfSample(data: seq<real>, i: nat, base: nat, bytesPerSample: nat, littleEndian: bool, p: nat)
    requires 1 <= bytesPerSample <= 4 && base == i * bytesPerSample && base <= p < base + bytesPerSample
    ensures PcmByte(data, p, bytesPerSample, littleEndian) == SampleBytes(data, i, bytesPerSample, littleEndian)[p - base]
  {
    assert bytesPerSample * i == base;
    EuclideanUnique(p, bytesPerSample, i, p - base);
  }

  /** Sample i's bytes sit at base == i * bytesPerSample in the typed data. */
  lemma SampleBlock(data: seq<real>, i: nat, base: nat, bytesPerSample: nat, littleEndian: bool)
    requires 1 <= bytesPerSample <= 4 && base == i * bytesPerSample
    ensures forall p :: base <= p < base + bytesPerSample ==>
      PcmByte(data, p, bytesPerSample, littleEndian) == SampleBytes(data, i, bytesPerSample, littleEndian)[p - base]
  {
    forall p | base <= p < base + bytesPerSample
      ensures PcmByte(data, p, bytesPerSample, littleEndian) == SampleBytes(data, i, bytesPerSample, littleEndian)[p - base]
    {
      PcmByteOfSample(data, i, base, bytesPerSample, littleEndian, p);
    }
  }

  lemma FloorShift(x: real, k: int)
    ensures (x + k as real).Floor == x.Floor + k
  {
  }

  /** A sample in [-1, 1] of 16, 24 or 32 bits is stored as the two's
      complement of x * amplitude rounded down. */
  lemma QuantiseSigned(x: real, bytesPerSample: nat)
    requires 2 <= bytesPerSample <= 4 && -1.0 <= x <= 1.0
    ensures Signed(Quantise(x, bytesPerSample), bytesPerSample) == (x * Amplitude(bytesPerSample) as real).Floor
  {
    AmplitudeValues();
    var a := Amplitude(bytesPerSample);
    var k := Pow256(bytesPerSample);
    assert a == k / 2 - 1;
    var y := x * a as real;
    assert -(a as real) <= y <= a as real by { ScaleBounds(x, a as real); }
    FloorShift(y, k);
    var f := y.Floor;
    assert -a <= f <= a;
    assert Trunc(y + k as real) == f + k;
    if f >= 0 {
      EuclideanUnique(f + k, k, 1, f);
    } else {
      EuclideanUnique(f + k, k, 0, f + k);
    }
  }

  /** An 8-bit sample in [-1, 1] is stored unsigned, with 0 at 128. */
  lemma QuantiseUnsigned(x: real)
    requires -1.0 <= x <= 1.0
    ensures Quantise(x, 1) == (x * 127.0 + 128.0).Floor
    ensures 1 <= Quantise(x, 1) <= 255
  {
    AmplitudeValues();
    ScaleBounds(x, 127.0);
    var f := (x * 127.0 + 128.0).Floor;
    assert 1 <= f <= 255;
    EuclideanUnique(f, 256, 0, f);
  }

  lemma ScaleBounds(x: real, a: real)
    requires -1.0 <= x <= 1.0 && a >= 0.0
    ensures -a <= x * a <= a
  {
  }

  lemma SilenceIsMidpoint()
    ensures Quantise(0.0, 1) == 0x80 && Quantise(0.0, 2) == 0 && Quantise(0.0, 4) == 0
  {
    AmplitudeValues();
    EuclideanUnique(0x80, 0x100, 0, 0x80);
    EuclideanUnique(0x1_0000, 0x1_0000, 1, 0);
    EuclideanUnique(0x1_0000_0000, 0x1_0000_0000, 1, 0);
  }

  /** Two 24-bit little-endian samples, 0 and full scale, in a 6-byte buffer:
      the intended bytes are 00 00 00 FF FF 7F, the fall-through into the
      32-bit case leaves 00 00 00 00 FF FF. */
  lemma TwentyFourBitFallThrough()
    ensures PcmBytes([0.0, 1.0], 6, 3, true) == [0, 0, 0, 0xFF, 0xFF, 0x7F]
    ensures PcmBytesAsWritten([0.0, 1.0], 6, 3, true) == [0, 0, 0, 0, 0xFF, 0xFF]
  {
    AmplitudeValues();
    var full := 0x7F_FFFF;
    EuclideanUnique(0x100_0000, 0x100_0000, 1, 0);
    EuclideanUnique(full + 0x100_0000, 0x100_0000, 1, full);
    EuclideanUnique(0x1_0000_0000, 0x1_0000_0000, 1, 0);
    EuclideanUnique(full + 0x1_0000_0000, 0x1_0000_0000, 1, full);
    assert Quantise(0.0, 3) == 0;
    assert Quantise(1.0, 3) == full;
    assert LittleEndianBytes(0, 3) == [0, 0, 0];
    assert LittleEndianBytes(full, 3) == [0xFF, 0xFF, 0x7F];
    assert LittleEndianBytes(0, 4) == [0, 0, 0, 0];
    assert LittleEndianBytes(full, 4) == [0xFF, 0xFF, 0x7F, 0];
    var r := PcmBytes([0.0, 1.0], 6, 3, true);
    assert r[0] == PcmByte([0.0, 1.0], 0, 3, true);
    assert r[3] == PcmByte([0.0, 1.0], 3, 3, true);
    var w := PcmBytesAsWritten([0.0, 1.0], 6, 3, true);
    assert w[4] == LittleEndianBytes(full, 4)[0];
  }
}
