/** The WAV class of src/wav.js: a 44-byte header buffer read and written
    through DataView-style accessors, normalised sample data with a write
    index, and the operations that synthesise notes into it and serialise
    it. */
module Wav {
  import opened Common
  import opened WavHeader
  import opened WavPcm
  import opened WavPitch
  import opened WavSynth

  class WAV {
    const header: array<byte>
    var data: seq<real>
    var pointer: int
    const littleEndian: bool
    /** The values the header getters return. */
    ghost var fields: HeaderFields

    ghost predicate Valid()
      reads this`fields, header
    {
      header.Length == HeaderLength && fields == DecodeHeader(header[..], littleEndian)
    }

    ghost function State(): WavState
      reads this
    {
      WavState(fields, data, pointer)
    }

    constructor(numChannels: int, sampleRate: int, bitsPerSample: int, littleEndian: bool, data: seq<real>)
      ensures Valid() && fresh(header) && this.littleEndian == littleEndian
      ensures header[..] == InitialHeader(numChannels, sampleRate, bitsPerSample, littleEndian, |data|)
      ensures State() == WavState(InitialFields(numChannels, sampleRate, bitsPerSample, littleEndian, |data|), data, 0)
    {
      header := new byte[HeaderLength](_ => 0);
      this.data := data;
      this.littleEndian := littleEndian;
      pointer := 0;
      fields := InitialFields(numChannels, sampleRate, bitsPerSample, littleEndian, |data|);
      new;
      InitialHeaderDecodes(numChannels, sampleRate, bitsPerSample, littleEndian, |data|);
      WriteHeader(numChannels, sampleRate, bitsPerSample, |data|);
    }

    /** The header property setters of the constructor, in order. */
    method WriteHeader(numChannels: int, sampleRate: int, bitsPerSample: int, samples: nat)
      requires header.Length == HeaderLength && header[..] == seq(HeaderLength, _ => 0)
      modifies header
      ensures header[..] == InitialHeader(numChannels, sampleRate, bitsPerSample, littleEndian, samples)
    {
      var bytesPerSample := BytesPerSample(bitsPerSample);
      SetString(ChunkId(littleEndian), ChunkIdField);
      SetUint(ChunkSizeField, HeaderLength - 8);
      SetString("WAVE", FormatField);
      SetString("fmt ", SubChunk1IdField);
      SetUint(SubChunk1SizeField, 16);
      SetUint(AudioFormatField, 1);
      SetUint(NumChannelsField, numChannels);
      SetUint(SampleRateField, sampleRate);
      SetUint(ByteRateField, numChannels * sampleRate * bytesPerSample);
      SetUint(BlockAlignField, numChannels * bytesPerSample);
      SetUint(BitsPerSampleField, bitsPerSample);
      SetString("data", SubChunk2IdField);
      SetUint(SubChunk2SizeField, samples * bytesPerSample);
    }

    /** An integer setter: DataView's setUint16 / setUint32 at the field. */
    method SetUint(f: Field, value: int)
      requires header.Length == HeaderLength && f.offset + f.width <= HeaderLength
      modifies header
      ensures header[..] == SetField(old(header[..]), f, value, littleEndian)
    {
      var bytes := EncodeUint(value, f.width, littleEndian);
      forall i | 0 <= i < f.width {
        header[f.offset + i] := bytes[i];
      }
      assert header[..] == Put(old(header[..]), f.offset, bytes);
    }

    /** `setString`: the low byte of each character code, 0 past the end of `str`. */
    method SetString(str: string, f: Field)
      requires header.Length == HeaderLength && f.offset + f.width <= HeaderLength
      modifies header
      ensures header[..] == SetStringField(old(header[..]), str, f)
    {
      var bytes := StringBytes(str, f.width);
      for i := 0 to f.width
        invariant forall p :: 0 <= p < header.Length ==>
          header[p] == if f.offset <= p < f.offset + i then bytes[p - f.offset] else old(header[p])
      {
        header[f.offset + i] := if i < |str| then (str[i] as int) % 256 else 0;
      }
      assert header[..] == Put(old(header[..]), f.offset, bytes);
    }

    /** `getString`: one character per header byte. */
    method GetString(f: Field) returns (str: string)
      requires header.Length == HeaderLength && f.offset + f.width <= HeaderLength
      ensures str == FieldString(header[..], f)
    {
      str := "";
      for i := 0 to f.width
        invariant str == Chars(header[f.offset..f.offset + i])
      {
        assert header[f.offset..f.offset + i + 1] == header[f.offset..f.offset + i] + [header[f.offset + i]];
        str := str + [header[f.offset + i] as char];
      }
    }

    /** An integer getter: DataView's getUint16 / getUint32 at the field. */
    method GetUint(f: Field) returns (value: nat)
      requires header.Length == HeaderLength && f.offset + f.width <= HeaderLength
      ensures value == FieldValue(header[..], f, littleEndian)
    {
      value := 0;
      if littleEndian {
        var i := f.width;
        while i > 0
          invariant 0 <= i <= f.width
          invariant value == LittleEndian(header[f.offset + i..f.offset + f.width])
        {
          i := i - 1;
          assert header[f.offset + i..f.offset + f.width][1..] == header[f.offset + i + 1..f.offset + f.width];
          value := header[f.offset + i] + 256 * value;
        }
      } else {
        for i := 0 to f.width
          invariant value == BigEndian(header[f.offset..f.offset + i])
        {
          assert header[f.offset..f.offset + i + 1][..i] == header[f.offset..f.offset + i];
          value := value * 256 + header[f.offset + i];
        }
      }
    }

    /** The `NumChannels` getter. */
    method NumChannels() returns (n: nat)
      requires Valid()
      ensures n == fields.numChannels
    {
      n := GetUint(NumChannelsField);
    }

    /** The `SampleRate` getter. */
    method SampleRate() returns (n: nat)
      requires Valid()
      ensures n == fields.sampleRate
    {
      n := GetUint(SampleRateField);
    }

    /** The `BitsPerSample` getter. */
    method BitsPerSample() returns (n: nat)
      requires Valid()
      ensures n == fields.bitsPerSample
    {
      n := GetUint(BitsPerSampleField);
    }

    /** The `SubChunk2Size` getter. */
    method SubChunk2Size() returns (n: nat)
      requires Valid()
      ensures n == fields.subChunk2Size
    {
      n := GetUint(SubChunk2SizeField);
    }

    /** `typedData`: `subChunk2Size` bytes of samples, each quantised to
        `bitsPerSample >>> 3` bytes in the header's byte order. */
    method TypedData() returns (bytes: seq<byte>)
      requires Valid()
      ensures bytes == PcmBytes(data, fields.subChunk2Size, BytesPerSample(fields.bitsPerSample), littleEndian)
    {
      var bits := BitsPerSample();
      var bytesPerSample := BytesPerSample(bits);
      var size := SubChunk2Size();
      var buffer := new byte[size](_ => 0);
      if 1 <= bytesPerSample <= 4 {
        var i, base := 0, 0;
        while base < size
          invariant 0 <= i && base == i * bytesPerSample
          invariant forall p :: 0 <= p < size ==>
            buffer[p] == if p < base then PcmByte(data, p, bytesPerSample, littleEndian) else 0
          decreases size as int - base
        {
          var encoded := SampleBytes(data, i, bytesPerSample, littleEndian);
          StoreBytes(buffer, base, encoded);
          SampleBlock(data, i, base, bytesPerSample, littleEndian);
          MulSucc(i, bytesPerSample);
          i, base := i + 1, base + bytesPerSample;
        }
      }
      bytes := buffer[..];
    }

    /** `toBuffer`: the header followed by the typed data. */
    method ToBuffer() returns (bytes: seq<byte>)
      requires Valid()
      ensures bytes == header[..] + PcmBytes(data, fields.subChunk2Size, BytesPerSample(fields.bitsPerSample), littleEndian)
    {
      var samples := TypedData();
      bytes := header[..] + samples;
    }

    /** `tell`: the write index in seconds. */
    method Tell() returns (seconds: real)
      requires Valid() && fields.numChannels > 0 && fields.sampleRate > 0
      ensures seconds == TellSeconds(State())
    {
      var numChannels := NumChannels();
      var sampleRate := SampleRate();
      seconds := pointer as real / numChannels as real / sampleRate as real;
    }

    /** `seek`. */
    method Seek(time: real, fill: bool)
      requires Valid() && Ready(State()) && time >= 0.0
      modifies this
      ensures Valid()
      ensures State() == SeekState(old(State()), time, fill)
    {
      var sampleRate := SampleRate();
      var numChannels := NumChannels();
      var target := numChannels * BlocksAt(sampleRate, time);
      if fill {
        var padded := data;
        while |padded| < target
          invariant |data| <= |padded| <= Max(target, |data|)
          invariant padded == data + Zeros(|padded| - |data|)
          decreases target - |padded|
        {
          assert Zeros(|padded| + 1 - |data|) == Zeros(|padded| - |data|) + [0.0];
          padded := padded + [0.0];
        }
        data := padded;
        pointer := target;
      } else {
        pointer := |data|;
      }
    }

    /** `writeNote`: renders `note` for `time` seconds at `amplitude` into
        the listed channels (all of them when none are listed), blending
        into existing blocks when `blend` is set, and records the new data
        size in the header. */
    method WriteNote(note: string, time: real, amplitude: real, channels: seq<int>, blend: bool, reset: bool, wave: Oscillator)
      requires Valid() && Ready(State()) && time >= 0.0 && ChannelsWithin(channels, Channels(State()))
      modifies this, header
      ensures Valid()
      ensures State() == WriteNoteState(old(State()), note, time, amplitude, channels, blend, reset, wave)
    {
      var sampleRate := SampleRate();
      var s := Stroke(Semitone(note), amplitude, sampleRate, BlocksAt(sampleRate, time), wave);
      assert s == NoteStroke(State(), note, time, amplitude, wave);
      WriteStroke(s, channels, blend, reset);
    }

    /** The body of `writeNote` once the note's samples are defined: the
        two loops, the header sizes and the write index. */
    method WriteStroke(s: Stroke, channels: seq<int>, blend: bool, reset: bool)
      requires Valid() && Ready(State()) && ChannelsWithin(channels, Channels(State()))
      modifies this, header
      ensures Valid()
      ensures State() == StrokeState(old(State()), s, channels, blend, reset)
    {
      var numChannels := NumChannels();
      var start: nat := pointer;
      var stop := |data|;
      data := NoteSamples(data, start, numChannels, channels, blend, s);
      var bits := BitsPerSample();
      var end := DataSize(Max(NoteEnd(start, s.blocksOut, numChannels), stop), bits);
      assert end == DataSize(|data|, bits);
      SetSizes(end);
      if !reset {
        pointer := NoteEnd(start, s.blocksOut, numChannels);
      }
    }

    /** The header updates at the end of `writeNote`: the RIFF chunk size and
        the data size. */
    method SetSizes(end: nat)
      requires Valid() && end < 0x2000_0000
      modifies this, header
      ensures Valid() && data == old(data) && pointer == old(pointer)
      ensures fields == Resized(old(fields), end)
    {
      SetChunkSize(end + HeaderLength - 8);
      SetSubChunk2Size(end);
    }

    /** `setUint32(4, ...)`: the RIFF chunk size. */
    method SetChunkSize(value: nat)
      requires Valid() && value < 0x1_0000_0000
      modifies this, header
      ensures Valid() && data == old(data) && pointer == old(pointer)
      ensures fields == old(fields).(chunkSize := value)
    {
      ghost var h0 := header[..];
      EuclideanUnique(value, 0x1_0000_0000, 0, value);
      SetUint(ChunkSizeField, value);
      SetChunkSizeDecodes(h0, value, littleEndian);
      fields := fields.(chunkSize := value);
    }

    /** `setUint32(40, ...)`: the data chunk size. */
    method SetSubChunk2Size(value: nat)
      requires Valid() && value < 0x1_0000_0000
      modifies this, header
      ensures Valid() && data == old(data) && pointer == old(pointer)
      ensures fields == old(fields).(subChunk2Size := value)
    {
      ghost var h0 := header[..];
      EuclideanUnique(value, 0x1_0000_0000, 0, value);
      SetUint(SubChunk2SizeField, value);
      SetSubChunk2SizeDecodes(h0, value, littleEndian);
      fields := fields.(subChunk2Size := value);
    }

    /** `writeProgression`. */
    method WriteProgression(notes: seq<ProgressionNote>, amplitude: real, channels: seq<int>, blend: bool, reset: bool,
                            relativeDuration: real, wave: Oscillator)
      requires Valid() && Ready(State()) && ChannelsWithin(channels, Channels(State()))
      requires ProgressionWellFormed(notes, relativeDuration)
      modifies this, header
      ensures Valid()
      ensures State() == ProgressionState(old(State()), notes, amplitude, channels, blend, reset, relativeDuration, wave)
    {
      var start := pointer;
      for i := 0 to |notes|
        invariant Valid() && Ready(State()) && Channels(State()) == Channels(old(State()))
        invariant ProgressionFrom(State(), notes[i..], amplitude, channels, blend, relativeDuration, wave)
               == ProgressionFrom(old(State()), notes, amplitude, channels, blend, relativeDuration, wave)
      {
        WriteProgressionNote(notes[i], amplitude, channels, blend, relativeDuration, wave);
        assert notes[i..][1..] == notes[i + 1..];
      }
      if reset {
        pointer := start;
      }
    }

    /** One note of `writeProgression`. */
    method WriteProgressionNote(n: ProgressionNote, amplitude: real, channels: seq<int>, blend: bool,
                                relativeDuration: real, wave: Oscillator)
      requires Valid() && Ready(State()) && ChannelsWithin(channels, Channels(State()))
      requires n.time >= 0.0 && (n.offset.Some? ==> n.offset.value >= 0.0) && 0.0 <= relativeDuration <= 1.0
      modifies this, header
      ensures Valid()
      ensures State() == ProgressionStep(old(State()), n, amplitude, channels, blend, relativeDuration, wave)
    {
      if n.offset.Some? {
        Seek(n.offset.value, true);
      }
      PlayNote(n, amplitude, channels, blend, relativeDuration, wave);
    }

    /** A note of `writeProgression` at the write index. */
    method PlayNote(n: ProgressionNote, amplitude: real, channels: seq<int>, blend: bool,
                    relativeDuration: real, wave: Oscillator)
      requires Valid() && Ready(State()) && ChannelsWithin(channels, Channels(State()))
      requires n.time >= 0.0 && 0.0 <= relativeDuration <= 1.0
      modifies this, header
      ensures Valid()
      ensures State() == WavSynth.PlayNote(old(State()), n, amplitude, channels, blend, relativeDuration, wave)
    {
      if PlayedInFull(n, relativeDuration) {
        PlayFull(n, amplitude, channels, blend, relativeDuration, wave);
      } else {
        PlayShortened(n, amplitude, channels, blend, relativeDuration, wave);
      }
    }

    /** A rest, or a note when the relative duration is 1: one `writeNote`. */
    method PlayFull(n: ProgressionNote, amplitude: real, channels: seq<int>, blend: bool,
                    relativeDuration: real, wave: Oscillator)
      requires Valid() && Ready(State()) && ChannelsWithin(channels, Channels(State()))
      requires n.time >= 0.0 && 0.0 <= relativeDuration <= 1.0 && PlayedInFull(n, relativeDuration)
      modifies this, header
      ensures Valid()
      ensures State() == WavSynth.PlayNote(old(State()), n, amplitude, channels, blend, relativeDuration, wave)
    {
      WriteNote(n.note, n.time, NoteAmplitude(n, amplitude), channels, blend, false, wave);
      PlayNoteFull(old(State()), n, amplitude, channels, blend, relativeDuration, wave, State());
    }

    /** A note shortened by the relative duration, then a rest. */
    method PlayShortened(n: ProgressionNote, amplitude: real, channels: seq<int>, blend: bool,
                         relativeDuration: real, wave: Oscillator)
      requires Valid() && Ready(State()) && ChannelsWithin(channels, Channels(State()))
      requires n.time >= 0.0 && 0.0 <= relativeDuration <= 1.0 && !PlayedInFull(n, relativeDuration)
      modifies this, header
      ensures Valid()
      ensures State() == WavSynth.PlayNote(old(State()), n, amplitude, channels, blend, relativeDuration, wave)
    {
      WriteNoteAndRest(n.note, n.time, relativeDuration, NoteAmplitude(n, amplitude), channels, blend, wave);
      PlayNoteShortened(old(State()), n, amplitude, channels, blend, relativeDuration, wave, State());
    }

    /** A note for the fraction of `time`, then a rest for the remainder. */
    method WriteNoteAndRest(note: string, time: real, fraction: real, amplitude: real, channels: seq<int>, blend: bool, wave: Oscillator)
      requires Valid() && Ready(State()) && ChannelsWithin(channels, Channels(State()))
      requires time >= 0.0 && 0.0 <= fraction <= 1.0
      modifies this, header
      ensures Valid()
      ensures State() == NoteAndRest(old(State()), note, time, fraction, amplitude, channels, blend, wave)
    {
      WriteNote(note, Shortened(time, fraction), amplitude, channels, blend, false, wave);
      WriteNote("REST", Remainder(time, fraction), 1.0, channels, blend, false, wave);
    }
  }

  /** The sample data `writeNote` leaves: the listed channels (all of them
      when none are listed) of the blocks that exist are updated, the rest
      of the note is appended. */
  method NoteSamples(prior: seq<real>, start: nat, ch: nat, channels: seq<int>, blend: bool, s: Stroke) returns (r: seq<real>)
    requires ch > 0 && start <= |prior| && ChannelsWithin(channels, ch)
    ensures r == NoteData(prior, start, ch, Listed(channels, ch), blend, s)
    ensures |r| == Max(NoteEnd(start, s.blocksOut, ch), |prior|)
  {
    var blocksIn := BlocksIn(|prior|, start, ch, s.blocksOut);
    var listed := channels;
    if |listed| == 0 {
      listed := [];
      for i := 0 to ch
        invariant listed == Range(i)
      {
        listed := listed + [i];
      }
    }
    var skipChannel: seq<bool> := [];
    for i := 0 to ch
      invariant |skipChannel| == i
    {
      skipChannel := skipChannel + [i !in listed];
    }
    var updated := UpdateBlocks(prior, start, ch, blocksIn, listed, blend, s);
    r := AppendBlocks(updated, prior, start, ch, blocksIn, listed, blend, s, skipChannel);
  }

  /** The first loop of `writeNote`: the blocks that already exist. */
  method UpdateBlocks(prior: seq<real>, start: nat, ch: nat, blocksIn: nat, listed: seq<int>, blend: bool, s: Stroke)
    returns (r: seq<real>)
    requires ch > 0 && start + blocksIn * ch <= |prior| && ChannelsWithin(listed, ch)
    ensures |r| == |prior|
    ensures forall n :: 0 <= n < |r| ==> r[n] == UpdatedSample(prior, n, start, ch, blocksIn, listed, blend, s)
  {
    r := prior;
    for i := 0 to blocksIn
      invariant |r| == |prior|
      invariant forall n :: 0 <= n < |r| ==> r[n] == UpdatedSample(prior, n, start, ch, i, listed, blend, s)
    {
      MulMonotone(ch, i + 1, blocksIn);
      for j := 0 to |listed|
        invariant |r| == |prior|
        invariant forall n :: 0 <= n < |r| ==> r[n] == PartialSample(prior, n, start, ch, i, listed[..j], listed, blend, s)
      {
        var k := start + i * ch + listed[j];
        var d := StrokeValue(s, i);
        BlendOnce(prior[k], d, Count(listed[..j], listed[j]), blend);
        assert listed[..j + 1][..j] == listed[..j];
        r := r[k := d + (if blend then r[k] else 0.0)];
      }
      assert listed[..|listed|] == listed;
      forall n | 0 <= n < |r|
        ensures r[n] == UpdatedSample(prior, n, start, ch, i + 1, listed, blend, s)
      {
        if start + i * ch <= n < start + (i + 1) * ch {
          DivBlock(i, ch, n - start - i * ch);
        }
      }
    }
  }

  /** The second loop of `writeNote`: the blocks past the end of the data. */
  method AppendBlocks(updated: seq<real>, ghost prior: seq<real>, start: nat, ch: nat, blocksIn: nat, listed: seq<int>,
                      blend: bool, s: Stroke, skipChannel: seq<bool>) returns (r: seq<real>)
    requires ch > 0 && start <= |prior| && |skipChannel| == ch && blocksIn == BlocksIn(|prior|, start, ch, s.blocksOut)
    requires |updated| == |prior|
    requires forall n :: 0 <= n < |updated| ==> updated[n] == UpdatedSample(prior, n, start, ch, blocksIn, listed, blend, s)
    ensures r == NoteData(prior, start, ch, listed, blend, s)
  {
    ghost var target := NoteData(prior, start, ch, listed, blend, s);
    r := updated;
    forall n | 0 <= n < |r|
      ensures r[n] == if n < start + blocksIn * ch then target[n] else prior[n]
    {
      UpdatedIsNoteSample(prior, start, ch, listed, blend, s, n);
    }
    for i := blocksIn to s.blocksOut
      invariant |r| == Max(|prior|, start + i * ch) && start + i * ch <= |target|
      invariant forall n :: 0 <= n < |r| ==> r[n] == if n < start + i * ch then target[n] else prior[n]
    {
      var k := start + i * ch;
      AppendedBlock(prior, start, ch, listed, blend, s, i, k);
      r := AppendBlock(r, target, prior, k, ch, StrokeValue(s, i), skipChannel, s.pitch.Tone?);
      assert k + ch == start + (i + 1) * ch;
    }
    NoteDataTail(prior, start, ch, listed, blend, s);
  }

  /** One block of the append loop: the ch samples from write index k on
      get the note's value d, silence on unlisted channels when the note is
      a rest (whose value is 0 anyway). */
  method AppendBlock(written: seq<real>, ghost target: seq<real>, ghost prior: seq<real>, k: nat, ch: nat, d: real,
                     skipChannel: seq<bool>, tone: bool) returns (r: seq<real>)
    requires |skipChannel| == ch && k + ch <= |target| && |prior| <= |target| && (!tone ==> d == 0.0)
    requires forall n :: k <= n < k + ch ==> target[n] == d
    requires |written| == Max(|prior|, k)
    requires forall n :: 0 <= n < |written| ==> written[n] == if n < k then target[n] else prior[n]
    ensures |r| == Max(|prior|, k + ch)
    ensures forall n :: 0 <= n < |r| ==> r[n] == if n < k + ch then target[n] else prior[n]
  {
    r := written;
    for j := 0 to ch
      invariant |r| == Max(|prior|, k + j)
      invariant forall n :: 0 <= n < |r| ==> r[n] == if n < k + j then target[n] else prior[n]
    {
      var v := 0.0;
      if tone || !skipChannel[j] {
        v := d;
      }
      if k + j < |r| {
        r := r[k + j := v];
      } else {
        r := r + [v];
      }
    }
  }

  /** Typed-array stores of `bytes` from index `base` on: a store past the
      end of the buffer is ignored. */
  method StoreBytes(buffer: array<byte>, base: nat, bytes: seq<byte>)
    modifies buffer
    ensures forall p :: 0 <= p < buffer.Length ==>
      buffer[p] == if base <= p < base + |bytes| then bytes[p - base] else old(buffer[p])
  {
    for m := 0 to |bytes|
      invariant forall p :: 0 <= p < buffer.Length ==>
        buffer[p] == if base <= p < base + m then bytes[p - base] else old(buffer[p])
    {
      if base + m < buffer.Length {
        buffer[base + m] := bytes[m];
      }
    }
  }

  /** Sample n after the first i blocks of the update loop. */
  function UpdatedSample(prior: seq<real>, n: nat, start: nat, ch: nat, i: nat, listed: seq<int>, blend: bool, s: Stroke): real
    requires ch > 0 && n < |prior|
  {
    if start <= n < start + i * ch then
      Blend(prior[n], StrokeValue(s, (n - start) / ch), Count(listed, (n - start) % ch), blend)
    else prior[n]
  }

  /** Sample n while block i is written to the channels in `done`. */
  function PartialSample(prior: seq<real>, n: nat, start: nat, ch: nat, i: nat, done: seq<int>, listed: seq<int>,
                         blend: bool, s: Stroke): real
    requires ch > 0 && n < |prior|
  {
    if start + i * ch <= n < start + (i + 1) * ch then
      Blend(prior[n], StrokeValue(s, i), Count(done, n - start - i * ch), blend)
    else UpdatedSample(prior, n, start, ch, i, listed, blend, s)
  }

  /** Sample n of block i, which starts at k, lies in channel n - k of that block. */
  lemma BlockOf(n: nat, start: nat, ch: nat, i: nat, k: nat)
    requires ch > 0 && k == start + i * ch && k <= n < k + ch
    ensures (n - start) / ch == i && (n - start) % ch == n - k
  {
    EuclideanUnique(n - start, ch, i, n - k);
  }

  /** Sample n of block i, past the blocks that existed, holds the note's value. */
  lemma AppendedSample(prior: seq<real>, start: nat, ch: nat, listed: seq<int>, blend: bool, s: Stroke, i: nat, k: nat, n: nat)
    requires ch > 0 && start <= |prior| && BlocksIn(|prior|, start, ch, s.blocksOut) <= i < s.blocksOut
    requires k == start + i * ch && k <= n < k + ch
    ensures n < |NoteData(prior, start, ch, listed, blend, s)|
    ensures NoteData(prior, start, ch, listed, blend, s)[n] == StrokeValue(s, i)
  {
    var blocksIn := BlocksIn(|prior|, start, ch, s.blocksOut);
    MulMonotone(ch, blocksIn, i);
    MulMonotone(ch, i + 1, s.blocksOut);
    BlockOf(n, start, ch, i, k);
    assert start + blocksIn * ch <= n < start + s.blocksOut * ch;
    assert NoteSample(prior, n, start, ch, listed, blend, s) == StrokeValue(s, (n - start) / ch);
  }

  /** The update loop leaves each sample as the note's sample data says. */
  lemma UpdatedIsNoteSample(prior: seq<real>, start: nat, ch: nat, listed: seq<int>, blend: bool, s: Stroke, n: nat)
    requires ch > 0 && start <= |prior| && n < |prior|
    ensures n < |NoteData(prior, start, ch, listed, blend, s)|
    ensures var blocksIn := BlocksIn(|prior|, start, ch, s.blocksOut);
      UpdatedSample(prior, n, start, ch, blocksIn, listed, blend, s)
        == if n < start + blocksIn * ch then NoteData(prior, start, ch, listed, blend, s)[n] else prior[n]
  {
  }

  /** Block i of the append loop, which starts at k, holds the note's value on every channel. */
  lemma AppendedBlock(prior: seq<real>, start: nat, ch: nat, listed: seq<int>, blend: bool, s: Stroke, i: nat, k: nat)
    requires ch > 0 && start <= |prior| && BlocksIn(|prior|, start, ch, s.blocksOut) <= i < s.blocksOut
    requires k == start + i * ch
    ensures k + ch <= |NoteData(prior, start, ch, listed, blend, s)|
    ensures forall n :: k <= n < k + ch ==> NoteData(prior, start, ch, listed, blend, s)[n] == StrokeValue(s, i)
  {
    AppendedSample(prior, start, ch, listed, blend, s, i, k, k + ch - 1);
    forall n | k <= n < k + ch
      ensures NoteData(prior, start, ch, listed, blend, s)[n] == StrokeValue(s, i)
    {
      AppendedSample(prior, start, ch, listed, blend, s, i, k, n);
    }
  }

  /** Past the note's blocks the data is unchanged. */
  lemma NoteDataTail(prior: seq<real>, start: nat, ch: nat, listed: seq<int>, blend: bool, s: Stroke)
    requires ch > 0 && start <= |prior|
    ensures forall n :: start + s.blocksOut * ch <= n < |NoteData(prior, start, ch, listed, blend, s)| ==>
      NoteData(prior, start, ch, listed, blend, s)[n] == prior[n]
  {
  }

  /** One more write of d adds it (blending) or replaces the sample. */
  lemma BlendOnce(prior: real, d: real, times: nat, blend: bool)
    ensures Blend(prior, d, times + 1, blend) == d + (if blend then Blend(prior, d, times, blend) else 0.0)
  {
    if blend {
      assert (times + 1) as real * d == d + times as real * d;
    }
  }
}
