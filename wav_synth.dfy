/** What `seek`, `writeNote` and `writeProgression` of src/wav.js do to a
    WAV's state, as functions of the header's field values, the
    interleaved sample data and the write index. The oscillator (a sine of the note's
    frequency under a short linear fade) is a parameter of type
    `Oscillator`: all the model commits to is where each block's value
    goes. */
module WavSynth {
  import opened Common
  import opened WavHeader
  import opened WavPitch

  /** The normalised value of block i of a note: semitone, sample rate,
      block index, blocks written. The source's is
      sin(frequency i) times the fade envelope. */
  type Oscillator = (int, nat, nat, nat) -> real

  datatype WavState = WavState(header: HeaderFields, data: seq<real>, pointer: int)

  /** One note as `writeNote` renders it. */
  datatype Stroke = Stroke(pitch: Pitch, amplitude: real, sampleRate: nat, blocksOut: nat, wave: Oscillator)

  /** A note of a progression: `offset`, when present, is where it starts. */
  datatype ProgressionNote = ProgressionNote(note: string, time: real, amplitude: Option<real>, offset: Option<real>)

  function Min(a: int, b: int): int { if a <= b then a else b }
  function Max(a: int, b: int): int { if a >= b then a else b }

  /** Math.round: halves round up. */
  function Round(x: real): (r: int)
    ensures x - 0.5 < r as real <= x + 0.5
  {
    (x + 0.5).Floor
  }

  function Channels(st: WavState): nat { st.header.numChannels }

  /** The state the write operations expect: a full header, at least one
      channel, and a write index inside the data. */
  predicate Ready(st: WavState) {
    Channels(st) > 0 && 0 <= st.pointer <= |st.data|
  }

  predicate ChannelsWithin(channels: seq<int>, numChannels: nat) {
    forall j :: 0 <= j < |channels| ==> 0 <= channels[j] < numChannels
  }

  function Zeros(n: nat): (r: seq<real>)
    ensures |r| == n && forall i :: 0 <= i < n ==> r[i] == 0.0
  {
    seq(n, _ => 0.0)
  }

  /** The number of blocks `time` seconds last at the sample rate. */
  function BlocksAt(sampleRate: nat, time: real): nat
    requires time >= 0.0
  {
    assert sampleRate as real * time >= 0.0;
    Round(sampleRate as real * time)
  }

  /** `seek`: the write index moves to the block at `time` seconds; with
      `fill` the data is zero-padded up to it, without it the index goes to
      the end of the data. */
  function SeekState(st: WavState, time: real, fill: bool): (r: WavState)
    requires Ready(st) && time >= 0.0
    ensures Ready(r) && r.header == st.header && |r.data| >= |st.data|
  {
    var pointer := Channels(st) * BlocksAt(st.header.sampleRate, time);
    if fill then WavState(st.header, st.data + Zeros(Max(pointer - |st.data|, 0)), pointer)
    else WavState(st.header, st.data, |st.data|)
  }

  /** `tell`: the write index in seconds. */
  function TellSeconds(st: WavState): real
    requires st.header.numChannels > 0 && st.header.sampleRate > 0
  {
    st.pointer as real / st.header.numChannels as real / st.header.sampleRate as real
  }

  function Range(n: nat): (r: seq<int>)
    ensures |r| == n && forall i :: 0 <= i < n ==> r[i] == i
  {
    seq(n, i => i)
  }

  /** How many times channel c is listed. */
  function Count(channels: seq<int>, c: int): nat {
    if channels == [] then 0
    else Count(channels[..|channels| - 1], c) + (if channels[|channels| - 1] == c then 1 else 0)
  }

  /** An existing sample after `times` writes of d: added to it when
      blending, replaced otherwise. */
  function Blend(prior: real, d: real, times: nat, blend: bool): real {
    if times == 0 then prior else if blend then prior + times as real * d else d
  }

  /** The value the note writes into block i: silence for a rest. */
  function StrokeValue(s: Stroke, i: nat): real {
    if s.pitch.Tone? then s.amplitude * s.wave(s.pitch.semitone, s.sampleRate, i, s.blocksOut) else 0.0
  }

  lemma {:induction false} BlocksInFits(room: nat, ch: nat, blocksOut: nat)
    requires ch > 0
    ensures Min(room / ch, blocksOut) * ch <= room
  {
    var q := room / ch;
    MulMonotone(ch, Min(q, blocksOut), q);
    assert ch * q <= room;
  }

  /** The number of existing blocks a note updates rather than appends. */
  function BlocksIn(length: nat, start: nat, ch: nat, blocksOut: nat): (r: nat)
    requires ch > 0 && start <= length
    ensures r <= blocksOut && start + r * ch <= length
  {
    BlocksInFits(length - start, ch, blocksOut);
    Min((length - start) / ch, blocksOut)
  }

  /** Sample n after the note: blocks that already existed blend the value
      into the listed channels, blocks past the end get it on every
      channel, everything else is unchanged. */
  function NoteSample(prior: seq<real>, n: nat, start: nat, ch: nat, channels: seq<int>, blend: bool, s: Stroke): real
    requires ch > 0 && start <= |prior|
    requires n < Max(|prior|, start + s.blocksOut * ch)
  {
    var blocksIn := BlocksIn(|prior|, start, ch, s.blocksOut);
    if n < start then prior[n]
    else if n < start + blocksIn * ch then
      Blend(prior[n], StrokeValue(s, (n - start) / ch), Count(channels, (n - start) % ch), blend)
    else if n < start + s.blocksOut * ch then StrokeValue(s, (n - start) / ch)
    else prior[n]
  }

  function NoteData(prior: seq<real>, start: nat, ch: nat, channels: seq<int>, blend: bool, s: Stroke): (r: seq<real>)
    requires ch > 0 && start <= |prior|
    ensures |r| == Max(|prior|, start + s.blocksOut * ch)
  {
    seq(Max(|prior|, start + s.blocksOut * ch), n requires 0 <= n < Max(|prior|, start + s.blocksOut * ch) =>
      NoteSample(prior, n, start, ch, channels, blend, s))
  }

  /** The data size `writeNote` records: the samples times the bits per
      sample, as an unsigned 32-bit number, divided by 8. */
  function DataSize(samples: nat, bitsPerSample: nat): (r: nat)
    ensures r < 0x2000_0000
  {
    ((samples * bitsPerSample) % 0x1_0000_0000) / 8
  }

  function NoteStroke(st: WavState, note: string, time: real, amplitude: real, wave: Oscillator): Stroke
    requires time >= 0.0
  {
    var rate := st.header.sampleRate;
    var blocksOut := BlocksAt(rate, time);
    Stroke(Semitone(note), amplitude, rate, blocksOut, wave)
  }

  /** The write index after a note of `blocksOut` blocks written from `start`. */
  function NoteEnd(start: nat, blocksOut: nat, ch: nat): nat {
    start + blocksOut * ch
  }

  /** The channels `writeNote` writes: the listed ones, or all of them when
      none are listed. */
  function Listed(channels: seq<int>, ch: nat): seq<int> {
    if channels == [] then Range(ch) else channels
  }

  /** The header after `writeNote` records a data size: the RIFF chunk
      size and the data chunk size. */
  function Resized(h: HeaderFields, dataSize: nat): HeaderFields {
    h.(chunkSize := dataSize + HeaderLength - 8, subChunk2Size := dataSize)
  }

  /** The state after writing stroke s at the write index: the sample data
      of the note, the sizes recorded in the header, and the write index
      moved past the note unless it is reset. */
  function StrokeState(st: WavState, s: Stroke, channels: seq<int>, blend: bool, reset: bool): (r: WavState)
    requires Ready(st) && ChannelsWithin(channels, Channels(st))
    ensures Ready(r) && Channels(r) == Channels(st)
  {
    var ch := Channels(st);
    var data := NoteData(st.data, st.pointer, ch, Listed(channels, ch), blend, s);
    var h := Resized(st.header, DataSize(|data|, st.header.bitsPerSample));
    WavState(h, data, if reset then st.pointer else NoteEnd(st.pointer, s.blocksOut, ch))
  }

  /** `writeNote`. */
  function WriteNoteState(st: WavState, note: string, time: real, amplitude: real,
                          channels: seq<int>, blend: bool, reset: bool, wave: Oscillator): (r: WavState)
    requires Ready(st) && time >= 0.0 && ChannelsWithin(channels, Channels(st))
    ensures Ready(r) && Channels(r) == Channels(st)
  {
    StrokeState(st, NoteStroke(st, note, time, amplitude, wave), channels, blend, reset)
  }

  /** What a progression may contain: durations and offsets are not
      negative, and the relative duration is a fraction. */
  predicate ProgressionWellFormed(notes: seq<ProgressionNote>, relativeDuration: real) {
    && 0.0 <= relativeDuration <= 1.0
    && forall k :: 0 <= k < |notes| ==>
         notes[k].time >= 0.0 && (notes[k].offset.Some? ==> notes[k].offset.value >= 0.0)
  }

  /** A fraction of a duration: a duration no longer than it. */
  function Shortened(time: real, fraction: real): (r: real)
    requires time >= 0.0 && 0.0 <= fraction <= 1.0
    ensures 0.0 <= r <= time
  {
    assert time - time * fraction == time * (1.0 - fraction);
    time * fraction
  }

  /** The rest that completes a shortened note: what is left of `time`. */
  function Remainder(time: real, fraction: real): (r: real)
    requires time >= 0.0 && 0.0 <= fraction <= 1.0
    ensures 0.0 <= r <= time && Shortened(time, fraction) + r == time
  {
    time - Shortened(time, fraction)
  }

  /** A progression note's amplitude scales the progression's. */
  function NoteAmplitude(n: ProgressionNote, amplitude: real): real {
    if n.amplitude.Some? then n.amplitude.value * amplitude else amplitude
  }

  /** Rests, and every note when the relative duration is 1, are not shortened. */
  predicate PlayedInFull(n: ProgressionNote, relativeDuration: real) {
    relativeDuration == 1.0 || n.note == "REST"
  }

  /** A note for the fraction of `time`, then a rest for the remainder. */
  function NoteAndRest(st: WavState, note: string, time: real, fraction: real, amplitude: real,
                       channels: seq<int>, blend: bool, wave: Oscillator): (r: WavState)
    requires Ready(st) && ChannelsWithin(channels, Channels(st)) && time >= 0.0 && 0.0 <= fraction <= 1.0
    ensures Ready(r) && Channels(r) == Channels(st)
  {
    var st2 := WriteNoteState(st, note, Shortened(time, fraction), amplitude, channels, blend, false, wave);
    WriteNoteState(st2, "REST", Remainder(time, fraction), 1.0, channels, blend, false, wave)
  }

  /** A note of `writeProgression` written at the write index: in full,
      or shortened by the relative duration and followed by a rest. */
  function PlayNote(st: WavState, n: ProgressionNote, amplitude: real, channels: seq<int>,
                    blend: bool, relativeDuration: real, wave: Oscillator): (r: WavState)
    requires Ready(st) && ChannelsWithin(channels, Channels(st))
    requires n.time >= 0.0 && 0.0 <= relativeDuration <= 1.0
    ensures Ready(r) && Channels(r) == Channels(st)
  {
    var amp := NoteAmplitude(n, amplitude);
    if PlayedInFull(n, relativeDuration) then
      WriteNoteState(st, n.note, n.time, amp, channels, blend, false, wave)
    else
      NoteAndRest(st, n.note, n.time, relativeDuration, amp, channels, blend, wave)
  }

  /** A note played in full is one `writeNote`. */
  lemma PlayNoteFull(st: WavState, n: ProgressionNote, amplitude: real, channels: seq<int>,
                     blend: bool, relativeDuration: real, wave: Oscillator, r: WavState)
    requires Ready(st) && ChannelsWithin(channels, Channels(st))
    requires n.time >= 0.0 && 0.0 <= relativeDuration <= 1.0 && PlayedInFull(n, relativeDuration)
    requires r == WriteNoteState(st, n.note, n.time, NoteAmplitude(n, amplitude), channels, blend, false, wave)
    ensures r == PlayNote(st, n, amplitude, channels, blend, relativeDuration, wave)
  {
  }

  /** A shortened note is the note for the fraction of its time, then a
      rest for the remainder. */
  lemma PlayNoteShortened(st: WavState, n: ProgressionNote, amplitude: real, channels: seq<int>,
                          blend: bool, relativeDuration: real, wave: Oscillator, r: WavState)
    requires Ready(st) && ChannelsWithin(channels, Channels(st))
    requires n.time >= 0.0 && 0.0 <= relativeDuration <= 1.0 && !PlayedInFull(n, relativeDuration)
    requires r == NoteAndRest(st, n.note, n.time, relativeDuration, NoteAmplitude(n, amplitude), channels, blend, wave)
    ensures r == PlayNote(st, n, amplitude, channels, blend, relativeDuration, wave)
  {
  }

  /** Rounding two parts separately is at most one off rounding their sum. */
  lemma RoundSplit(x: real, y: real, z: real)
    requires x + y == z
    ensures -1 <= Round(x) + Round(y) - Round(z) <= 1
  {
  }

  /** The blocks of a shortened note and of its rest are those of the
      whole note, give or take one. */
  lemma ShortenedBlocks(rate: nat, time: real, fraction: real)
    requires time >= 0.0 && 0.0 <= fraction <= 1.0
    ensures -1 <= BlocksAt(rate, Shortened(time, fraction)) + BlocksAt(rate, Remainder(time, fraction)) - BlocksAt(rate, time) <= 1
  {
    var short, rest := Shortened(time, fraction), Remainder(time, fraction);
    var r := rate as real;
    assert r * short + r * rest == r * time;
    RoundSplit(r * short, r * rest, r * time);
  }

  /** `r` follows `st` after `blocks` blocks written at the write index:
      the samples before the index are kept, the index has moved past the
      blocks, and the channel count and sample rate are unchanged. */
  predicate Advanced(st: WavState, r: WavState, blocks: nat) {
    && 0 <= st.pointer <= |st.data| && st.pointer <= |r.data|
    && r.pointer == st.pointer + blocks * Channels(st)
    && r.data[..st.pointer] == st.data[..st.pointer]
    && r.header.numChannels == st.header.numChannels && r.header.sampleRate == st.header.sampleRate
  }

  /** A writeNote that keeps its index advances by the note's blocks. */
  lemma WriteNoteAdvances(st: WavState, note: string, time: real, amplitude: real,
                          channels: seq<int>, blend: bool, wave: Oscillator)
    requires Ready(st) && time >= 0.0 && ChannelsWithin(channels, Channels(st))
    ensures Advanced(st, WriteNoteState(st, note, time, amplitude, channels, blend, false, wave),
                     BlocksAt(st.header.sampleRate, time))
  {
    WriteNoteLayout(st, note, time, amplitude, channels, blend, false, wave);
  }

  /** Two advances in a row are one by both their blocks. */
  lemma AdvancedTwice(st: WavState, st2: WavState, r: WavState, b1: nat, b2: nat)
    requires Advanced(st, st2, b1) && Advanced(st2, r, b2)
    ensures Advanced(st, r, b1 + b2)
  {
    var ch := Channels(st);
    assert st.pointer + b1 * ch + b2 * ch == st.pointer + (b1 + b2) * ch;
    assert r.data[..st.pointer] == r.data[..st2.pointer][..st.pointer];
    assert st2.data[..st.pointer] == st2.data[..st2.pointer][..st.pointer];
  }

  /** A shortened note and its rest advance by the blocks of both. */
  lemma NoteAndRestEnd(st: WavState, note: string, time: real, fraction: real, amplitude: real,
                       channels: seq<int>, blend: bool, wave: Oscillator)
    requires Ready(st) && ChannelsWithin(channels, Channels(st)) && time >= 0.0 && 0.0 <= fraction <= 1.0
    ensures Advanced(st, NoteAndRest(st, note, time, fraction, amplitude, channels, blend, wave),
                     BlocksAt(st.header.sampleRate, Shortened(time, fraction)) + BlocksAt(st.header.sampleRate, Remainder(time, fraction)))
  {
    var short, rest := Shortened(time, fraction), Remainder(time, fraction);
    var st2 := WriteNoteState(st, note, short, amplitude, channels, blend, false, wave);
    WriteNoteAdvances(st, note, short, amplitude, channels, blend, wave);
    WriteNoteAdvances(st2, "REST", rest, 1.0, channels, blend, wave);
    AdvancedTwice(st, st2, WriteNoteState(st2, "REST", rest, 1.0, channels, blend, false, wave),
                  BlocksAt(st.header.sampleRate, short), BlocksAt(st.header.sampleRate, rest));
  }

  /** The blocks a note of `writeProgression` writes: those of its time in
      full, or those of the shortened note plus those of its rest. */
  function PlayNoteBlocks(rate: nat, n: ProgressionNote, relativeDuration: real): nat
    requires n.time >= 0.0 && 0.0 <= relativeDuration <= 1.0
  {
    if PlayedInFull(n, relativeDuration) then BlocksAt(rate, n.time)
    else BlocksAt(rate, Shortened(n.time, relativeDuration)) + BlocksAt(rate, Remainder(n.time, relativeDuration))
  }

  /** A note of `writeProgression` advances by its blocks, which differ
      from the blocks of its full time by at most one. */
  lemma PlayNoteEnd(st: WavState, n: ProgressionNote, amplitude: real, channels: seq<int>,
                    blend: bool, relativeDuration: real, wave: Oscillator)
    requires Ready(st) && ChannelsWithin(channels, Channels(st))
    requires n.time >= 0.0 && 0.0 <= relativeDuration <= 1.0
    ensures Advanced(st, PlayNote(st, n, amplitude, channels, blend, relativeDuration, wave),
                     PlayNoteBlocks(st.header.sampleRate, n, relativeDuration))
    ensures -1 <= PlayNoteBlocks(st.header.sampleRate, n, relativeDuration) - BlocksAt(st.header.sampleRate, n.time) <= 1
  {
    var r := PlayNote(st, n, amplitude, channels, blend, relativeDuration, wave);
    if PlayedInFull(n, relativeDuration) {
      FullNoteAdvances(st, n, amplitude, channels, blend, relativeDuration, wave, r);
    } else {
      ShortenedNoteAdvances(st, n, amplitude, channels, blend, relativeDuration, wave, r);
      ShortenedBlocks(st.header.sampleRate, n.time, relativeDuration);
    }
  }

  /** A note played in full advances by the blocks of its time. */
  lemma FullNoteAdvances(st: WavState, n: ProgressionNote, amplitude: real, channels: seq<int>,
                         blend: bool, relativeDuration: real, wave: Oscillator, r: WavState)
    requires Ready(st) && ChannelsWithin(channels, Channels(st))
    requires n.time >= 0.0 && 0.0 <= relativeDuration <= 1.0 && PlayedInFull(n, relativeDuration)
    requires r == PlayNote(st, n, amplitude, channels, blend, relativeDuration, wave)
    ensures Advanced(st, r, BlocksAt(st.header.sampleRate, n.time))
  {
    var amp := NoteAmplitude(n, amplitude);
    PlayNoteFull(st, n, amplitude, channels, blend, relativeDuration, wave,
                 WriteNoteState(st, n.note, n.time, amp, channels, blend, false, wave));
    WriteNoteAdvances(st, n.note, n.time, amp, channels, blend, wave);
  }

  /** A shortened note advances by the blocks of the note and of its rest. */
  lemma ShortenedNoteAdvances(st: WavState, n: ProgressionNote, amplitude: real, channels: seq<int>,
                              blend: bool, relativeDuration: real, wave: Oscillator, r: WavState)
    requires Ready(st) && ChannelsWithin(channels, Channels(st))
    requires n.time >= 0.0 && 0.0 <= relativeDuration <= 1.0 && !PlayedInFull(n, relativeDuration)
    requires r == PlayNote(st, n, amplitude, channels, blend, relativeDuration, wave)
    ensures Advanced(st, r, BlocksAt(st.header.sampleRate, Shortened(n.time, relativeDuration))
                            + BlocksAt(st.header.sampleRate, Remainder(n.time, relativeDuration)))
  {
    var amp := NoteAmplitude(n, amplitude);
    PlayNoteShortened(st, n, amplitude, channels, blend, relativeDuration, wave,
                      NoteAndRest(st, n.note, n.time, relativeDuration, amp, channels, blend, wave));
    NoteAndRestEnd(st, n.note, n.time, relativeDuration, amp, channels, blend, wave);
  }

  /** One note of `writeProgression`: seek to its offset, if it has one,
      then play it. */
  function ProgressionStep(st: WavState, n: ProgressionNote, amplitude: real, channels: seq<int>,
                           blend: bool, relativeDuration: real, wave: Oscillator): (r: WavState)
    requires Ready(st) && ChannelsWithin(channels, Channels(st))
    requires n.time >= 0.0 && (n.offset.Some? ==> n.offset.value >= 0.0) && 0.0 <= relativeDuration <= 1.0
    ensures Ready(r) && Channels(r) == Channels(st)
  {
    var st1 := if n.offset.Some? then SeekState(st, n.offset.value, true) else st;
    PlayNote(st1, n, amplitude, channels, blend, relativeDuration, wave)
  }

  function ProgressionFrom(st: WavState, notes: seq<ProgressionNote>, amplitude: real, channels: seq<int>,
                           blend: bool, relativeDuration: real, wave: Oscillator): (r: WavState)
    requires Ready(st) && ChannelsWithin(channels, Channels(st))
    requires ProgressionWellFormed(notes, relativeDuration)
    ensures Ready(r) && Channels(r) == Channels(st)
    decreases |notes|
  {
    if notes == [] then st
    else
      var st1 := ProgressionStep(st, notes[0], amplitude, channels, blend, relativeDuration, wave);
      ProgressionFrom(st1, notes[1..], amplitude, channels, blend, relativeDuration, wave)
  }

  /** `writeProgression`: the notes in turn, and with `reset` the write
      index back where it started. */
  function ProgressionState(st: WavState, notes: seq<ProgressionNote>, amplitude: real, channels: seq<int>,
                            blend: bool, reset: bool, relativeDuration: real, wave: Oscillator): (r: WavState)
    requires Ready(st) && ChannelsWithin(channels, Channels(st))
    requires ProgressionWellFormed(notes, relativeDuration)
  {
    var r := ProgressionFrom(st, notes, amplitude, channels, blend, relativeDuration, wave);
    if reset then r.(pointer := st.pointer) else r
  }

  // ---------------------------------------------------------------------
  // Properties

  /** `seek` with `fill` moves the write index to the block at `time` and
      zero-pads the data up to it, keeping every existing sample; without
      `fill` it leaves the data alone and moves the index to its end. */
  lemma SeekOutcome(st: WavState, time: real, fill: bool)
    requires Ready(st) && time >= 0.0
    ensures var r := SeekState(st, time, fill);
      var target := Channels(st) * BlocksAt(st.header.sampleRate, time);
      if fill then
        && r.pointer == target && |r.data| == Max(|st.data|, target) && r.data[..|st.data|] == st.data
        && (forall n :: |st.data| <= n < |r.data| ==> r.data[n] == 0.0)
      else r == st.(pointer := |st.data|)
  {
    var r := SeekState(st, time, fill);
    if fill {
      assert r.data[..|st.data|] == st.data;
    }
  }

  /** `tell` after a seek with `fill` is the time rounded to a whole block. */
  lemma TellAfterSeek(st: WavState, time: real)
    requires Ready(st) && time >= 0.0 && st.header.sampleRate > 0
    ensures TellSeconds(SeekState(st, time, true))
         == BlocksAt(st.header.sampleRate, time) as real / st.header.sampleRate as real
  {
    var ch := Channels(st);
    var b := BlocksAt(st.header.sampleRate, time);
    var r := SeekState(st, time, true);
    assert r.pointer == ch * b;
    assert r.pointer as real == ch as real * b as real;
    assert r.pointer as real / ch as real == b as real;
  }

  /** `writeNote` keeps every sample before the write index, makes the data
      as long as the note's end or longer, moves the index to the note's end
      unless it is reset, and records the new data size in the header,
      with the RIFF chunk size 36 more; the format fields are unchanged. */
  lemma WriteNoteLayout(st: WavState, note: string, time: real, amplitude: real,
                        channels: seq<int>, blend: bool, reset: bool, wave: Oscillator)
    requires Ready(st) && time >= 0.0 && ChannelsWithin(channels, Channels(st))
    ensures var r := WriteNoteState(st, note, time, amplitude, channels, blend, reset, wave);
      var end := st.pointer + BlocksAt(st.header.sampleRate, time) * Channels(st);
      && r.data[..st.pointer] == st.data[..st.pointer]
      && |r.data| == Max(|st.data|, end)
      && r.pointer == (if reset then st.pointer else end)
      && r.header.subChunk2Size == DataSize(|r.data|, st.header.bitsPerSample)
      && r.header.chunkSize == r.header.subChunk2Size + 36
      && r.header.numChannels == st.header.numChannels && r.header.sampleRate == st.header.sampleRate
      && r.header.bitsPerSample == st.header.bitsPerSample
  {
    var r := WriteNoteState(st, note, time, amplitude, channels, blend, reset, wave);
    var ch := Channels(st);
    var s := NoteStroke(st, note, time, amplitude, wave);
    assert r.data == NoteData(st.data, st.pointer, ch, Listed(channels, ch), blend, s);
    forall n | 0 <= n < st.pointer
      ensures r.data[n] == st.data[n]
    {
      assert r.data[n] == NoteSample(st.data, n, st.pointer, ch, Listed(channels, ch), blend, s);
    }
  }

  /** Whole blocks: the data and the write index are multiples of the
      number of channels. Seek and writeNote keep it; without it the
      samples of a partial last block are overwritten rather than blended. */
  predicate Aligned(st: WavState)
    requires Ready(st)
  {
    |st.data| % Channels(st) == 0 && st.pointer % Channels(st) == 0
  }

  lemma {:induction false} ProductSign(k: int, ch: int)
    requires ch > 0
    ensures k >= 1 ==> k * ch >= ch
    ensures k <= -1 ==> k * ch <= -ch
  {
    if k >= 1 {
      assert k * ch == ch + (k - 1) * ch;
    } else if k <= -1 {
      assert k * ch == -ch + (k + 1) * ch;
    }
  }

  /** A multiple of ch leaves no remainder. */
  lemma {:induction false} MultipleMod(q: int, ch: nat)
    requires ch > 0
    ensures (q * ch) % ch == 0
  {
    var a := q * ch;
    var d := a / ch;
    assert a == d * ch + a % ch;
    assert a % ch == (q - d) * ch;
    ProductSign(q - d, ch);
  }

  lemma {:induction false} MultipleAdd(a: nat, k: nat, ch: nat)
    requires ch > 0 && a % ch == 0
    ensures (a + k * ch) % ch == 0
  {
    var q := a / ch;
    assert a == q * ch;
    assert a + k * ch == (q + k) * ch;
    MultipleMod(q + k, ch);
  }

  lemma AlignedSeek(st: WavState, time: real, fill: bool)
    requires Ready(st) && Aligned(st) && time >= 0.0
    ensures Aligned(SeekState(st, time, fill))
  {
    var ch := Channels(st);
    var b := BlocksAt(st.header.sampleRate, time);
    MultipleMod(b, ch);
    assert ch * b == b * ch;
  }

  lemma AlignedWriteNote(st: WavState, note: string, time: real, amplitude: real,
                         channels: seq<int>, blend: bool, reset: bool, wave: Oscillator)
    requires Ready(st) && Aligned(st) && time >= 0.0 && ChannelsWithin(channels, Channels(st))
    ensures Aligned(WriteNoteState(st, note, time, amplitude, channels, blend, reset, wave))
  {
    var ch := Channels(st);
    MultipleAdd(st.pointer, BlocksAt(st.header.sampleRate, time), ch);
  }

  /** Whole blocks between the write index and the end of the data are
      all updated in place. */
  lemma {:induction false} WholeBlocksIn(length: nat, start: nat, ch: nat, blocksOut: nat)
    requires ch > 0 && start <= length && (length - start) % ch == 0
    ensures start + BlocksIn(length, start, ch, blocksOut) * ch == Min(length, start + blocksOut * ch)
  {
    var q := (length - start) / ch;
    assert length - start == q * ch;
    if q <= blocksOut {
      assert q * ch <= blocksOut * ch;
    } else {
      assert blocksOut * ch <= q * ch;
    }
  }

  lemma RestSample(prior: seq<real>, n: nat, start: nat, ch: nat, channels: seq<int>, s: Stroke)
    requires ch > 0 && start <= |prior| && s.pitch == Rest && (|prior| - start) % ch == 0
    requires n < Max(|prior|, start + s.blocksOut * ch)
    ensures NoteSample(prior, n, start, ch, channels, true, s) == if n < |prior| then prior[n] else 0.0
  {
    WholeBlocksIn(|prior|, start, ch, s.blocksOut);
    var t := Count(channels, (n - start) % ch);
    assert t as real * 0.0 == 0.0;
  }

  /** Blending a rest from a block boundary changes no existing sample and
      writes silence after them. */
  lemma RestStrokeSilent(prior: seq<real>, start: nat, ch: nat, channels: seq<int>, s: Stroke)
    requires ch > 0 && start <= |prior| && s.pitch == Rest && (|prior| - start) % ch == 0
    ensures var d := NoteData(prior, start, ch, channels, true, s);
      && d[..|prior|] == prior
      && forall n :: |prior| <= n < |d| ==> d[n] == 0.0
  {
    var d := NoteData(prior, start, ch, channels, true, s);
    forall n | 0 <= n < |d|
      ensures d[n] == if n < |prior| then prior[n] else 0.0
    {
      RestSample(prior, n, start, ch, channels, s);
    }
    assert d[..|prior|] == prior;
  }

  /** A rest blended in at a block boundary leaves every existing sample as
      it was and appends silence. */
  lemma RestIsSilent(st: WavState, time: real, channels: seq<int>, reset: bool, wave: Oscillator)
    requires Ready(st) && Aligned(st) && time >= 0.0 && ChannelsWithin(channels, Channels(st))
    ensures var r := WriteNoteState(st, "REST", time, 1.0, channels, true, reset, wave);
      && r.data[..|st.data|] == st.data
      && forall n :: |st.data| <= n < |r.data| ==> r.data[n] == 0.0
  {
    var ch := Channels(st);
    var s := NoteStroke(st, "REST", time, 1.0, wave);
    RestExamples();
    AlignedDifference(|st.data|, st.pointer, ch);
    RestStrokeSilent(st.data, st.pointer, ch, Listed(channels, ch), s);
  }

  lemma {:induction false} AlignedDifference(a: nat, b: nat, ch: nat)
    requires ch > 0 && a % ch == 0 && b % ch == 0 && b <= a
    ensures (a - b) % ch == 0
  {
    var p := a / ch;
    var q := b / ch;
    assert a == p * ch && b == q * ch;
    assert a - b == (p - q) * ch;
    MultipleMod(p - q, ch);
  }
}
