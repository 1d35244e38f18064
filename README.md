# synth-js core in Dafny

synth-js converts a Standard MIDI File into a WAV sound. This project
models the four source files that do that conversion.

- **`MIDIStream`** (src/midi.js) is a cursor over the file's bytes. It
  reads big-endian integers, variable-length quantities, strings and
  chunks. It decodes meta, system-exclusive and channel events, with
  running status.
- **`Timer`** (src/utils/timer.js) keeps the file's tempo changes and
  turns a tick count into seconds.
- **`midiToWav`** (src/midi2wav.js) is the driver. It checks the `MThd`
  header and reads the track chunks, dropping the ones a `Skip` rule
  matches. It builds the tempo timeline from the first retained track,
  pairs note-on and note-off events into a progression of notes, and
  normalises loudness by the busiest moment. Finally it writes the
  progression into a mono WAV.
- **`WAV`** (src/wav.js) holds a 44-byte RIFF/RIFX header and a growing
  list of samples. It provides note names ⇄ semitones, the header
  accessors, `seek`/`tell`, `writeNote`, `writeProgression` and the PCM
  encoding of `typedData`.

Modules follow the source:

- `Common`, `MidiFormat` and `Midi` cover `MIDIStream`:
  - `MidiFormat` holds the decoding functions;
  - `Midi` holds the class whose methods are proved to compute them.
- `Timing` covers `Timer`.
- `WavPitch`, `WavHeader`, `WavPcm`, `WavSynth` and `Wav` cover `WAV`:
  - `Wav` holds the class;
  - the others hold the functions its methods are proved against.
- `Conversion` and `Midi2Wav` cover `midiToWav`:
  - `Conversion` holds the functions and their properties;
  - `Midi2Wav` holds the imperative driver, proved equal to them.

Where the methods are plain loops in the source (`readString`,
`readVarUint` and `getTime`; the track, tempo, pairing, sort and sweep
loops of `midiToWav`; the sample loops of `writeNote` and the byte loops
of `typedData`), they are `while` loops. Each loop carries invariants
tying it to its specification function.

Sample synthesis is a parameter. A note's value at block `i` is
`wave(semitone, sampleRate, i, blocksOut)`, which stands for
`Math.sin` and the fade envelope. The note name, the sample rate, the
bits per sample and the relative duration are inputs.

## Model

| member | source | states |
|---|---|---|
| `Midi.MIDIStream.constructor` | src/midi.js:7-11 | the cursor starts at offset 0 with running status 0 over the given bytes |
| `Midi.MIDIStream.ReadString` | src/midi.js:17-28 | returns n characters, character i being the byte at offset+i (NUL past the end), and advances the offset by exactly n |
| `Midi.MIDIStream.ReadUint32` | src/midi.js:30-42 | the big-endian value of the next four bytes as a signed 32-bit number (negative when the top byte is at least 0x80); advances by 4 |
| `Midi.MIDIStream.ReadUint24` | src/midi.js:44-55 | the big-endian value of the next three bytes; advances by 3 |
| `Midi.MIDIStream.ReadUint16` | src/midi.js:57-67 | the big-endian value of the next two bytes; advances by 2 |
| `Midi.MIDIStream.ReadUint8` | src/midi.js:69-76 | the byte at the offset; advances by 1 |
| `Midi.MIDIStream.ReadInt8` | src/midi.js:78-89 | the byte as a two's-complement number (b, or b - 256 from 0x80); advances by 1 |
| `Midi.MIDIStream.ReadVarUint` | src/midi.js:91-101 | the value and end of the quantity `VarUintAt` decodes; on a quantity running off the end, None and the offset unchanged |
| `Midi.MIDIStream.Skip` | src/midi.js:106-108 | advances the offset by exactly the given length and changes nothing else |
| `Midi.MIDIStream.ReadChunk` | src/midi.js:110-124 | returns the chunk `ChunkAt` describes and moves the offset to its end, 8 + length bytes on, whether or not the body is used |
| `Midi.MIDIStream.ReadEvent` | src/midi.js:133-377 | returns the event `DecodeEventAt` decodes and moves offset and running status as it says; a failed read changes nothing |
| `Midi.MIDIStream.ReadMeta` | src/midi.js:145-262 | the meta event `DecodeMetaAt` decodes, running status untouched |
| `Midi.MIDIStream.ReadFixedValue` | src/midi.js:155-253 | the value of a fixed-size meta event of the expected length, read from exactly that many bytes |
| `Midi.MIDIStream.ReadSystem` | src/midi.js:264-296 | the system event `DecodeSysExAt` decodes, running status untouched |
| `Midi.MIDIStream.ReadChannel` | src/midi.js:298-375 | the channel event `DecodeChannelAt` decodes, with the running status it leaves |
| `MidiFormat.Padded` | src/midi.js:17-67 | n bytes from the offset, zero past the end, equal to the slice when in bounds |
| `MidiFormat.JsSlice` | src/midi.js:114-117 | `Uint8Array.slice` with negative and oversized indices clamped as JavaScript does, never longer than the data |
| `MidiFormat.Int8` | src/midi.js:78-89 | the two's-complement reading of a byte: between -128 and 127 and congruent to the byte modulo 256 |
| `MidiFormat.VarUintDefinedIff` | src/midi.js:91-101 | a quantity decodes exactly when a byte below 0x80 follows the offset within the data |
| `MidiFormat.VarUintEndsAtFinalByte` | src/midi.js:91-101 | decoding stops right after the first byte whose high bit is clear |
| `MidiFormat.VarUintRoundTrip` | src/midi.js:91-101 | the standard encoding of any value below 2^28 decodes back to the value, ending after the encoding |
| `MidiFormat.VarUintCanWrap` | src/midi.js:91-101 | a five-byte quantity wraps through the 32-bit shift to a negative value |
| `MidiFormat.SignedUint32` | src/midi.js:30-42 | the 32-bit read is negative exactly when the top byte is at least 0x80, and is the unsigned value less 2^32 then |
| `MidiFormat.ChunkFields` | src/midi.js:110-112 | the chunk id is the four characters at the offset and its length the signed 32-bit read after them |
| `MidiFormat.ChunkLayout` | src/midi.js:110-124 | the next offset is 8 + length on; within the data the id is the four bytes, the length is negative exactly for a top byte of 0x80 or more, and the body is the length bytes after the prefix; past the end the chunk is four NULs, length 0 and empty |
| `MidiFormat.MetaEventLayout` | src/midi.js:151-262 | a meta event decodes exactly when its payload fits (or is unparsed); it ends length bytes after the varint length and has a value exactly for text kinds and fixed-size kinds of the expected length |
| `MidiFormat.SetTempoValue` | src/midi.js:202-208 | setTempo carries the 24-bit big-endian microseconds per beat |
| `MidiFormat.DenominatorShift` | src/midi.js:230-238 | the time-signature denominator is 1 << raw with JavaScript's 5-bit shift count: 2^raw below 31, the sign bit at 31 |
| `MidiFormat.ChannelEventLayout` | src/midi.js:298-375 | running status keeps the remembered status and uses the read byte as data; a status byte replaces it; program change and channel aftertouch take one data byte, the others two; the channel is the low nibble, below 16 |
| `MidiFormat.NoteEventKind` | src/midi.js:320-341 | a note event is noteOff exactly for nibble 8 or nibble 9 with velocity 0, noteOn exactly for nibble 9 with a non-zero velocity, and carries note number and velocity |
| `MidiFormat.SystemEventPayload` | src/midi.js:264-296 | a system event decodes exactly when its non-negative length fits; its value is that many bytes as characters, sysEx for 0xF0 and dividedSysEx for 0xF7, running status untouched |
| `MidiFormat.RunningStatusExample` | src/midi.js:300-309 | a note-on with status 0x93 followed by one in running status with velocity 0 gives a noteOff on channel 3 |
| `MidiFormat.EventEndAsWritten` | src/midi.js:133-296 | where readEvent as written leaves offset and running status, with system events read with the corrected `length` binding: the same place as the corrected decoder wherever that one succeeds |
| `MidiFormat.DecodeEventAsWritten` | src/midi.js:264-296 | the decoder as written fails on every system-exclusive or unknown system event and otherwise agrees with the corrected one |
| `MidiFormat.SysExThrowsAsWritten` | src/midi.js:264-274 | the smallest sysEx event throws as written and decodes to a one-character payload when corrected |
| `Timing.Timer.constructor` | src/utils/timer.js:11-15 | a timer with the given ticks per beat and no tempo changes |
| `Timing.Timer.AddCriticalPoint` | src/utils/timer.js:22-27 | appends the tempo change at the end, keeping earlier ones and the ticks per beat |
| `Timing.Timer.GetTime` | src/utils/timer.js:32-57 | the loop computes `TimeFrom` of the tempo changes and changes no state |
| `Timing.TimeAtZero` | src/utils/timer.js:32-57 | zero ticks take zero seconds |
| `Timing.NoCriticalPoints` | src/utils/timer.js:32-57 | with no tempo changes, d ticks take d·500000/ticksPerBeat/10^6 seconds |
| `Timing.TempoSumBeforeChange` | src/utils/timer.js:39-54 | ticks before the first change run at the initial tempo |
| `Timing.TempoSumAfterChange` | src/utils/timer.js:39-54 | past a change, the first segment runs at the old tempo and the rest at the changed one |
| `Timing.TimeIsTempoSum` | src/utils/timer.js:32-57 | the time is the tick-by-tick sum of tempos, scaled by ticks per beat and 10^6 |
| `Timing.TimeOfNextTick` | src/utils/timer.js:32-57 | one more tick adds the length of one tick at the tempo in force at that tick |
| `Timing.BeyondLastChange` | src/utils/timer.js:51-54 | ticks beyond the sum of all change deltas run at the last change's tempo |
| `Timing.TempoSumMonotone` | src/utils/timer.js:39-54 | with non-negative tempos the tempo sum never decreases with the tick count |
| `Timing.TempoNonNegative` | src/utils/timer.js:36-51 | with non-negative tempos the tempo in force at every tick is non-negative |
| `Timing.TimeMonotone` | src/utils/timer.js:39-54 | with non-negative tempos and positive ticks per beat, time never decreases with the tick count |
| `Timing.TimerExample` | src/utils/timer.js:32-57 | one change (480, 600000) at 480 ticks per beat gives 0.25 s at 240 ticks and 0.8 s at 720 |
| `Conversion.HeaderAt` | src/midi2wav.js:12-22 | the header is malformed exactly unless the first chunk is `MThd` with length 6; the tracks then start at byte 14 and the division is a 16-bit word |
| `Conversion.HeaderOfBytes` | src/midi2wav.js:12-22 | from a well-formed header, format, track count and division are the three big-endian 16-bit words of its body, and the tracks start at byte 14 |
| `Conversion.StopsAtFirstMatch` | src/midi2wav.js:44-68 | decoding a track stops right after the first event a Skip list matches, that event kept; no earlier event matches; the track is kept exactly when no event matched |
| `Conversion.TrackOfRule` | src/midi2wav.js:39-75 | without Skip every track is kept; a Skip list stops at the first match and drops the track; a Skip function sees the whole track and keeps it exactly when it answers false |
| `Conversion.BackwardLength` | src/midi.js:91-101 | in the track 00 FF 01 8F FF FF FF 78, the text event's length decodes, through the 32-bit wrap, to -8 |
| `Conversion.BackwardLengthLoopsAsWritten` | src/midi2wav.js:43-67 | as written (readString adding the length -8 to the offset), that event ends at offset 0, where it began, so after any number of passes the track loop is back at offset 0 with the body not yet read |
| `Conversion.BackwardLengthRejected` | src/midi2wav.js:43-67 | corrected, that track fails with a negative length; and every accepted event moves the offset forward, so a track holds at most one event per byte of its body |
| `Conversion.TracksTemposDecoded` | src/midi2wav.js:28-79 | every retained track's setTempo values are non-negative |
| `Conversion.TempoPointsOfTrack` | src/midi2wav.js:90-99 | the tempo points come out one per setTempo of the first retained track; they fail exactly when a setTempo has no value, and are non-negative when the tempos are |
| `Conversion.TempoIndices` | src/midi2wav.js:90-99 | the positions of the setTempo events from i on, increasing, each one in range, and all of them |
| `Conversion.TempoPointsContents` | src/midi2wav.js:90-99 | point k comes from the k-th setTempo: its tempo is that event's value, and its delta counts the ticks since the previous setTempo, every event up to and including its own (for the first, since the start plus the ticks already counted) |
| `Conversion.TempoPointsExample` | src/midi2wav.js:90-99 | each point's delta counts the ticks since the previous setTempo, other events included |
| `Conversion.PopPush` | src/midi2wav.js:118-137 | a note-off pops the note-on last pushed for its number, leaving the stack as before |
| `Conversion.LastOnFirstOff` | src/midi2wav.js:118-144 | two overlapping note-ons of one note are closed last-on first-off: the first note-off ends the later note-on (velocity 50, 0.5 s from 0.5 s), the second the earlier one (velocity 100, 1.5 s from 0 s) |
| `Conversion.ClockMonotone` | src/midi2wav.js:120-141 | a note-off's time is never before its note-on's, both non-negative, so durations are non-negative |
| `Conversion.PairFromFails` | src/midi2wav.js:111-148 | pairing a track fails exactly when the division is 0 ticks per beat and the track has a note event |
| `Conversion.PairFromCounts` | src/midi2wav.js:111-148 | each note event appends one tally and each note-off one progression entry, earlier entries kept |
| `Conversion.PairIgnoresChannel` | src/midi2wav.js:111-148 | tracks differing only in their events' channels pair identically |
| `Conversion.PairFromWellTimed` | src/midi2wav.js:118-144 | with non-negative tempos every progression entry has a non-negative duration and offset |
| `Conversion.PairTracksWellTimed` | src/midi2wav.js:102-159 | over all retained tracks, each with fresh stacks, every entry is well-timed |
| `Conversion.PairTracksFails` | src/midi2wav.js:102-159 | pairing all tracks fails exactly for a 0 division with some note event |
| `Conversion.InsertAdds` | src/midi2wav.js:165-167 | one insertion step adds exactly its element |
| `Conversion.InsertByTick` | src/midi2wav.js:165-167 | one insertion step keeps the tallies ordered by tick, note-offs first on ties |
| `Conversion.SortByTickSorts` | src/midi2wav.js:165-167 | the sorted tallies are ordered by tick with note-offs first on ties, and a permutation of the input |
| `Conversion.Peak` | src/midi2wav.js:178-203 | the peak running velocity is at least 1 |
| `Conversion.PeakIsMaximum` | src/midi2wav.js:178-203 | the peak is at least the running velocity after every note-on, and is 1 or reached after some note-on |
| `Conversion.RenderTracksOutcome` | src/midi2wav.js:81-206 | rendering fails exactly with no retained track, a setTempo without a value, or a 0 division with notes; otherwise the notes are well-timed and the factor 128/peak lies in (0, 128] |
| `Conversion.ConvertWellFormed` | src/midi2wav.js:7-264 | a converted file's progression is one `writeProgression` accepts, with a factor in (0, 128] |
| `Conversion.UnmatchedNoteOffAsWritten` | src/midi2wav.js:136-143 | the note-off lookup as written agrees with the stack when a note-on is pending, reads no offset when there is no stack, and finds nothing in an emptied one |
| `Conversion.UnmatchedNoteOff` | src/midi2wav.js:133-147 | corrected, an unmatched note-off closes a silent note from time 0, leaving the stacks alone |
| `Midi2Wav.ReadTrack` | src/midi2wav.js:39-72 | the loop reads the events `TrackOf` describes, stopping at a Skip list match |
| `Midi2Wav.FilterMatch` | src/midi2wav.js:53-66 | true exactly when some Skip entry maps the event's subtype to its string value |
| `Midi2Wav.ReadChunkTracks` | src/midi2wav.js:33-78 | reads one chunk, moving the offset to its end, and yields `ChunkTracks` of it: its track when it is an `MTrk` chunk that is kept, nothing otherwise |
| `Midi2Wav.ReadTracks` | src/midi2wav.js:28-79 | exactly trackCount chunks are read, the result is `TracksFrom` and the offset ends after the last chunk |
| `Midi2Wav.AddTempoPoints` | src/midi2wav.js:90-99 | the timer gets `TempoPointsFrom` of the first retained track |
| `Midi2Wav.PairTrack` | src/midi2wav.js:107-158 | the loop over one track computes `PairFrom` with a fresh map |
| `Midi2Wav.PairNotes` | src/midi2wav.js:102-159 | the loop over the tracks computes `PairTracks` |
| `Midi2Wav.SortTallies` | src/midi2wav.js:165-167 | sorts the array in place into `SortByTick` of its contents |
| `Midi2Wav.InsertLast` | src/midi2wav.js:165-167 | one insertion step in place, giving `Insert` of the sorted prefix |
| `Midi2Wav.PeakVelocity` | src/midi2wav.js:178-203 | the sweep computes `Peak` of the sorted tallies |
| `Midi2Wav.Render` | src/midi2wav.js:81-206 | timer, pairing, sort and sweep compute `RenderTracks` |
| `Midi2Wav.MonoStart` | src/midi2wav.js:246-253 | a fresh mono WAV is ready and channel 0 is within it |
| `Midi2Wav.ReadHeader` | src/midi2wav.js:12-22 | the header read is `HeaderAt`, the cursor left at the first track |
| `Midi2Wav.ReadMidiFile` | src/midi2wav.js:12-79 | header and tracks read are `ReadFile` |
| `Midi2Wav.WriteMono` | src/midi2wav.js:246-264 | a new mono WAV holds the progression written with the factor, channels [0], blend and reset |
| `Midi2Wav.MidiToWav` | src/midi2wav.js:7-265 | fails as `Convert` fails, returns None for frames-per-second timing, and otherwise a fresh valid WAV whose state is the progression written into a mono WAV |
| `WavPitch.Note` | src/wav.js:32-49 | the name is REST exactly outside octaves -1 to 10 |
| `WavPitch.NoteRoundTrip` | src/wav.js:4-49 | every semitone from 0 to 143 names itself: semitone(note(s)) = s |
| `WavPitch.SemitoneExamples` | src/wav.js:4-30 | A4 is 69, C4# is 61, B-1b is 10 |
| `WavPitch.RestExamples` | src/wav.js:4-30 | an accidental before the octave, octave 11, letter H, octave 04, three sharps and REST all give REST |
| `WavPitch.NoteExamples` | src/wav.js:32-49 | 69 is A4, 61 is C4#, 144 and -1 are REST |
| `WavHeader.HeaderLayout` | src/wav.js:114-228 | the thirteen fields tile the 44-byte header in file order |
| `WavHeader.FieldsDisjoint` | src/wav.js:114-228 | no two fields overlap |
| `WavHeader.DecodeEncode` | src/wav.js:123-228 | an integer written to a field reads back modulo 256^width, in either byte order |
| `WavHeader.GetAfterSet` | src/wav.js:123-228 | a setter's value reads back from its getter modulo 256^width |
| `WavHeader.SetFieldFrame` | src/wav.js:96-228 | a setter leaves every other field's value and text as it was |
| `WavHeader.GetStringAfterSet` | src/wav.js:96-112 | a string of byte characters written to its field reads back |
| `WavHeader.InitialHeaderDecodes` | src/wav.js:57-93 | the constructor's header reads RIFF or RIFX, size 36, WAVE, fmt, 16, PCM, channels, rate, ch·rate·bytes, ch·bytes, bits, data, and samples·bytes, each modulo its width |
| `WavHeader.SetChunkSizeDecodes` | src/wav.js:123-125 | setting the chunk size changes only that field of the decoded header |
| `WavHeader.SetSubChunk2SizeDecodes` | src/wav.js:222-224 | setting the data size changes only that field of the decoded header |
| `Wav.WAV.constructor` | src/wav.js:57-93 | a fresh valid WAV whose header bytes are the initial header, with the given data, write index 0 and fixed byte order |
| `Wav.WAV.SetUint` | src/wav.js:123-224 | writes the value into exactly its field's bytes |
| `Wav.WAV.SetString` | src/wav.js:96-101 | writes the string's character codes into its field's bytes |
| `Wav.WAV.GetString` | src/wav.js:103-112 | reads the field's bytes as characters |
| `Wav.WAV.GetUint` | src/wav.js:127-228 | reads the field's integer in the header's byte order |
| `Wav.WAV.WriteHeader` | src/wav.js:80-92 | the thirteen setter calls of the constructor leave exactly the initial header in the header bytes |
| `Wav.WAV.NumChannels` | src/wav.js:172-174 | the channel count the header holds |
| `Wav.WAV.SampleRate` | src/wav.js:181-183 | the sample rate the header holds |
| `Wav.WAV.BitsPerSample` | src/wav.js:208-210 | the bits per sample the header holds |
| `Wav.WAV.SubChunk2Size` | src/wav.js:226-228 | the data size the header holds |
| `Wav.WAV.TypedData` | src/wav.js:232-336 | exactly SubChunk2Size bytes of PCM: 8-bit offset by 0x80, wider samples two's-complement in the header's byte order, with the 24-bit case corrected |
| `Wav.WAV.ToBuffer` | src/wav.js:344-346 | the header bytes followed by the PCM bytes |
| `Wav.WAV.Tell` | src/wav.js:351-353 | the write index divided by channels and by sample rate |
| `Wav.WAV.Seek` | src/wav.js:357-371 | the state becomes `SeekState` of the old one |
| `Wav.WAV.WriteNote` | src/wav.js:381-474 | the state becomes `WriteNoteState` of the old one |
| `Wav.WAV.WriteStroke` | src/wav.js:402-473 | the sample loops and the header update give `StrokeState` of the old state |
| `Wav.WAV.SetSizes` | src/wav.js:465-468 | ChunkSize becomes the data size plus 36 and SubChunk2Size the data size, samples and index unchanged |
| `Wav.WAV.SetChunkSize` | src/wav.js:123-125 | only the chunk size changes |
| `Wav.WAV.SetSubChunk2Size` | src/wav.js:222-224 | only the data size changes |
| `Wav.NoteSamples` | src/wav.js:403-462 | the update and append loops give `NoteData`, as long as the note's end or the old data |
| `Wav.UpdateBlocks` | src/wav.js:432-445 | the first blocksIn blocks from the write index get each listed channel's value added (blend) or written, once per listing; other samples are untouched |
| `Wav.AppendBlocks` | src/wav.js:447-462 | the blocks after the updated ones are written whole, giving `NoteData` |
| `Wav.AppendBlock` | src/wav.js:449-461 | one appended block sets its channels' samples to the note's value, silence for a rest |
| `Wav.StoreBytes` | src/wav.js:245-332 | the bytes land at their offsets in the buffer and nothing else changes |
| `Wav.WAV.WriteProgression` | src/wav.js:480-505 | the state becomes `ProgressionState`: each note after a zero-filling seek to its offset, in full or shortened and followed by a rest, and with reset the write index back at its start |
| `Wav.WAV.WriteProgressionNote` | src/wav.js:483-499 | one note of the loop gives `ProgressionStep`: a zero-filling seek to its offset when it has one, then the note |
| `Wav.WAV.PlayNote` | src/wav.js:490-499 | the note gives `WavSynth.PlayNote` of the old state |
| `Wav.WAV.WriteNoteAndRest` | src/wav.js:494-498 | the shortened note then the rest give `NoteAndRest` of the old state |
| `WavPcm.PcmSampleBytes` | src/wav.js:245-332 | the bytes of sample i are its quantised value in the header's byte order |
| `WavPcm.QuantiseSigned` | src/wav.js:250-332 | a 16-, 24- or 32-bit sample is the two's-complement of floor(x·(2^(bits-1) - 1)) |
| `WavPcm.QuantiseUnsigned` | src/wav.js:245-255 | an 8-bit sample is floor(127x + 128), from 1 to 255 |
| `WavPcm.SilenceIsMidpoint` | src/wav.js:245-332 | silence encodes as 0x80 in 8 bits and 0 wider |
| `WavPcm.PcmBytesAsWritten` | src/wav.js:279-332 | as many bytes as the data size, with the 24-bit case falling into the 32-bit one |
| `WavPcm.TwentyFourBitFallThrough` | src/wav.js:279-303 | samples [0, 1] in 24 bits encode as 00 00 00 FF FF 7F corrected and 00 00 00 00 FF FF as written |
| `WavSynth.SeekOutcome` | src/wav.js:357-371 | with fill, the write index is channels·round(rate·time) and the data is zero-padded up to it, existing samples kept; without fill, the data is unchanged and the index is its length |
| `WavSynth.TellAfterSeek` | src/wav.js:351-362 | tell after a filling seek is the time rounded to a whole block |
| `WavSynth.DataSize` | src/wav.js:465 | the size `writeNote` records, samples·bits as an unsigned 32-bit number shifted right by 3, is below 2^29 |
| `WavSynth.BlocksIn` | src/wav.js:407 | the blocks updated in place are at most the note's blocks and fit within the data |
| `WavSynth.WriteNoteLayout` | src/wav.js:381-474 | samples before the write index are kept; the data grows to max(old, start + blocksOut·channels); the index moves there unless reset; SubChunk2Size is the length·bits/8 and ChunkSize 36 more; the format fields are unchanged |
| `WavSynth.AlignedSeek` | src/wav.js:357-371 | seek keeps data length and write index whole numbers of blocks |
| `WavSynth.AlignedWriteNote` | src/wav.js:381-474 | writeNote keeps data length and write index whole numbers of blocks |
| `WavSynth.RestIsSilent` | src/wav.js:381-474 | a blended rest at a block boundary keeps every existing sample and appends silence |
| `WavSynth.Remainder` | src/wav.js:494-498 | a shortened note and its rest sum to the note's time |
| `WavSynth.ShortenedBlocks` | src/wav.js:494-498 | the blocks of a shortened note plus those of its rest are within one block of the blocks of the whole note |
| `WavSynth.NoteAndRestEnd` | src/wav.js:494-498 | a shortened note and its rest keep the samples before the write index and move it past the blocks of both, channels and rate unchanged |
| `WavSynth.PlayNoteEnd` | src/wav.js:490-499 | one note of writeProgression keeps the samples before the write index and moves it past its blocks, the full note's blocks or within one of them when shortened |

## Left out

- Host I/O and console logging are not modelled. This covers the `args.verbose` messages of `midiToWav`, including its `events[events.length - 1]` read, which fails on an empty list only when verbose. It also covers the chord count and the times of maximum velocity and chord, which only feed those messages.
- The oscillator is a parameter, not a definition. `WAV.frequency`, `Math.sin` and the 1 ms fade envelope are floating-point arithmetic over reals and are left out. The rounding of `Math.round` is modelled exactly.
- Floating-point behaviour is not modelled. Times, amplitudes and samples are exact reals, so rounding, NaN and Infinity are absent.
  - A division of 0 ticks per beat with note events, where the source's times are NaN or Infinity, gives `ZeroTicksPerBeat`.
  - Out-of-bounds event reads, which yield `undefined` in the source, give `OutOfBounds`.
  - The integer readers and `readString` read missing bytes as 0, as JavaScript's bitwise operators and `String.fromCharCode` do.
- `toBlob` is browser-specific and not modelled. `toBuffer` is modelled as the header bytes followed by `typedData`.
- The commented-out frames-per-second code of `midiToWav` is dead and not modelled. The unused `ticks` counter of the tempo loop is also left out.
- A `Skip` function is an opaque predicate on the list of events, and a `Skip` list only matches string-valued events, as in the source. Other kinds of `Skip` value act as no rule.
- The CLI defaults of 44100 Hz and 16 bits (src/wav.js:57) are not modelled; the sample rate and bits per sample are inputs of `MidiToWav`.
- `Midi2Wav.MidiToWav`: requires the relative duration to lie in [0, 1], where `writeProgression` is meaningful. The source takes any number, and `undefined` means 1.
- `Wav.WAV`: the sample list is a sequence field that its methods reassign. The aliasing of a `data` array that the caller passes to the constructor, and keeps, is not modelled.
- `Wav.WAV.WriteNote`: requires every listed channel to lie below the number of channels. The source writes, without complaint, samples at indices outside the block.
- `Wav.WAV.WriteNote`: the write index must lie within the data. The source's `data[k]` for k beyond the end would grow a sparse array.
- `Conversion.TempoPointsOfTrack`: a setTempo event without a value (a length other than 3) gives `UndefinedTempo`, and the whole conversion fails. The source stores a tempo change of `undefined`, and only the times `getTime` computes past that change are NaN. A file whose notes all lie before it, or a file with no notes, renders in the source but is rejected by the model.
- `Conversion.RenderTracksOutcome`: the same rejection of a setTempo without a value applies.
- `Conversion.RenderTracksOutcome`: if no track is retained, `tracks[0]` throws a TypeError at src/midi2wav.js:90. This is modelled as `Err(NoRetainedTrack)`.
- `Midi2Wav.SortTallies`: modelled as a stable insertion sort. That is the order the comparator gives under the stable `Array.prototype.sort` of ECMAScript 2019 and later. Older engines may order equal tallies differently.
- `WavSynth.RestIsSilent`: stated only for block-aligned states. A data length past the write index that is not a whole number of blocks overwrites the samples of the partial last block (src/wav.js:407, 448-461). Seek and writeNote keep states aligned.
- `Conversion.TracksTemposDecoded`: no lemma bounds the number of retained tracks by the track count. The loop reads exactly `trackCount` chunks, and that is stated by `Midi2Wav.ReadTracks`.
- `Midi.MIDIStream.ReadEvent`: a delta that wrapped below zero (a five-byte varint, see `MidiFormat.VarUintCanWrap`) gives `Err(NegativeLength)`. The source keeps the negative delta, so its tick totals run backwards (src/midi2wav.js:92, 113). A negative payload length is rejected as the meta and system lines below say.
- `MidiFormat.DecodeEventAt`: a delta that wrapped below zero (a five-byte varint, see `MidiFormat.VarUintCanWrap`) gives `Err(NegativeLength)`. The source keeps the negative delta, so its tick totals run backwards (src/midi2wav.js:92, 113). A negative payload length is rejected as the meta and system lines below say.
- `Midi.MIDIStream.ReadMeta`: a payload length that wrapped below zero gives `Err(NegativeLength)`. The source passes it to `readString` for the text kinds (src/midi.js:164-188, 256-260) and to `skip` for a fixed-size kind of another length (src/midi.js:157-251), and both move the offset back; only endOfTrack guards with `length > 0` (src/midi.js:199). The track loop can then run forever (see Findings).
- `MidiFormat.DecodeMetaAt`: a payload length that wrapped below zero gives `Err(NegativeLength)`. The source passes it to `readString` for the text kinds (src/midi.js:164-188, 256-260) and to `skip` for a fixed-size kind of another length (src/midi.js:157-251), and both move the offset back; only endOfTrack guards with `length > 0` (src/midi.js:199). The track loop can then run forever (see Findings).
- `MidiFormat.MetaEventLayout`: a payload length that wrapped below zero gives `Err(NegativeLength)`. The source passes it to `readString` for the text kinds (src/midi.js:164-188, 256-260) and to `skip` for a fixed-size kind of another length (src/midi.js:157-251), and both move the offset back; only endOfTrack guards with `length > 0` (src/midi.js:199). The track loop can then run forever (see Findings).
- `Midi.MIDIStream.ReadSystem`: a length that wrapped below zero gives `Err(NegativeLength)`. The source passes it to `readString` (src/midi.js:270-295), which moves the offset back; `skip` is not reached there. The track loop can then run forever (see Findings).
- `MidiFormat.DecodeSysExAt`: a length that wrapped below zero gives `Err(NegativeLength)`. The source passes it to `readString` (src/midi.js:270-295), which moves the offset back; `skip` is not reached there. The track loop can then run forever (see Findings).
- `MidiFormat.SystemEventPayload`: a length that wrapped below zero gives `Err(NegativeLength)`. The source passes it to `readString` (src/midi.js:270-295), which moves the offset back; `skip` is not reached there. The track loop can then run forever (see Findings).
- `MidiFormat.EventEndAsWritten`: models readEvent as written except for system events, which it reads with the corrected `length` binding. As written, those events throw (the first Findings row), so no end offset exists for them. It adds their varint length to the offset whatever its sign.
- The Findings below model each corrected behaviour and keep the as-written one beside it. The rest of the model uses the corrected behaviour. In particular, `Midi.MIDIStream.ReadEvent` and `MidiFormat.EventEndAsWritten` decode system events, and `Wav.WAV.TypedData` breaks after the 24-bit case.

## Findings

In four places the code as written does not do what it evidently means
to do. The rows below model the code as written and, beside it, the
corrected behaviour that the rest of the model uses.

- A system-exclusive event is a varint length followed by that many
  bytes, as the Standard MIDI File format lays it out and as the
  neighbouring meta-event code reads it.
- For an unmatched note-off, the comment at src/midi2wav.js:135 says "if
  no semitone, set empty note". The correction is the smallest repair of
  the code: a silent note (velocity 0) from time 0 to the note-off. That
  is not a zero-length note. It lasts until the note-off, and writing it
  grows the data up to that time.
- A negative length cannot mean a payload, and a track loop should end.
- `typedData` is meant to encode each sample once at the header's width.

| source | as written | input that shows it | evidently intended | confidence | as-written member | corrected member |
|---|---|---|---|---|---|---|
| src/midi.js:270, 281, 293 | `length = this.readVarUint()` assigns the `let length` declared at src/midi.js:152 in the same `switch` block, before its declaration has run | bytes 00 F0 01 41: a sysEx event with a one-byte payload throws a ReferenceError | read the varint length and then that many bytes as the payload | high for native ES2015 semantics; a build that lowers `let` to `var` would hide it; not executed | `MidiFormat.SysExThrowsAsWritten` | `MidiFormat.SystemEventPayload` |
| src/midi2wav.js:136-141 | an unmatched note-off takes the placeholder `[{offset: 0, velocity: 0}]`, an array, so its offset and velocity are undefined; a note-off whose stack has been emptied pops `undefined`, and reading its offset throws | a note-off of note 60 with no note-on: NaN duration and velocity; a second note-off of 60 after one pair: a TypeError | the empty note of the comment at src/midi2wav.js:135, repaired as a silent note from time 0 to the note-off, whose tally has velocity 0 | high; not executed | `Conversion.UnmatchedNoteOffAsWritten` | `Conversion.UnmatchedNoteOff` |
| src/midi.js:17-28, 91-101, 106-108; src/midi2wav.js:44 | a five-byte varint wraps below zero in 32 bits, and `readString` and `skip` add such a length to the offset anyway, moving it back | an `MTrk` body of 8 bytes, 00 FF 01 8F FF FF FF 78: a text event of length -8 that ends at offset 0, so without a Skip list the track loop rereads it forever | reject a negative length, so every event moves the offset forward and the loop ends | high; not executed | `Conversion.BackwardLengthLoopsAsWritten` | `Conversion.BackwardLengthRejected` |
| src/wav.js:279-303 | `case 3` of `typedData` has no `break`, so the 32-bit loop runs over the same buffer after the 24-bit one | two samples [0, 1] at 24 bits, little-endian: 00 00 00 00 FF FF instead of 00 00 00 FF FF 7F | stop after the 24-bit loop | high; not executed | `WavPcm.TwentyFourBitFallThrough` | `Wav.WAV.TypedData` |
