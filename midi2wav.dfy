/** midiToWav of src/midi2wav.js: reads the header and track chunks with
    MIDIStream, times them with a Timer, pairs note-ons with note-offs on
    per-pitch stacks, sorts the accounting events in place, sweeps them for
    the loudness factor and writes the progression into a mono WAV. Each
    stage is proved to compute the function of module Conversion that
    specifies it. */
module Midi2Wav {
  import opened Common
  import opened MidiFormat
  import opened Midi
  import opened Timing
  import opened WavSynth
  import opened Conversion
  import opened Wav
  import opened WavHeader

  /** One track chunk: a fresh stream over its body reads events while its
      offset is below the declared length; an array `Skip` stops the track
      after a string-valued event it matches, a function `Skip` decides
      from the whole track. */
  method ReadTrack(chunk: Chunk, rule: SkipRule) returns (r: Result<TrackRead>)
    ensures r == TrackOf(chunk, rule)
  {
    var filters := Filters(rule);
    var trackStream := new MIDIStream(chunk.data);
    var track: seq<Event> := [];
    var keep := true;
    PrependedNil(EventsFrom(chunk.data, chunk.length, filters, 0, 0));
    while keep && trackStream.byteOffset < chunk.length
      invariant trackStream.data == chunk.data
      invariant keep ==>
        EventsFrom(chunk.data, chunk.length, filters, 0, 0)
        == Prepended(track, EventsFrom(chunk.data, chunk.length, filters, trackStream.byteOffset, trackStream.lastEventTypeByte))
      invariant !keep ==> EventsFrom(chunk.data, chunk.length, filters, 0, 0) == Ok(TrackRead(track, false))
      decreases chunk.length - trackStream.byteOffset
    {
      ghost var before := track;
      var event := trackStream.ReadEvent();
      if event.Err? {
        return Err(event.failure);
      }
      var e := event.value;
      track := track + [e];
      if StringValue(e).Some? && rule.SkipList? {
        var matched := FilterMatch(e, filters);
        keep := !matched;
      }
      assert keep <==> !Matches(e, filters);
      if keep {
        PrependedAppend(before, [e], EventsFrom(chunk.data, chunk.length, filters, trackStream.byteOffset, trackStream.lastEventTypeByte));
      }
    }
    if keep {
      assert track + [] == track;
    }
    assert EventsFrom(chunk.data, chunk.length, filters, 0, 0) == Ok(TrackRead(track, keep));
    if rule.SkipWhen? {
      keep := !rule.drop(track);
    }
    return Ok(TrackRead(track, keep));
  }

  /** The scan of the `Skip` array for the first object whose entry for
      the event's `subType` is the event's string value. */
  method FilterMatch(e: Event, filters: seq<map<string, string>>) returns (matched: bool)
    requires StringValue(e).Some?
    ensures matched == Matches(e, filters)
  {
    var value := StringValue(e).value;
    var key := SubTypeName(e);
    for t := 0 to |filters|
      invariant forall u :: 0 <= u < t ==> !MatchesFilter(e, filters[u])
    {
      if key in filters[t] && filters[t][key] == value {
        return true;
      }
    }
    return false;
  }

  /** One pass of the track loop: a chunk is read, and an `MTrk` chunk is
      decoded into a track that the skip policy keeps or drops. */
  method ReadChunkTracks(midiStream: MIDIStream, rule: SkipRule) returns (r: Result<seq<seq<Event>>>)
    modifies midiStream
    ensures r == ChunkTracks(ChunkAt(midiStream.data, old(midiStream.byteOffset)).chunk, rule)
    ensures midiStream.byteOffset == ChunkAt(midiStream.data, old(midiStream.byteOffset)).next
  {
    var trackChunk := midiStream.ReadChunk();
    if trackChunk.id != "MTrk" {
      return Ok([]);
    }
    var track := ReadTrack(trackChunk, rule);
    if track.Err? {
      return Err(track.failure);
    }
    if track.value.keep {
      return Ok([track.value.events]);
    }
    return Ok([]);
  }

  /** The loop over `trackCount` chunks of the file stream, counted here
      by the chunks that remain to be read. */
  method ReadTracks(midiStream: MIDIStream, trackCount: nat, rule: SkipRule) returns (r: Result<seq<seq<Event>>>)
    modifies midiStream
    ensures r == TracksFrom(midiStream.data, old(midiStream.byteOffset), trackCount, rule)
    ensures r.Ok? ==> midiStream.byteOffset == ChunksEnd(midiStream.data, old(midiStream.byteOffset), trackCount)
  {
    ghost var buffer, start := midiStream.data, midiStream.byteOffset;
    var tracks: seq<seq<Event>> := [];
    var remaining := trackCount;
    ThenNil(TracksFrom(buffer, start, trackCount, rule));
    while remaining > 0
      invariant midiStream.data == buffer
      invariant TracksFrom(buffer, start, trackCount, rule)
             == Then(tracks, TracksFrom(buffer, midiStream.byteOffset, remaining, rule))
      invariant ChunksEnd(buffer, start, trackCount) == ChunksEnd(buffer, midiStream.byteOffset, remaining)
    {
      var added := ReadChunkTracks(midiStream, rule);
      if added.Err? {
        return Err(added.failure);
      }
      remaining := remaining - 1;
      ThenAppend(tracks, added.value, TracksFrom(buffer, midiStream.byteOffset, remaining, rule));
      tracks := tracks + added.value;
    }
    assert tracks + [] == tracks;
    return Ok(tracks);
  }

  /** The tempo loop over the first kept track: each `setTempo` adds a
      critical point with the ticks since the previous one. */
  method AddTempoPoints(timer: Timer, track: seq<Event>) returns (r: Result<()>)
    requires timer.criticalPoints == []
    modifies timer
    ensures match TempoPointsFrom(track, 0, 0)
      case Ok(points) => r.Ok? && timer.criticalPoints == points
      case Err(f) => r == Err(f)
  {
    var delta: nat := 0;
    ThenNil(TempoPointsFrom(track, 0, 0));
    for i := 0 to |track|
      invariant TempoPointsFrom(track, 0, 0) == Then(timer.criticalPoints, TempoPointsFrom(track, i, delta))
    {
      var event := track[i];
      delta := delta + event.delta;
      if IsSetTempo(event) {
        if !event.metaValue.Number? {
          return Err(UndefinedTempo);
        }
        ThenAppend(timer.criticalPoints, [CriticalPoint(delta, event.metaValue.number)], TempoPointsFrom(track, i + 1, 0));
        timer.AddCriticalPoint(delta, event.metaValue.number);
        delta := 0;
      }
    }
    assert timer.criticalPoints + [] == timer.criticalPoints;
    return Ok(());
  }

  /** The note loop over one track, with a fresh map of stacks: a note-on
      is pushed on the stack of its number with its start time, a note-off
      closes the last pending note of its number into a progression entry,
      and each adds an accounting event at its cumulative tick. */
  method PairTrack(track: seq<Event>, timer: Timer, acc: Pairing) returns (r: Result<Pairing>)
    ensures r == PairFrom(track, 0, 0, map[], acc, timer.criticalPoints, timer.ticksPerBeat)
  {
    var progression, events := acc.progression, acc.tallies;
    var delta: nat := 0;
    var stacks: Stacks := map[];
    for j := 0 to |track|
      invariant PairFrom(track, 0, 0, map[], acc, timer.criticalPoints, timer.ticksPerBeat)
             == PairFrom(track, j, delta, stacks, Pairing(progression, events), timer.criticalPoints, timer.ticksPerBeat)
    {
      var event := track[j];
      delta := delta + event.delta;
      if IsNoteOn(event) || IsNoteOff(event) {
        if timer.ticksPerBeat == 0 {
          return Err(ZeroTicksPerBeat);
        }
        var semitone := event.value.noteNumber;
        if IsNoteOn(event) {
          var velocity := event.value.velocity;
          var offset := timer.GetTime(delta);
          if semitone in stacks {
            stacks := stacks[semitone := stacks[semitone] + [Pending(offset, velocity)]];
          } else {
            stacks := stacks[semitone := [Pending(offset, velocity)]];
          }
          events := events + [Tally(velocity, delta, true)];
        } else {
          var note: Pending;
          if semitone !in stacks || stacks[semitone] == [] {
            note := Pending(0.0, 0);
          } else {
            var stack := stacks[semitone];
            note := stack[|stack| - 1];
            stacks := stacks[semitone := stack[..|stack| - 1]];
          }
          var now := timer.GetTime(delta);
          progression := progression + [Closed(semitone, now, note)];
          events := events + [Tally(note.velocity, delta, false)];
        }
      }
    }
    return Ok(Pairing(progression, events));
  }

  /** The note loop over every kept track, in order. */
  method PairNotes(tracks: seq<seq<Event>>, timer: Timer) returns (r: Result<Pairing>)
    ensures r == PairTracks(tracks, 0, Pairing([], []), timer.criticalPoints, timer.ticksPerBeat)
  {
    var acc := Pairing([], []);
    for i := 0 to |tracks|
      invariant PairTracks(tracks, 0, Pairing([], []), timer.criticalPoints, timer.ticksPerBeat)
             == PairTracks(tracks, i, acc, timer.criticalPoints, timer.ticksPerBeat)
    {
      var next := PairTrack(tracks[i], timer, acc);
      if next.Err? {
        return Err(next.failure);
      }
      acc := next.value;
    }
    return Ok(acc);
  }

  /** `events.sort` in place, by a stable insertion sort. */
  method SortTallies(a: array<Tally>)
    modifies a
    ensures a[..] == SortByTick(old(a[..]))
  {
    ghost var s := a[..];
    for i := 0 to a.Length
      invariant a[..i] == SortByTick(s[..i])
      invariant a[i..] == s[i..]
    {
      assert s[..i + 1][..i] == s[..i];
      assert a[i] == s[i];
      assert a[i + 1..] == s[i + 1..] by {
        assert a[i..][1..] == a[i + 1..];
      }
      InsertLast(a, i);
    }
    assert s[..a.Length] == s;
  }

  /** Moves a[i] down into the sorted a[..i], past every element that belongs after it. */
  method InsertLast(a: array<Tally>, i: nat)
    requires i < a.Length
    modifies a
    ensures a[..i + 1] == Insert(old(a[..i]), old(a[i]))
    ensures a[i + 1..] == old(a[i + 1..])
  {
    ghost var prefix := a[..i];
    var x := a[i];
    var j := i;
    assert prefix[..i] == prefix && prefix[i..] == [];
    while j > 0 && After(a[j - 1], x)
      invariant 0 <= j <= i
      invariant forall k :: 0 <= k < j ==> a[k] == prefix[k]
      invariant forall k :: j < k <= i ==> a[k] == prefix[k - 1]
      invariant forall k :: i < k < a.Length ==> a[k] == old(a[k])
      invariant Insert(prefix, x) == Insert(prefix[..j], x) + prefix[j..]
    {
      InsertShift(prefix, j, x);
      a[j] := a[j - 1];
      j := j - 1;
    }
    a[j] := x;
    InsertStop(prefix, j, x);
    assert a[..i + 1] == prefix[..j] + [x] + prefix[j..];
  }

  /** The normalisation sweep over the sorted accounting events. */
  method PeakVelocity(events: seq<Tally>) returns (maxVelocity: int)
    ensures maxVelocity == Peak(events)
  {
    maxVelocity := 1;
    var velocity := 1;
    for i := 0 to |events|
      invariant velocity == Level(events[..i]) && maxVelocity == Peak(events[..i])
    {
      var event := events[i];
      assert events[..i + 1][..i] == events[..i];
      if event.note {
        velocity := velocity + event.velocity;
        if velocity > maxVelocity {
          maxVelocity := velocity;
        }
      } else {
        velocity := velocity - event.velocity;
      }
    }
    assert events[..|events|] == events;
  }

  /** The timed branch: a Timer over the division, the tempo points of the
      first kept track, the pairing of every kept track, the sort of the
      accounting events and the sweep that gives the global amplitude. */
  method Render(tracks: seq<seq<Event>>, timeDivision: nat) returns (r: Result<Rendering>)
    ensures r == RenderTracks(tracks, timeDivision)
  {
    var timer := new Timer(timeDivision);
    if |tracks| == 0 {
      return Err(NoRetainedTrack);
    }
    var tempo := AddTempoPoints(timer, tracks[0]);
    if tempo.Err? {
      return Err(tempo.failure);
    }
    var pairing := PairNotes(tracks, timer);
    if pairing.Err? {
      return Err(pairing.failure);
    }
    var tallies := pairing.value.tallies;
    var events := new Tally[|tallies|](k requires 0 <= k < |tallies| => tallies[k]);
    assert events[..] == tallies;
    SortTallies(events);
    var maxVelocity := PeakVelocity(events[..]);
    var maxAmplitude := 128.0 / maxVelocity as real;
    return Ok(Rendering(pairing.value.progression, maxAmplitude));
  }

  /** The WAV midiToWav creates: mono, little-endian, no samples yet. */
  function MonoStart(sampleRate: nat, bitsPerSample: nat): (st: WavState)
    ensures Ready(st) && ChannelsWithin([0], Channels(st))
  {
    WavState(InitialFields(1, sampleRate, bitsPerSample, true, 0), [], 0)
  }

  /** The file stream reads the `MThd` chunk, and a stream over its body
      the format, the track count and the division. */
  method ReadHeader(midiStream: MIDIStream) returns (r: Result<FileHeader>)
    requires midiStream.byteOffset == 0
    modifies midiStream
    ensures r == HeaderAt(midiStream.data)
    ensures r.Ok? ==> midiStream.byteOffset == r.value.next
  {
    var header := midiStream.ReadChunk();
    if header.id != "MThd" || header.length != 6 {
      return Err(MalformedHeader);
    }
    var headerStream := new MIDIStream(header.data);
    var formatType := headerStream.ReadUint16();
    var trackCount := headerStream.ReadUint16();
    var timeDivision := headerStream.ReadUint16();
    return Ok(FileHeader(formatType, trackCount, timeDivision, midiStream.byteOffset));
  }

  /** The header, then `trackCount` chunks from the file stream. */
  method ReadMidiFile(buffer: seq<byte>, rule: SkipRule) returns (r: Result<FileTracks>)
    ensures r == ReadFile(buffer, rule)
  {
    var midiStream := new MIDIStream(buffer);
    var header := ReadHeader(midiStream);
    if header.Err? {
      return Err(header.failure);
    }
    var tracks := ReadTracks(midiStream, header.value.trackCount, rule);
    if tracks.Err? {
      return Err(tracks.failure);
    }
    return Ok(FileTracks(header.value.timeDivision, tracks.value));
  }

  /** A new mono, little-endian WAV with the progression written into it. */
  method WriteMono(rend: Rendering, sampleRate: nat, bitsPerSample: nat, duration: real, wave: Oscillator)
    returns (wav: WAV)
    requires ProgressionWellFormed(rend.progression, duration)
    ensures fresh(wav) && wav.Valid()
    ensures wav.State()
         == ProgressionState(MonoStart(sampleRate, bitsPerSample), rend.progression, rend.amplitude, [0], true, true,
                             duration, wave)
  {
    wav := new WAV(1, sampleRate, bitsPerSample, true, []);
    wav.WriteProgression(rend.progression, rend.amplitude, [0], true, true, duration, wave);
  }

  /** midiToWav: the header and the tracks; a division with its top bit set
      gives no WAV; otherwise the rendering is written as a progression into
      a new mono WAV with channels [0], blend and reset on. The sample rate,
      the bits per sample, the relative duration and the oscillator are the
      caller's; the result is exactly what Convert describes. */
  method MidiToWav(buffer: seq<byte>, rule: SkipRule, sampleRate: nat, bitsPerSample: nat, duration: real,
                   wave: Oscillator) returns (r: Result<Option<WAV>>)
    requires 0.0 <= duration <= 1.0
    ensures match Convert(buffer, rule)
      case Err(f) => r == Err(f)
      case Ok(None) => r == Ok(None)
      case Ok(Some(rend)) =>
        && r.Ok? && r.value.Some? && fresh(r.value.value) && r.value.value.Valid()
        && ProgressionWellFormed(rend.progression, duration)
        && r.value.value.State()
           == ProgressionState(MonoStart(sampleRate, bitsPerSample), rend.progression, rend.amplitude, [0], true, true,
                               duration, wave)
  {
    var file := ReadMidiFile(buffer, rule);
    if file.Err? {
      return Err(file.failure);
    }
    if file.value.timeDivision >= 0x8000 {
      return Ok(None);
    }
    var rendering := Render(file.value.tracks, file.value.timeDivision);
    if rendering.Err? {
      return Err(rendering.failure);
    }
    ConvertWellFormed(buffer, rule, duration);
    var wav := WriteMono(rendering.value, sampleRate, bitsPerSample, duration, wave);
    return Ok(Some(wav));
  }
}
