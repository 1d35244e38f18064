/** What midiToWav (src/midi2wav.js) computes from the bytes of a Standard
    MIDI File, stage by stage, as functions: the header chunk, the track
    chunks kept by the skip policy, the tempo points of the first kept
    track, the pairing of note-ons with note-offs, the accounting events
    sorted by tick, and the loudness factor their sweep yields. The methods
    of module Midi2Wav are proved to compute these functions. */
module Conversion {
  import opened Common
  import opened MidiFormat
  import opened Timing
  import opened WavPitch
  import opened WavSynth

  // ---------------------------------------------------------------------
  // The header chunk

  /** The three big-endian 16-bit words of the `MThd` chunk and the offset after it. */
  datatype FileHeader = FileHeader(formatType: nat, trackCount: nat, timeDivision: nat, next: int)

  /** readUint16 of a stream over `data` at `off`. */
  function Word(data: seq<byte>, off: int): nat {
    BigEndian(Padded(data, off, 2))
  }

  /** The first chunk must be an `MThd` chunk of length 6. */
  function HeaderAt(buffer: seq<byte>): (r: Result<FileHeader>)
    ensures r.Err? ==> r.failure == MalformedHeader
    ensures r.Ok? <==> ChunkAt(buffer, 0).chunk.id == "MThd" && ChunkAt(buffer, 0).chunk.length == 6
    ensures r.Ok? ==> r.value.next == 14 && r.value.timeDivision < 0x1_0000
  {
    var c := ChunkAt(buffer, 0);
    if c.chunk.id != "MThd" || c.chunk.length != 6 then Err(MalformedHeader)
    else
      BigEndianBound(Padded(c.chunk.data, 4, 2));
      Ok(FileHeader(Word(c.chunk.data, 0), Word(c.chunk.data, 2), Word(c.chunk.data, 4), c.next))
  }

  lemma BigEndianBound(s: seq<byte>)
    requires |s| == 2
    ensures BigEndian(s) < 0x1_0000
  {
    assert Pow256(2) == 0x1_0000;
  }

  // ---------------------------------------------------------------------
  // Tracks and the skip policy

  /** `args.Skip`: absent, an array of objects mapping a `subType` to a
      string `value`, or a function that decides from a whole track. */
  datatype SkipRule =
    | NoSkip
    | SkipList(filters: seq<map<string, string>>)
    | SkipWhen(drop: seq<Event> -> bool)

  /** The array the per-event check scans: empty unless `Skip` is an array. */
  function Filters(rule: SkipRule): seq<map<string, string>> {
    if rule.SkipList? then rule.filters else []
  }

  /** `filter[event.subType] === event.value`, for a string-valued event. */
  predicate MatchesFilter(e: Event, filter: map<string, string>) {
    StringValue(e).Some? && SubTypeName(e) in filter && filter[SubTypeName(e)] == StringValue(e).value
  }

  predicate Matches(e: Event, filters: seq<map<string, string>>) {
    exists t :: 0 <= t < |filters| && MatchesFilter(e, filters[t])
  }

  /** The events read from one track chunk and whether the track is kept. */
  datatype TrackRead = TrackRead(events: seq<Event>, keep: bool)

  function Prepended(prefix: seq<Event>, r: Result<TrackRead>): Result<TrackRead> {
    match r
    case Ok(t) => Ok(TrackRead(prefix + t.events, t.keep))
    case Err(f) => Err(f)
  }

  lemma PrependedNil(r: Result<TrackRead>)
    ensures Prepended([], r) == r
  {
    if r.Ok? {
      assert [] + r.value.events == r.value.events;
    }
  }

  lemma PrependedAppend(a: seq<Event>, b: seq<Event>, r: Result<TrackRead>)
    ensures Prepended(a, Prepended(b, r)) == Prepended(a + b, r)
  {
    if r.Ok? {
      assert a + (b + r.value.events) == (a + b) + r.value.events;
    }
  }

  /** The event loop of a track from offset `off` with running status
      `last`: events are read while the offset is below the chunk's
      declared length, and reading stops after an event that matches a filter. */
  function EventsFrom(data: seq<byte>, length: int, filters: seq<map<string, string>>, off: int, last: byte): Result<TrackRead>
    decreases length - off
  {
    if off >= length then Ok(TrackRead([], true))
    else
      match DecodeEventAt(data, off, last)
      case Err(f) => Err(f)
      case Ok(d) =>
        if Matches(d.event, filters) then Ok(TrackRead([d.event], false))
        else Prepended([d.event], EventsFrom(data, length, filters, d.next, d.last))
  }

  /** A track chunk read by a fresh stream over its body; a `Skip`
      function then decides from the whole track. */
  function TrackOf(c: Chunk, rule: SkipRule): Result<TrackRead> {
    match EventsFrom(c.data, c.length, Filters(rule), 0, 0)
    case Err(f) => Err(f)
    case Ok(t) => if rule.SkipWhen? then Ok(TrackRead(t.events, !rule.drop(t.events))) else Ok(t)
  }

  function Then<T>(prefix: seq<T>, r: Result<seq<T>>): Result<seq<T>> {
    match r
    case Ok(s) => Ok(prefix + s)
    case Err(f) => Err(f)
  }

  lemma ThenNil<T>(r: Result<seq<T>>)
    ensures Then([], r) == r
  {
    if r.Ok? {
      assert [] + r.value == r.value;
    }
  }

  lemma ThenAppend<T>(a: seq<T>, b: seq<T>, r: Result<seq<T>>)
    ensures Then(a, Then(b, r)) == Then(a + b, r)
  {
    if r.Ok? {
      assert a + (b + r.value) == (a + b) + r.value;
    }
  }

  /** The tracks one chunk adds: none for a chunk that is not `MTrk` or a
      track the skip policy drops. */
  function ChunkTracks(c: Chunk, rule: SkipRule): Result<seq<seq<Event>>> {
    if c.id != "MTrk" then Ok([])
    else
      match TrackOf(c, rule)
      case Err(f) => Err(f)
      case Ok(t) => Ok(if t.keep then [t.events] else [])
  }

  /** `count` chunks from `off` on, each chunk's tracks in file order. */
  function TracksFrom(buffer: seq<byte>, off: int, count: nat, rule: SkipRule): Result<seq<seq<Event>>>
    decreases count
  {
    if count == 0 then Ok([])
    else
      var cr := ChunkAt(buffer, off);
      match ChunkTracks(cr.chunk, rule)
      case Err(f) => Err(f)
      case Ok(ts) => Then(ts, TracksFrom(buffer, cr.next, count - 1, rule))
  }

  // ---------------------------------------------------------------------
  // Tempo points

  predicate IsSetTempo(e: Event) {
    e.Meta? && e.metaKind == SetTempo
  }

  /** The tempo loop over the first kept track from its event `i` on, with
      `delta` ticks since the last `setTempo`: every `setTempo` adds a
      point with the ticks since the previous one, and the count restarts. */
  function TempoPointsFrom(track: seq<Event>, i: nat, delta: nat): Result<seq<CriticalPoint>>
    requires i <= |track|
    decreases |track| - i
  {
    if i == |track| then Ok([])
    else
      var e := track[i];
      var d := delta + e.delta;
      if IsSetTempo(e) then
        if e.metaValue.Number? then Then([CriticalPoint(d, e.metaValue.number)], TempoPointsFrom(track, i + 1, 0))
        else Err(UndefinedTempo)
      else TempoPointsFrom(track, i + 1, d)
  }

  // ---------------------------------------------------------------------
  // Note pairing

  /** A note-on waiting for its note-off: start time in seconds and velocity. */
  datatype Pending = Pending(offset: real, velocity: int)

  /** An entry of the accounting list: velocity, cumulative tick and whether it is a note-on. */
  datatype Tally = Tally(velocity: int, delta: nat, note: bool)

  /** The progression and the accounting list built so far. */
  datatype Pairing = Pairing(progression: seq<ProgressionNote>, tallies: seq<Tally>)

  type Stacks = map<int, seq<Pending>>

  predicate IsNoteOn(e: Event) {
    e.Channel? && e.kind == NoteOn && e.value.NoteValue?
  }

  predicate IsNoteOff(e: Event) {
    e.Channel? && e.kind == NoteOff && e.value.NoteValue?
  }

  /** getTime at `delta` ticks. */
  function Clock(points: seq<CriticalPoint>, ticksPerBeat: int, delta: int): real
    requires ticksPerBeat != 0
  {
    TimeFrom(points, DefaultTempo, delta, ticksPerBeat)
  }

  /** A note-on pushes onto the stack of its note number, creating the stack if there is none. */
  function Push(stacks: Stacks, n: int, p: Pending): Stacks {
    if n in stacks then stacks[n := stacks[n] + [p]] else stacks[n := [p]]
  }

  /** The note a note-off closes: the last pending note-on of its number,
      or, when there is none, a silent note from time 0. */
  function Pop(stacks: Stacks, n: int): (Pending, Stacks) {
    if n in stacks && stacks[n] != [] then (stacks[n][|stacks[n]| - 1], stacks[n := stacks[n][..|stacks[n]| - 1]])
    else (Pending(0.0, 0), stacks)
  }

  /** The progression entry for note number `n` closed at `now` seconds. */
  function Closed(n: int, now: real, p: Pending): ProgressionNote {
    ProgressionNote(Note(n), now - p.offset, Some(p.velocity as real / 128.0), Some(p.offset))
  }

  /** The note loop over one track from event `j` on, `delta` ticks into
      the track, with the track's stacks and the pairing built so far. A
      note event needs the time, which a division of 0 ticks per beat
      leaves undefined. */
  function PairFrom(track: seq<Event>, j: nat, delta: nat, stacks: Stacks, acc: Pairing,
                    points: seq<CriticalPoint>, ticksPerBeat: int): Result<Pairing>
    requires j <= |track|
    decreases |track| - j
  {
    if j == |track| then Ok(acc)
    else
      var e := track[j];
      var d := delta + e.delta;
      if (IsNoteOn(e) || IsNoteOff(e)) && ticksPerBeat == 0 then Err(ZeroTicksPerBeat)
      else if IsNoteOn(e) then
        var n := e.value.noteNumber;
        var p := Pending(Clock(points, ticksPerBeat, d), e.value.velocity);
        PairFrom(track, j + 1, d, Push(stacks, n, p),
                 acc.(tallies := acc.tallies + [Tally(e.value.velocity, d, true)]), points, ticksPerBeat)
      else if IsNoteOff(e) then
        var n := e.value.noteNumber;
        var (p, rest) := Pop(stacks, n);
        var acc' := Pairing(acc.progression + [Closed(n, Clock(points, ticksPerBeat, d), p)],
                            acc.tallies + [Tally(p.velocity, d, false)]);
        PairFrom(track, j + 1, d, rest, acc', points, ticksPerBeat)
      else PairFrom(track, j + 1, d, stacks, acc, points, ticksPerBeat)
  }

  /** The kept tracks from track `i` on, each with a fresh map of stacks. */
  function PairTracks(tracks: seq<seq<Event>>, i: nat, acc: Pairing,
                      points: seq<CriticalPoint>, ticksPerBeat: int): Result<Pairing>
    requires i <= |tracks|
    decreases |tracks| - i
  {
    if i == |tracks| then Ok(acc)
    else
      match PairFrom(tracks[i], 0, 0, map[], acc, points, ticksPerBeat)
      case Err(f) => Err(f)
      case Ok(a) => PairTracks(tracks, i + 1, a, points, ticksPerBeat)
  }

  // ---------------------------------------------------------------------
  // Sorting and the loudness sweep

  /** The comparator `a.delta - b.delta || a.note - b.note` is positive:
      `a` belongs after `b`. */
  predicate After(a: Tally, b: Tally) {
    a.delta > b.delta || (a.delta == b.delta && a.note && !b.note)
  }

  /** By tick, and at equal ticks note-offs before note-ons. */
  predicate ByTick(s: seq<Tally>) {
    forall i, j :: 0 <= i < j < |s| ==> !After(s[i], s[j])
  }

  /** `x` inserted into `s` after every element it does not belong before. */
  function Insert(s: seq<Tally>, x: Tally): seq<Tally>
    decreases |s|
  {
    if s == [] || !After(s[|s| - 1], x) then s + [x]
    else Insert(s[..|s| - 1], x) + [s[|s| - 1]]
  }

  /** One step down: `x` belongs before p[j - 1]. */
  lemma InsertShift(p: seq<Tally>, j: nat, x: Tally)
    requires 0 < j <= |p| && After(p[j - 1], x)
    ensures Insert(p[..j], x) + p[j..] == Insert(p[..j - 1], x) + p[j - 1..]
  {
    assert p[..j][..j - 1] == p[..j - 1];
    assert p[j - 1..] == [p[j - 1]] + p[j..];
  }

  /** The place of `x`: after p[j - 1], or at the front. */
  lemma InsertStop(p: seq<Tally>, j: nat, x: Tally)
    requires j <= |p| && (j == 0 || !After(p[j - 1], x))
    ensures Insert(p[..j], x) + p[j..] == p[..j] + [x] + p[j..]
  {
  }

  /** The stable sort of `events.sort`: since ECMAScript 2019 the sort is
      stable, so the order of the result is determined by the comparator. */
  function SortByTick(s: seq<Tally>): seq<Tally>
    decreases |s|
  {
    if s == [] then [] else Insert(SortByTick(s[..|s| - 1]), s[|s| - 1])
  }

  /** The running velocity after the events of `s`: it starts at 1, a
      note-on adds its velocity and a note-off takes it away. */
  function Level(s: seq<Tally>): int
    decreases |s|
  {
    if s == [] then 1
    else
      var e := s[|s| - 1];
      Level(s[..|s| - 1]) + (if e.note then e.velocity else -e.velocity)
  }

  /** `maxVelocity` after the events of `s`: 1, raised to the running
      velocity whenever a note-on takes it higher. */
  function Peak(s: seq<Tally>): (r: int)
    ensures r >= 1
    decreases |s|
  {
    if s == [] then 1
    else
      var p := Peak(s[..|s| - 1]);
      if s[|s| - 1].note && Level(s) > p then Level(s) else p
  }

  // ---------------------------------------------------------------------
  // The conversion

  /** The notes handed to `writeProgression` and its global amplitude. */
  datatype Rendering = Rendering(progression: seq<ProgressionNote>, amplitude: real)

  /** The timed branch of midiToWav over the kept tracks. */
  function RenderTracks(tracks: seq<seq<Event>>, ticksPerBeat: int): Result<Rendering> {
    if tracks == [] then Err(NoRetainedTrack)
    else
      match TempoPointsFrom(tracks[0], 0, 0)
      case Err(f) => Err(f)
      case Ok(points) =>
        match PairTracks(tracks, 0, Pairing([], []), points, ticksPerBeat)
        case Err(f) => Err(f)
        case Ok(p) => Ok(Rendering(p.progression, 128.0 / Peak(SortByTick(p.tallies)) as real))
  }

  /** The division word and the kept tracks of a file. */
  datatype FileTracks = FileTracks(timeDivision: nat, tracks: seq<seq<Event>>)

  /** The header chunk, then `trackCount` chunks after it. */
  function ReadFile(buffer: seq<byte>, rule: SkipRule): Result<FileTracks> {
    match HeaderAt(buffer)
    case Err(f) => Err(f)
    case Ok(h) =>
      match TracksFrom(buffer, h.next, h.trackCount, rule)
      case Err(f) => Err(f)
      case Ok(tracks) => Ok(FileTracks(h.timeDivision, tracks))
  }

  /** midiToWav up to the WAV: a failure, `None` for a file timed in
      frames per second (top bit of the division set), or the rendering. */
  function Convert(buffer: seq<byte>, rule: SkipRule): Result<Option<Rendering>> {
    match ReadFile(buffer, rule)
    case Err(f) => Err(f)
    case Ok(file) =>
      if file.timeDivision >= 0x8000 then Ok(None)
      else
        match RenderTracks(file.tracks, file.timeDivision)
        case Err(f) => Err(f)
        case Ok(rend) => Ok(Some(rend))
  }

  // ---------------------------------------------------------------------
  // Properties of the header and the track chunks

  /** An `MThd` chunk of length 6 yields its three big-endian words, and
      the track chunks start at byte 14. */
  lemma HeaderOfBytes(buffer: seq<byte>)
    requires |buffer| >= 14 && buffer[..8] == [0x4D, 0x54, 0x68, 0x64, 0, 0, 0, 6]
    ensures HeaderAt(buffer) == Ok(FileHeader(buffer[8] as int * 0x100 + buffer[9], buffer[10] as int * 0x100 + buffer[11],
                                              buffer[12] as int * 0x100 + buffer[13], 14))
  {
    ChunkLayout(buffer, 0);
    var c := ChunkAt(buffer, 0);
    assert buffer[0..4] == buffer[..8][..4];
    assert c.chunk.id == "MThd";
    assert Padded(buffer, 4, 4) == [0, 0, 0, 6] by {
      assert buffer[4..8] == buffer[..8][4..];
    }
    BigEndianFour(0, 0, 0, 6);
    assert c.chunk.length == 6;
    var body := c.chunk.data;
    assert body == buffer[8..14];
    assert Padded(body, 0, 2) == body[0..2] == [buffer[8], buffer[9]];
    assert Padded(body, 2, 2) == body[2..4] == [buffer[10], buffer[11]];
    assert Padded(body, 4, 2) == body[4..6] == [buffer[12], buffer[13]];
    BigEndianTwo(buffer[8], buffer[9]);
    BigEndianTwo(buffer[10], buffer[11]);
    BigEndianTwo(buffer[12], buffer[13]);
  }

  /** The offset after `count` chunks read from `off`. */
  function ChunksEnd(buffer: seq<byte>, off: int, count: nat): int
    decreases count
  {
    if count == 0 then off else ChunksEnd(buffer, ChunkAt(buffer, off).next, count - 1)
  }

  /** Reading a track stops right after the first event that matches a
      filter, which is the last event read: no earlier event matches, and
      the track is dropped exactly when its last event matches. */
  lemma {:induction false} StopsAtFirstMatch(data: seq<byte>, length: int, filters: seq<map<string, string>>, off: int, last: byte)
    ensures EventsFrom(data, length, filters, off, last).Ok? ==>
      var t := EventsFrom(data, length, filters, off, last).value;
      (forall k :: 0 <= k < |t.events| - 1 ==> !Matches(t.events[k], filters)) &&
      (t.keep <==> t.events == [] || !Matches(t.events[|t.events| - 1], filters))
    decreases length - off
  {
    if off < length && DecodeEventAt(data, off, last).Ok? {
      var d := DecodeEventAt(data, off, last).value;
      if !Matches(d.event, filters) {
        StopsAtFirstMatch(data, length, filters, d.next, d.last);
        var rest := EventsFrom(data, length, filters, d.next, d.last);
        if rest.Ok? {
          var t := rest.value;
          assert EventsFrom(data, length, filters, off, last).value.events == [d.event] + t.events;
        }
      }
    }
  }

  /** What each form of `Skip` does to a track: without it every track is
      kept; with an array the track ends at the first matching event and is
      dropped exactly when it ended there; a function sees the whole track,
      as without `Skip`, and decides alone. */
  lemma TrackOfRule(c: Chunk, rule: SkipRule)
    ensures TrackOf(c, rule).Ok? ==>
      var t := TrackOf(c, rule).value;
      match rule
      case NoSkip => t.keep
      case SkipList(filters) =>
        (forall k :: 0 <= k < |t.events| - 1 ==> !Matches(t.events[k], filters)) &&
        (t.keep <==> t.events == [] || !Matches(t.events[|t.events| - 1], filters))
      case SkipWhen(drop) => TrackOf(c, NoSkip) == Ok(TrackRead(t.events, true)) && t.keep == !drop(t.events)
  {
    StopsAtFirstMatch(c.data, c.length, Filters(rule), 0, 0);
  }

  /** The track loop as written, without a Skip list, over a body of
      `length` bytes: the cursor after `n` more passes, or `None` once the
      loop has ended or a read has run off the end. */
  function TrackLoopAsWritten(data: seq<byte>, length: int, c: Cursor, n: nat): Option<Cursor>
    decreases n
  {
    if n == 0 then Some(c)
    else if c.offset >= length then None
    else
      match EventEndAsWritten(data, c.offset, c.last)
      case None => None
      case Some(c') => TrackLoopAsWritten(data, length, c', n - 1)
  }

  /** The eight-byte track body 00 FF 01 8F FF FF FF 78: a text event whose
      five-byte length wraps to -8. */
  function BackwardTrack(): seq<byte> {
    [0x00, 0xFF, 0x01, 0x8F, 0xFF, 0xFF, 0xFF, 0x78]
  }

  lemma BackwardLength()
    ensures VarUintAt(BackwardTrack(), 3) == Some(VarUint(-8, 8))
  {
    var d := BackwardTrack();
    assert d[3] == 0x8F && d[4] == 0xFF && d[5] == 0xFF && d[6] == 0xFF && d[7] == 0x78;
    assert Int32(0x1FF_FFFF * 128) == -128 by {
      assert 0x1FF_FFFF * 128 == 0xFFFF_FF80;
      assert 0xFFFF_FF80 % 0x1_0000_0000 == 0xFFFF_FF80;
    }
    assert Int32(0x3FFFF * 128) == 0x1FF_FF80;
    assert Int32(0x7FF * 128) == 0x3FF80;
    assert Int32(0xF * 128) == 0x780;
    assert Int32(0 * 128) == 0;
    assert VarUintFrom(d, 7, 0x1FF_FFFF) == Some(VarUint(-8, 8));
    assert VarUintFrom(d, 6, 0x3FFFF) == VarUintFrom(d, 7, 0x1FF_FFFF);
    assert VarUintFrom(d, 5, 0x7FF) == VarUintFrom(d, 6, 0x3FFFF);
    assert VarUintFrom(d, 4, 0xF) == VarUintFrom(d, 5, 0x7FF);
    assert VarUintFrom(d, 3, 0) == VarUintFrom(d, 4, 0xF);
  }

  /** As written, the event of BackwardTrack ends where it starts, so the
      track loop reads it again on every pass and never ends. */
  lemma {:induction false} BackwardLengthLoopsAsWritten(n: nat)
    ensures TrackLoopAsWritten(BackwardTrack(), 8, Cursor(0, 0), n) == Some(Cursor(0, 0))
  {
    BackwardLength();
    assert VarUintAt(BackwardTrack(), 0) == Some(VarUint(0, 1));
    assert EventEndAsWritten(BackwardTrack(), 0, 0) == Some(Cursor(0, 0));
    if n > 0 {
      BackwardLengthLoopsAsWritten(n - 1);
    }
  }

  /** The decoder rejects the wrapped length of BackwardTrack; and every
      event it accepts moves the offset forward, so the track loop reads at
      most one event per byte of the body and always ends. */
  lemma {:induction false} BackwardLengthRejected(data: seq<byte>, length: int, filters: seq<map<string, string>>, off: int, last: byte)
    ensures EventsFrom(BackwardTrack(), 8, filters, 0, 0) == Err(NegativeLength)
    ensures EventsFrom(data, length, filters, off, last).Ok? ==>
      |EventsFrom(data, length, filters, off, last).value.events| <= Max(length - off, 0)
    decreases length - off
  {
    BackwardLength();
    assert VarUintAt(BackwardTrack(), 0) == Some(VarUint(0, 1));
    if off < length && DecodeEventAt(data, off, last).Ok? {
      var d := DecodeEventAt(data, off, last).value;
      if !Matches(d.event, filters) {
        BackwardLengthRejected(data, length, filters, d.next, d.last);
      }
    }
  }

  // ---------------------------------------------------------------------
  // Properties of the tempo points

  /** The number of `setTempo` events in track[i..]. */
  function TempoCount(track: seq<Event>, i: nat): nat
    requires i <= |track|
    decreases |track| - i
  {
    if i == |track| then 0 else (if IsSetTempo(track[i]) then 1 else 0) + TempoCount(track, i + 1)
  }

  /** Every `setTempo` of the track that has a value has one that is not negative. */
  predicate TemposDecoded(track: seq<Event>) {
    forall k :: 0 <= k < |track| && IsSetTempo(track[k]) && track[k].metaValue.Number? ==> track[k].metaValue.number >= 0
  }

  predicate TemposNotNegative(points: seq<CriticalPoint>) {
    forall k :: 0 <= k < |points| ==> points[k].microsecondsPerBeat >= 0
  }

  /** The tempo loop fails exactly when a `setTempo` has no value; otherwise
      it adds one point per `setTempo` (TempoPointsContents says which). */
  lemma {:induction false} TempoPointsOfTrack(track: seq<Event>, i: nat, delta: nat)
    requires i <= |track|
    ensures TempoPointsFrom(track, i, delta).Err? <==>
      exists k :: i <= k < |track| && IsSetTempo(track[k]) && !track[k].metaValue.Number?
    ensures TempoPointsFrom(track, i, delta).Err? ==> TempoPointsFrom(track, i, delta).failure == UndefinedTempo
    ensures TempoPointsFrom(track, i, delta).Ok? ==>
      |TempoPointsFrom(track, i, delta).value| == TempoCount(track, i) &&
      (TemposDecoded(track) ==> TemposNotNegative(TempoPointsFrom(track, i, delta).value))
    decreases |track| - i
  {
    if i < |track| {
      var e := track[i];
      var d := delta + e.delta;
      if IsSetTempo(e) {
        if e.metaValue.Number? {
          TempoPointsOfTrack(track, i + 1, 0);
          var rest := TempoPointsFrom(track, i + 1, 0);
          if rest.Ok? {
            var points := [CriticalPoint(d, e.metaValue.number)] + rest.value;
            assert TempoPointsFrom(track, i, delta) == Ok(points);
            assert forall k :: 1 <= k < |points| ==> points[k] == rest.value[k - 1];
          } else {
            var k :| i + 1 <= k < |track| && IsSetTempo(track[k]) && !track[k].metaValue.Number?;
          }
        }
      } else {
        TempoPointsOfTrack(track, i + 1, d);
        if TempoPointsFrom(track, i + 1, d).Err? {
          var k :| i + 1 <= k < |track| && IsSetTempo(track[k]) && !track[k].metaValue.Number?;
        }
      }
    }
  }

  /** The ticks of track[a..b]: the sum of their deltas. */
  function DeltaSum(track: seq<Event>, a: nat, b: nat): nat
    requires a <= b <= |track|
    decreases b - a
  {
    if a == b then 0 else track[a].delta + DeltaSum(track, a + 1, b)
  }

  /** The positions of the `setTempo` events of track[i..], in order. */
  function TempoIndices(track: seq<Event>, i: nat): (r: seq<nat>)
    requires i <= |track|
    ensures |r| == TempoCount(track, i)
    ensures forall k :: 0 <= k < |r| ==> i <= r[k] < |track| && IsSetTempo(track[r[k]])
    ensures forall k, l :: 0 <= k < l < |r| ==> r[k] < r[l]
    ensures forall j :: i <= j < |track| && IsSetTempo(track[j]) ==> j in r
    decreases |track| - i
  {
    if i == |track| then [] else (if IsSetTempo(track[i]) then [i] else []) + TempoIndices(track, i + 1)
  }

  /** `points` is the tempo map of track[i..] with `delta` ticks already
      counted when `at` lists its `setTempo` events: point k is the k-th of
      them, its ticks are those since the previous `setTempo` (for the
      first, since `i`, plus `delta`), every event counted up to and
      including its own, and its tempo is that event's value. */
  predicate TempoMapOf(track: seq<Event>, i: nat, delta: nat, points: seq<CriticalPoint>, at: seq<nat>)
    requires i <= |track|
  {
    && |points| == |at|
    && (forall k :: 0 <= k < |at| ==> i <= at[k] < |track| && IsSetTempo(track[at[k]]))
    && (forall k :: 0 < k < |at| ==> at[k - 1] < at[k])
    && forall k :: 0 <= k < |points| ==>
         && track[at[k]].metaValue == Number(points[k].microsecondsPerBeat)
         && points[k].delta == if k == 0 then delta + DeltaSum(track, i, at[0] + 1)
                               else DeltaSum(track, at[k - 1] + 1, at[k] + 1)
  }

  /** The tempo loop builds the tempo map of the track's `setTempo` events. */
  lemma {:induction false} TempoPointsContents(track: seq<Event>, i: nat, delta: nat)
    requires i <= |track|
    ensures TempoPointsFrom(track, i, delta).Ok? ==>
      TempoMapOf(track, i, delta, TempoPointsFrom(track, i, delta).value, TempoIndices(track, i))
    decreases |track| - i
  {
    if i < |track| && TempoPointsFrom(track, i, delta).Ok? {
      var e := track[i];
      if IsSetTempo(e) {
        TempoPointsContents(track, i + 1, 0);
        var rest, at := TempoPointsFrom(track, i + 1, 0).value, TempoIndices(track, i + 1);
        assert TempoPointsFrom(track, i, delta).value == [CriticalPoint(delta + e.delta, e.metaValue.number)] + rest;
        assert TempoIndices(track, i) == [i] + at;
        TempoMapSetTempo(track, i, delta, rest, at);
      } else {
        TempoPointsContents(track, i + 1, delta + e.delta);
        var points, at := TempoPointsFrom(track, i + 1, delta + e.delta).value, TempoIndices(track, i + 1);
        assert TempoPointsFrom(track, i, delta).value == points;
        assert TempoIndices(track, i) == [] + at == at;
        TempoMapOther(track, i, delta, points, at);
      }
    }
  }

  /** A `setTempo` at i starts the map with its own point. */
  lemma TempoMapSetTempo(track: seq<Event>, i: nat, delta: nat, rest: seq<CriticalPoint>, at: seq<nat>)
    requires i < |track| && IsSetTempo(track[i]) && track[i].metaValue.Number?
    requires TempoMapOf(track, i + 1, 0, rest, at)
    ensures TempoMapOf(track, i, delta, [CriticalPoint(delta + track[i].delta, track[i].metaValue.number)] + rest, [i] + at)
  {
    var points := [CriticalPoint(delta + track[i].delta, track[i].metaValue.number)] + rest;
    var at' := [i] + at;
    assert DeltaSum(track, i + 1, i + 1) == 0;
    forall k | 1 <= k < |points|
      ensures points[k].delta == DeltaSum(track, at'[k - 1] + 1, at'[k] + 1)
    {
      assert points[k] == rest[k - 1] && at'[k] == at[k - 1];
      if k > 1 {
        assert at'[k - 1] == at[k - 2];
      }
    }
  }

  /** Any other event at i only adds its ticks to those of the first point. */
  lemma TempoMapOther(track: seq<Event>, i: nat, delta: nat, points: seq<CriticalPoint>, at: seq<nat>)
    requires i < |track| && TempoMapOf(track, i + 1, delta + track[i].delta, points, at)
    ensures TempoMapOf(track, i, delta, points, at)
  {
    if points != [] {
      assert DeltaSum(track, i, at[0] + 1) == track[i].delta + DeltaSum(track, i + 1, at[0] + 1);
    }
  }

  /** A tempo map: an event, a tempo change after 480 ticks, another 240
      ticks later; the second point counts the ticks since the first. */
  lemma TempoPointsExample()
    ensures TempoPointsFrom([Meta(0, SetTempo, Number(600000)),
                             Channel(480, 0, NoteOn, NoteValue(60, 100)),
                             Meta(240, SetTempo, Number(400000))], 0, 0)
         == Ok([CriticalPoint(0, 600000), CriticalPoint(720, 400000)])
  {
    var track := [Meta(0, SetTempo, Number(600000)), Channel(480, 0, NoteOn, NoteValue(60, 100)),
                  Meta(240, SetTempo, Number(400000))];
    assert TempoPointsFrom(track, 3, 0) == Ok([]);
    assert [CriticalPoint(720, 400000)] + [] == [CriticalPoint(720, 400000)];
    assert TempoPointsFrom(track, 2, 480) == Ok([CriticalPoint(720, 400000)]);
    assert TempoPointsFrom(track, 1, 0) == Ok([CriticalPoint(720, 400000)]);
    assert [CriticalPoint(0, 600000)] + [CriticalPoint(720, 400000)] == [CriticalPoint(0, 600000), CriticalPoint(720, 400000)];
  }

  /** A decoded `setTempo` carries the unsigned 24-bit value of its payload. */
  lemma DecodedTempo(data: seq<byte>, off: int, last: byte)
    ensures DecodeEventAt(data, off, last).Ok? ==>
      var e := DecodeEventAt(data, off, last).value.event;
      IsSetTempo(e) && e.metaValue.Number? ==> e.metaValue.number >= 0
  {
  }

  /** The tempos of every track read from a chunk are not negative. */
  lemma {:induction false} EventsTemposDecoded(data: seq<byte>, length: int, filters: seq<map<string, string>>, off: int, last: byte)
    ensures EventsFrom(data, length, filters, off, last).Ok? ==> TemposDecoded(EventsFrom(data, length, filters, off, last).value.events)
    decreases length - off
  {
    if off < length && DecodeEventAt(data, off, last).Ok? {
      var d := DecodeEventAt(data, off, last).value;
      DecodedTempo(data, off, last);
      if !Matches(d.event, filters) {
        EventsTemposDecoded(data, length, filters, d.next, d.last);
        var rest := EventsFrom(data, length, filters, d.next, d.last);
        if rest.Ok? {
          var events := [d.event] + rest.value.events;
          assert forall k :: 1 <= k < |events| ==> events[k] == rest.value.events[k - 1];
        }
      }
    }
  }

  /** The tracks of `count` chunks all have tempos that are not negative. */
  lemma {:induction false} TracksTemposDecoded(buffer: seq<byte>, off: int, count: nat, rule: SkipRule)
    ensures TracksFrom(buffer, off, count, rule).Ok? ==>
      forall t :: 0 <= t < |TracksFrom(buffer, off, count, rule).value| ==> TemposDecoded(TracksFrom(buffer, off, count, rule).value[t])
    decreases count
  {
    if count > 0 {
      var cr := ChunkAt(buffer, off);
      var head := ChunkTracks(cr.chunk, rule);
      var tail := TracksFrom(buffer, cr.next, count - 1, rule);
      TracksTemposDecoded(buffer, cr.next, count - 1, rule);
      if head.Ok? && tail.Ok? {
        EventsTemposDecoded(cr.chunk.data, cr.chunk.length, Filters(rule), 0, 0);
        assert forall t :: 0 <= t < |head.value| ==> TemposDecoded(head.value[t]);
        var all := head.value + tail.value;
        assert TracksFrom(buffer, off, count, rule) == Ok(all);
        assert forall t :: |head.value| <= t < |all| ==> all[t] == tail.value[t - |head.value|];
      }
    }
  }

  // ---------------------------------------------------------------------
  // Properties of the note pairing

  /** The last note pushed on a stack is the first one popped, and popping
      it leaves the stacks as they were before the push. */
  lemma PopPush(stacks: Stacks, n: int, p: Pending)
    ensures Pop(Push(stacks, n, p), n).0 == p
    ensures Pop(Push(stacks, n, p), n).1 == if n in stacks then stacks else stacks[n := []]
  {
    if n in stacks {
      assert (stacks[n] + [p])[..|stacks[n]|] == stacks[n];
      assert stacks[n := stacks[n]] == stacks;
    } else {
      assert [p][..0] == [];
    }
  }

  /** Two note-ons of note 60 at ticks 0 and 480, then two note-offs at 960 and 1440. */
  function OverlappingNotes(): seq<Event> {
    [Channel(0, 0, NoteOn, NoteValue(60, 100)), Channel(480, 0, NoteOn, NoteValue(60, 50)),
     Channel(480, 0, NoteOff, NoteValue(60, 0)), Channel(480, 0, NoteOff, NoteValue(60, 0))]
  }

  /** The two note-offs of OverlappingNotes, with both note-ons pending. */
  lemma OverlappingOffs()
    ensures
      var a, b := Pending(0.0, 100), Pending(0.5, 50);
      PairFrom(OverlappingNotes(), 2, 480, map[60 := [a, b]], Pairing([], [Tally(100, 0, true), Tally(50, 480, true)]), [], 480)
        == Ok(Pairing([Closed(60, 1.0, b), Closed(60, 1.5, a)],
                      [Tally(100, 0, true), Tally(50, 480, true), Tally(50, 960, false), Tally(100, 1440, false)]))
  {
    var track := OverlappingNotes();
    var a, b := Pending(0.0, 100), Pending(0.5, 50);
    assert Clock([], 480, 960) == 1.0 && Clock([], 480, 1440) == 1.5;
    var s1, s2 := map[60 := [a]], map[60 := [a, b]];
    assert Pop(s2, 60) == (b, s1) by {
      assert 60 in s2 && s2[60] == [a, b] && s2[60][..1] == [a];
      assert s2[60 := [a]] == s1;
    }
    assert Pop(s1, 60) == (a, map[60 := []]) by {
      assert 60 in s1 && s1[60] == [a] && s1[60][..0] == [];
      assert s1[60 := []] == map[60 := []];
    }
    var n1, n2 := Closed(60, 1.0, b), Closed(60, 1.5, a);
    var t2 := [Tally(100, 0, true), Tally(50, 480, true)];
    var t3 := t2 + [Tally(50, 960, false)];
    var t4 := t3 + [Tally(100, 1440, false)];
    assert [] + [n1] == [n1] && [n1] + [n2] == [n1, n2];
    assert t4 == [Tally(100, 0, true), Tally(50, 480, true), Tally(50, 960, false), Tally(100, 1440, false)];
    assert PairFrom(track, 4, 1440, map[60 := []], Pairing([n1, n2], t4), [], 480) == Ok(Pairing([n1, n2], t4));
    assert PairFrom(track, 3, 960, s1, Pairing([n1], t3), [], 480)
        == PairFrom(track, 4, 1440, map[60 := []], Pairing([n1] + [n2], t4), [], 480);
    assert PairFrom(track, 2, 480, s2, Pairing([], t2), [], 480)
        == PairFrom(track, 3, 960, s1, Pairing([] + [n1], t3), [], 480);
  }

  /** The two note-ons of OverlappingNotes push their notes on the stack of
      note 60, the later one on top, and tally them. */
  lemma OverlappingOns()
    ensures
      var a, b := Pending(0.0, 100), Pending(0.5, 50);
      PairFrom(OverlappingNotes(), 0, 0, map[], Pairing([], []), [], 480)
        == PairFrom(OverlappingNotes(), 2, 480, map[60 := [a, b]], Pairing([], [Tally(100, 0, true), Tally(50, 480, true)]), [], 480)
  {
    var track := OverlappingNotes();
    var a, b := Pending(0.0, 100), Pending(0.5, 50);
    var s1, s2 := map[60 := [a]], map[60 := [a, b]];
    var t1 := [Tally(100, 0, true)];
    var t2 := [Tally(100, 0, true), Tally(50, 480, true)];
    assert PairFrom(track, 0, 0, map[], Pairing([], []), [], 480)
        == PairFrom(track, 1, 0, s1, Pairing([], t1), [], 480) by {
      assert Clock([], 480, 0) == 0.0;
      assert Push(map[], 60, a) == s1;
      assert [] + t1 == t1;
    }
    assert PairFrom(track, 1, 0, s1, Pairing([], t1), [], 480)
        == PairFrom(track, 2, 480, s2, Pairing([], t2), [], 480) by {
      assert Clock([], 480, 480) == 0.5;
      assert Push(s1, 60, b) == s2 by {
        assert [a] + [b] == [a, b];
      }
      assert t1 + [Tally(50, 480, true)] == t2;
    }
  }

  /** Pairing is last in, first out: in OverlappingNotes, at the default
      tempo and 480 ticks per beat, the first note-off closes the later
      note-on (half a second from 0.5 s, velocity 50) and the second the
      earlier one (1.5 s from 0 s, velocity 100). */
  lemma LastOnFirstOff()
    ensures
      var r := PairFrom(OverlappingNotes(), 0, 0, map[], Pairing([], []), [], 480);
      r.Ok? && r.value.progression ==
        [ProgressionNote(Note(60), 0.5, Some(50.0 / 128.0), Some(0.5)),
         ProgressionNote(Note(60), 1.5, Some(100.0 / 128.0), Some(0.0))]
  {
    OverlappingOns();
    OverlappingOffs();
    var a, b := Pending(0.0, 100), Pending(0.5, 50);
    assert Closed(60, 1.0, b) == ProgressionNote(Note(60), 0.5, Some(50.0 / 128.0), Some(0.5));
    assert Closed(60, 1.5, a) == ProgressionNote(Note(60), 1.5, Some(100.0 / 128.0), Some(0.0));
  }

  /** The note-ons and note-offs of track[j..]. */
  function NoteCount(track: seq<Event>, j: nat): nat
    requires j <= |track|
    decreases |track| - j
  {
    if j == |track| then 0 else (if IsNoteOn(track[j]) || IsNoteOff(track[j]) then 1 else 0) + NoteCount(track, j + 1)
  }

  /** The note-offs of track[j..]. */
  function NoteOffCount(track: seq<Event>, j: nat): nat
    requires j <= |track|
    decreases |track| - j
  {
    if j == |track| then 0 else (if IsNoteOff(track[j]) then 1 else 0) + NoteOffCount(track, j + 1)
  }

  /** The note loop fails, with ZeroTicksPerBeat, exactly when a note
      event needs the time and the division is 0. */
  lemma {:induction false} PairFromFails(track: seq<Event>, j: nat, delta: nat, stacks: Stacks, acc: Pairing,
                                         points: seq<CriticalPoint>, ticksPerBeat: int)
    requires j <= |track|
    ensures var r := PairFrom(track, j, delta, stacks, acc, points, ticksPerBeat);
      (r.Err? <==> ticksPerBeat == 0 && NoteCount(track, j) > 0) && (r.Err? ==> r.failure == ZeroTicksPerBeat)
    decreases |track| - j
  {
    if j < |track| {
      var e := track[j];
      var d := delta + e.delta;
      if (IsNoteOn(e) || IsNoteOff(e)) && ticksPerBeat == 0 {
      } else if IsNoteOn(e) {
        var n := e.value.noteNumber;
        var p := Pending(Clock(points, ticksPerBeat, d), e.value.velocity);
        PairFromFails(track, j + 1, d, Push(stacks, n, p),
                      acc.(tallies := acc.tallies + [Tally(e.value.velocity, d, true)]), points, ticksPerBeat);
      } else if IsNoteOff(e) {
        var n := e.value.noteNumber;
        var (p, rest) := Pop(stacks, n);
        PairFromFails(track, j + 1, d, rest,
                      Pairing(acc.progression + [Closed(n, Clock(points, ticksPerBeat, d), p)],
                              acc.tallies + [Tally(p.velocity, d, false)]), points, ticksPerBeat);
      } else {
        PairFromFails(track, j + 1, d, stacks, acc, points, ticksPerBeat);
      }
    }
  }

  /** The note loop only appends: one accounting event per note-on or
      note-off, one progression entry per note-off. */
  lemma {:induction false} PairFromCounts(track: seq<Event>, j: nat, delta: nat, stacks: Stacks, acc: Pairing,
                                          points: seq<CriticalPoint>, ticksPerBeat: int)
    requires j <= |track|
    ensures var r := PairFrom(track, j, delta, stacks, acc, points, ticksPerBeat);
      (r.Ok? ==>
        |r.value.tallies| == |acc.tallies| + NoteCount(track, j) && r.value.tallies[..|acc.tallies|] == acc.tallies &&
        |r.value.progression| == |acc.progression| + NoteOffCount(track, j) &&
        r.value.progression[..|acc.progression|] == acc.progression)
    decreases |track| - j
  {
    if j < |track| {
      var e := track[j];
      var d := delta + e.delta;
      if (IsNoteOn(e) || IsNoteOff(e)) && ticksPerBeat == 0 {
      } else if IsNoteOn(e) {
        var n := e.value.noteNumber;
        var p := Pending(Clock(points, ticksPerBeat, d), e.value.velocity);
        var acc' := acc.(tallies := acc.tallies + [Tally(e.value.velocity, d, true)]);
        PairFromCounts(track, j + 1, d, Push(stacks, n, p), acc', points, ticksPerBeat);
        var r := PairFrom(track, j + 1, d, Push(stacks, n, p), acc', points, ticksPerBeat);
        if r.Ok? {
          PrefixOfPrefix(acc.tallies, Tally(e.value.velocity, d, true), r.value.tallies);
        }
      } else if IsNoteOff(e) {
        var n := e.value.noteNumber;
        var (p, rest) := Pop(stacks, n);
        var acc' := Pairing(acc.progression + [Closed(n, Clock(points, ticksPerBeat, d), p)],
                            acc.tallies + [Tally(p.velocity, d, false)]);
        PairFromCounts(track, j + 1, d, rest, acc', points, ticksPerBeat);
        var r := PairFrom(track, j + 1, d, rest, acc', points, ticksPerBeat);
        if r.Ok? {
          PrefixOfPrefix(acc.tallies, Tally(p.velocity, d, false), r.value.tallies);
          PrefixOfPrefix(acc.progression, Closed(n, Clock(points, ticksPerBeat, d), p), r.value.progression);
        }
      } else {
        PairFromCounts(track, j + 1, d, stacks, acc, points, ticksPerBeat);
      }
    }
  }

  lemma PrefixOfPrefix<T>(a: seq<T>, x: T, r: seq<T>)
    requires |r| >= |a| + 1 && r[..|a| + 1] == a + [x]
    ensures r[..|a|] == a
  {
    assert r[..|a|] == r[..|a| + 1][..|a|];
  }

  /** Every progression entry lasts a time that is not negative and starts at an offset that is not negative. */
  predicate NotesWellTimed(notes: seq<ProgressionNote>) {
    forall k :: 0 <= k < |notes| ==> notes[k].time >= 0.0 && (notes[k].offset.Some? ==> notes[k].offset.value >= 0.0)
  }

  /** Every pending note-on started between time 0 and `now`. */
  predicate PendingWithin(stacks: Stacks, now: real) {
    forall n, k :: n in stacks && 0 <= k < |stacks[n]| ==> 0.0 <= stacks[n][k].offset <= now
  }

  /** getTime is 0 at tick 0 and does not go back as the ticks grow. */
  lemma ClockMonotone(points: seq<CriticalPoint>, ticksPerBeat: int, d1: nat, d2: nat)
    requires ticksPerBeat > 0 && TemposNotNegative(points) && d1 <= d2
    ensures 0.0 <= Clock(points, ticksPerBeat, d1) <= Clock(points, ticksPerBeat, d2)
  {
    TimeAtZero(points, DefaultTempo, ticksPerBeat);
    TimeMonotone(points, DefaultTempo, 0, d1, ticksPerBeat);
    TimeMonotone(points, DefaultTempo, d1, d2, ticksPerBeat);
  }

  lemma PushWithin(stacks: Stacks, n: int, p: Pending, before: real, now: real)
    requires PendingWithin(stacks, before) && before <= now && 0.0 <= p.offset <= now
    ensures PendingWithin(Push(stacks, n, p), now)
  {
  }

  lemma PopWithin(stacks: Stacks, n: int, before: real, now: real)
    requires PendingWithin(stacks, before) && 0.0 <= before <= now
    ensures 0.0 <= Pop(stacks, n).0.offset <= now && PendingWithin(Pop(stacks, n).1, now)
  {
    if n in stacks && stacks[n] != [] {
      var s := stacks[n];
      assert 0.0 <= s[|s| - 1].offset <= now;
      var rest: Stacks := stacks[n := s[..|s| - 1]];
      forall m: int, k: int | m in rest && 0 <= k < |rest[m]|
        ensures 0.0 <= rest[m][k].offset <= now
      {
        if m == n {
          assert rest[m][k] == s[k];
        }
      }
    }
  }

  /** The note loop closes every note no earlier than it started: with
      tempos that are not negative, the pending note-ons lie between time 0
      and the current time, so each duration and offset is not negative. */
  lemma {:induction false} PairFromWellTimed(track: seq<Event>, j: nat, delta: nat, stacks: Stacks, acc: Pairing,
                                             points: seq<CriticalPoint>, ticksPerBeat: int)
    requires j <= |track| && ticksPerBeat >= 0 && TemposNotNegative(points)
    requires ticksPerBeat > 0 ==> PendingWithin(stacks, Clock(points, ticksPerBeat, delta))
    requires NotesWellTimed(acc.progression)
    ensures PairFrom(track, j, delta, stacks, acc, points, ticksPerBeat).Ok? ==>
      NotesWellTimed(PairFrom(track, j, delta, stacks, acc, points, ticksPerBeat).value.progression)
    decreases |track| - j
  {
    if j < |track| {
      var e := track[j];
      var d := delta + e.delta;
      if (IsNoteOn(e) || IsNoteOff(e)) && ticksPerBeat == 0 {
      } else if IsNoteOn(e) {
        ClockMonotone(points, ticksPerBeat, delta, d);
        var n := e.value.noteNumber;
        var p := Pending(Clock(points, ticksPerBeat, d), e.value.velocity);
        PushWithin(stacks, n, p, Clock(points, ticksPerBeat, delta), Clock(points, ticksPerBeat, d));
        PairFromWellTimed(track, j + 1, d, Push(stacks, n, p),
                          acc.(tallies := acc.tallies + [Tally(e.value.velocity, d, true)]), points, ticksPerBeat);
      } else if IsNoteOff(e) {
        ClockMonotone(points, ticksPerBeat, delta, d);
        var n := e.value.noteNumber;
        var now := Clock(points, ticksPerBeat, d);
        PopWithin(stacks, n, Clock(points, ticksPerBeat, delta), now);
        var (p, rest) := Pop(stacks, n);
        var progression := acc.progression + [Closed(n, now, p)];
        assert forall k :: 0 <= k < |acc.progression| ==> progression[k] == acc.progression[k];
        PairFromWellTimed(track, j + 1, d, rest, Pairing(progression, acc.tallies + [Tally(p.velocity, d, false)]),
                          points, ticksPerBeat);
      } else {
        if ticksPerBeat > 0 {
          ClockMonotone(points, ticksPerBeat, delta, d);
        }
        PairFromWellTimed(track, j + 1, d, stacks, acc, points, ticksPerBeat);
      }
    }
  }

  /** Two events that differ at most in their channel. */
  predicate SameButChannel(a: Event, b: Event) {
    a == b || (a.Channel? && b.Channel? && a.(channel := b.channel) == b)
  }

  /** Pairing ignores channels: tracks whose events differ only in their
      channels pair into the same progression and tallies. */
  lemma {:induction false} PairIgnoresChannel(track: seq<Event>, other: seq<Event>, j: nat, delta: nat, stacks: Stacks,
                                              acc: Pairing, points: seq<CriticalPoint>, ticksPerBeat: int)
    requires j <= |track| == |other|
    requires forall k :: j <= k < |track| ==> SameButChannel(track[k], other[k])
    ensures PairFrom(track, j, delta, stacks, acc, points, ticksPerBeat)
         == PairFrom(other, j, delta, stacks, acc, points, ticksPerBeat)
    decreases |track| - j
  {
    if j < |track| {
      var e, f := track[j], other[j];
      var d := delta + e.delta;
      assert f.delta == e.delta && (IsNoteOn(e) <==> IsNoteOn(f)) && (IsNoteOff(e) <==> IsNoteOff(f));
      assert (IsNoteOn(e) || IsNoteOff(e)) ==> f.value == e.value;
      if (IsNoteOn(e) || IsNoteOff(e)) && ticksPerBeat == 0 {
      } else if IsNoteOn(e) {
        var n := e.value.noteNumber;
        var p := Pending(Clock(points, ticksPerBeat, d), e.value.velocity);
        PairIgnoresChannel(track, other, j + 1, d, Push(stacks, n, p),
                           acc.(tallies := acc.tallies + [Tally(e.value.velocity, d, true)]), points, ticksPerBeat);
      } else if IsNoteOff(e) {
        var n := e.value.noteNumber;
        var (p, rest) := Pop(stacks, n);
        var acc' := Pairing(acc.progression + [Closed(n, Clock(points, ticksPerBeat, d), p)],
                            acc.tallies + [Tally(p.velocity, d, false)]);
        PairIgnoresChannel(track, other, j + 1, d, rest, acc', points, ticksPerBeat);
      } else {
        PairIgnoresChannel(track, other, j + 1, d, stacks, acc, points, ticksPerBeat);
      }
    }
  }

  /** Every kept track's note loop keeps the progression well timed. */
  lemma {:induction false} PairTracksWellTimed(tracks: seq<seq<Event>>, i: nat, acc: Pairing,
                                               points: seq<CriticalPoint>, ticksPerBeat: int)
    requires i <= |tracks| && ticksPerBeat >= 0 && TemposNotNegative(points)
    requires NotesWellTimed(acc.progression)
    ensures PairTracks(tracks, i, acc, points, ticksPerBeat).Ok? ==>
      NotesWellTimed(PairTracks(tracks, i, acc, points, ticksPerBeat).value.progression)
    decreases |tracks| - i
  {
    if i < |tracks| {
      PairFromWellTimed(tracks[i], 0, 0, map[], acc, points, ticksPerBeat);
      var r := PairFrom(tracks[i], 0, 0, map[], acc, points, ticksPerBeat);
      if r.Ok? {
        PairTracksWellTimed(tracks, i + 1, r.value, points, ticksPerBeat);
      }
    }
  }

  /** The note-ons and note-offs of the tracks from track `i` on. */
  function TracksNoteCount(tracks: seq<seq<Event>>, i: nat): nat
    requires i <= |tracks|
    decreases |tracks| - i
  {
    if i == |tracks| then 0 else NoteCount(tracks[i], 0) + TracksNoteCount(tracks, i + 1)
  }

  /** Pairing the kept tracks fails, with ZeroTicksPerBeat, exactly when
      the division is 0 and some track has a note event. */
  lemma {:induction false} PairTracksFails(tracks: seq<seq<Event>>, i: nat, acc: Pairing,
                                           points: seq<CriticalPoint>, ticksPerBeat: int)
    requires i <= |tracks|
    ensures var r := PairTracks(tracks, i, acc, points, ticksPerBeat);
      (r.Err? <==> ticksPerBeat == 0 && TracksNoteCount(tracks, i) > 0) && (r.Err? ==> r.failure == ZeroTicksPerBeat)
    decreases |tracks| - i
  {
    if i < |tracks| {
      PairFromFails(tracks[i], 0, 0, map[], acc, points, ticksPerBeat);
      var r := PairFrom(tracks[i], 0, 0, map[], acc, points, ticksPerBeat);
      if r.Ok? {
        PairTracksFails(tracks, i + 1, r.value, points, ticksPerBeat);
      }
    }
  }

  // ---------------------------------------------------------------------
  // Properties of the sort and the sweep

  /** Inserting adds exactly `x`. */
  lemma {:induction false} InsertAdds(s: seq<Tally>, x: Tally)
    ensures multiset(Insert(s, x)) == multiset(s) + multiset{x}
    decreases |s|
  {
    if s != [] && After(s[|s| - 1], x) {
      InsertAdds(s[..|s| - 1], x);
      assert s == s[..|s| - 1] + [s[|s| - 1]];
    }
  }

  /** Inserting into a sorted list keeps it sorted. */
  lemma {:induction false} InsertByTick(s: seq<Tally>, x: Tally)
    requires ByTick(s)
    ensures ByTick(Insert(s, x))
    decreases |s|
  {
    if s == [] || !After(s[|s| - 1], x) {
      var r := s + [x];
      forall i, j | 0 <= i < j < |r|
        ensures !After(r[i], r[j])
      {
        if j == |s| && i < |s| - 1 {
          assert !After(s[i], s[|s| - 1]);
        }
      }
    } else {
      var init, last := s[..|s| - 1], s[|s| - 1];
      assert s == init + [last];
      InsertByTick(init, x);
      InsertAdds(init, x);
      var m := Insert(init, x);
      var r := m + [last];
      forall i, j | 0 <= i < j < |r|
        ensures !After(r[i], r[j])
      {
        if j == |m| {
          assert r[i] in multiset(init) + multiset{x} by {
            assert r[i] in multiset(m);
          }
          if r[i] != x {
            var k :| 0 <= k < |init| && init[k] == r[i];
            assert !After(s[k], s[|s| - 1]);
          }
        }
      }
    }
  }

  /** `events.sort` with the comparator: sorted by tick, note-offs first
      at equal ticks, and a permutation of the accounting events. */
  lemma {:induction false} SortByTickSorts(s: seq<Tally>)
    ensures ByTick(SortByTick(s)) && multiset(SortByTick(s)) == multiset(s)
    decreases |s|
  {
    if s != [] {
      SortByTickSorts(s[..|s| - 1]);
      InsertByTick(SortByTick(s[..|s| - 1]), s[|s| - 1]);
      InsertAdds(SortByTick(s[..|s| - 1]), s[|s| - 1]);
      assert s == s[..|s| - 1] + [s[|s| - 1]];
    }
  }

  /** `maxVelocity` is at least the running velocity after every note-on,
      and unless it is still 1 it is the running velocity after one of them. */
  lemma {:induction false} PeakIsMaximum(s: seq<Tally>)
    ensures forall k :: 0 < k <= |s| && s[k - 1].note ==> Level(s[..k]) <= Peak(s)
    ensures Peak(s) == 1 || exists k :: 0 < k <= |s| && s[k - 1].note && Level(s[..k]) == Peak(s)
    decreases |s|
  {
    if s != [] {
      var init := s[..|s| - 1];
      PeakIsMaximum(init);
      assert s[..|s|] == s;
      forall k | 0 < k < |s|
        ensures s[..k] == init[..k] && s[k - 1] == init[k - 1]
      {
      }
    }
  }

  // ---------------------------------------------------------------------
  // Properties of the conversion

  /** The timed branch fails exactly when no track is kept, a tempo has no
      value, or the division is 0 and there is a note to time. Otherwise,
      with tempos that are not negative, every note lasts and starts at a
      time that is not negative, and the global amplitude lies in (0, 128]. */
  lemma RenderTracksOutcome(tracks: seq<seq<Event>>, ticksPerBeat: int)
    requires ticksPerBeat >= 0
    requires tracks != [] ==> TemposDecoded(tracks[0])
    ensures RenderTracks(tracks, ticksPerBeat).Err? <==>
      tracks == [] || TempoPointsFrom(tracks[0], 0, 0).Err? || (ticksPerBeat == 0 && TracksNoteCount(tracks, 0) > 0)
    ensures RenderTracks(tracks, ticksPerBeat).Ok? ==>
      NotesWellTimed(RenderTracks(tracks, ticksPerBeat).value.progression) &&
      0.0 < RenderTracks(tracks, ticksPerBeat).value.amplitude <= 128.0
  {
    if tracks != [] {
      TempoPointsOfTrack(tracks[0], 0, 0);
      var points := TempoPointsFrom(tracks[0], 0, 0);
      if points.Ok? {
        PairTracksFails(tracks, 0, Pairing([], []), points.value, ticksPerBeat);
        PairTracksWellTimed(tracks, 0, Pairing([], []), points.value, ticksPerBeat);
        var p := PairTracks(tracks, 0, Pairing([], []), points.value, ticksPerBeat);
        if p.Ok? {
          var peak := Peak(SortByTick(p.value.tallies));
          assert 0.0 < 128.0 / peak as real <= 128.0;
        }
      }
    }
  }

  /** A file that converts gives notes `writeProgression` accepts for any
      relative duration in [0, 1], and a global amplitude in (0, 128]. */
  lemma ConvertWellFormed(buffer: seq<byte>, rule: SkipRule, relativeDuration: real)
    requires 0.0 <= relativeDuration <= 1.0
    ensures Convert(buffer, rule).Ok? && Convert(buffer, rule).value.Some? ==>
      ProgressionWellFormed(Convert(buffer, rule).value.value.progression, relativeDuration) &&
      0.0 < Convert(buffer, rule).value.value.amplitude <= 128.0
  {
    var h := HeaderAt(buffer);
    if h.Ok? {
      TracksTemposDecoded(buffer, h.value.next, h.value.trackCount, rule);
      var tracks := TracksFrom(buffer, h.value.next, h.value.trackCount, rule);
      if tracks.Ok? {
        RenderTracksOutcome(tracks.value, h.value.timeDivision);
      }
    }
  }

  // ---------------------------------------------------------------------
  // The note-off lookup as written

  /** What the note-off lookup gives in the source: the last pending
      note-on; for a note number without a stack, the placeholder wrapped
      in an array, whose `offset` and `velocity` read as undefined; for an
      emptied stack, undefined itself, whose property access throws. */
  datatype LookupAsWritten = Found(p: Pending) | WrappedPlaceholder | Undefined

  function PopAsWritten(stacks: Stacks, n: int): LookupAsWritten {
    if n !in stacks then WrappedPlaceholder
    else if stacks[n] == [] then Undefined
    else Found(stacks[n][|stacks[n]| - 1])
  }

  /** The offset a progression entry would get from the lookup as written:
      None where JavaScript reads undefined or throws. */
  function OffsetAsWritten(r: LookupAsWritten): Option<real> {
    if r.Found? then Some(r.p.offset) else None
  }

  /** With a pending note-on the lookup as written agrees with Pop; a
      note-off of note 60 with no stack gets no offset, and one whose stack
      has been emptied by an earlier note-off finds nothing to read. */
  lemma UnmatchedNoteOffAsWritten(stacks: Stacks, n: int)
    ensures n in stacks && stacks[n] != [] ==> PopAsWritten(stacks, n) == Found(Pop(stacks, n).0)
    ensures OffsetAsWritten(PopAsWritten(map[], 60)) == None
    ensures PopAsWritten(Pop(Push(map[], 60, Pending(0.5, 100)), 60).1, 60) == Undefined
  {
    PopPush(map[], 60, Pending(0.5, 100));
  }

  /** As the model pairs it, an unmatched note-off closes a silent note
      from time 0 to the note-off and leaves the stacks alone. */
  lemma UnmatchedNoteOff(stacks: Stacks, n: int, now: real)
    requires n !in stacks || stacks[n] == []
    ensures Pop(stacks, n) == (Pending(0.0, 0), stacks)
    ensures Closed(n, now, Pop(stacks, n).0) == ProgressionNote(Note(n), now, Some(0.0), Some(0.0))
  {
  }
}
