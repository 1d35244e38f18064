/** The byte layout of a Standard MIDI File (version 1.0) as the decoder of
    src/midi.js reads it: variable-length quantities, chunks and events, as
    pure functions of the byte buffer and a read offset. The MIDIStream class
    of module Midi is proved against these functions. */
module MidiFormat {
  import opened Common

  /** `n` bytes can be read at `off`. */
  predicate InBounds(data: seq<byte>, off: int, n: nat) {
    0 <= off && off + n <= |data|
  }

  /** The byte at `i`, or 0 outside the buffer: the number an out-of-range
      typed-array element (`undefined`) becomes under `<<`, `|` and
      `String.fromCharCode`. */
  function ByteAt(data: seq<byte>, i: int): byte {
    if 0 <= i < |data| then data[i] else 0
  }

  /** The `n` bytes from `off` on, each read as ByteAt does. */
  function Padded(data: seq<byte>, off: int, n: nat): (r: seq<byte>)
    ensures |r| == n
    ensures forall i :: 0 <= i < n ==> r[i] == ByteAt(data, off + i)
    ensures InBounds(data, off, n) ==> r == data[off..off + n]
  {
    seq<byte>(n, i requires 0 <= i < n => ByteAt(data, off + i))
  }

  // ---------------------------------------------------------------------
  // Variable-length quantities

  /** The value a variable-length quantity decodes to and the offset after it. */
  datatype VarUint = VarUint(value: int, next: int)

  /** readVarUint continued at `off` with `acc` accumulated so far: each byte
      adds its low 7 bits to the accumulator shifted left by 7 (a 32-bit
      shift, as JavaScript's `<<`), and a byte with the high bit clear ends
      the quantity. */
  function VarUintFrom(data: seq<byte>, off: int, acc: int): (r: Option<VarUint>)
    ensures r.Some? ==> 0 <= off < r.value.next <= |data|
    decreases |data| - off
  {
    if !InBounds(data, off, 1) then None
    else
      var b := data[off];
      var acc' := Int32(acc * 128) + b % 128;
      if b >= 0x80 then VarUintFrom(data, off + 1, acc') else Some(VarUint(acc', off + 1))
  }

  function VarUintAt(data: seq<byte>, off: int): Option<VarUint> {
    VarUintFrom(data, off, 0)
  }

  /** The standard encoding of `v`: base-128 digits, most significant first,
      with the high bit set on every byte but the last. */
  function EncodeVarUint(v: nat): (r: seq<byte>)
    ensures |r| >= 1
  {
    if v < 0x80 then [v] else ContinuationBytes(v / 0x80) + [v % 0x80]
  }

  /** The digits of `w`, most significant first, each with its high bit set. */
  function ContinuationBytes(w: nat): (r: seq<byte>)
    ensures |r| >= 1
  {
    if w < 0x80 then [w + 0x80] else ContinuationBytes(w / 0x80) + [w % 0x80 + 0x80]
  }

  function Pow128(n: nat): (r: nat)
    ensures r >= 1
  {
    if n == 0 then 1 else 128 * Pow128(n - 1)
  }

  // ---------------------------------------------------------------------
  // Chunks

  /** A chunk: a four-character tag, the signed 32-bit length field and the
      body bytes that could be sliced from the buffer. */
  datatype Chunk = Chunk(id: string, length: int, data: seq<byte>)

  datatype ChunkRead = ChunkRead(chunk: Chunk, next: int)

  /** Index normalisation of JavaScript's `slice`: a negative index counts
      from the end, and every index is clamped into 0..len. */
  function SliceIndex(len: nat, i: int): (r: nat)
    ensures r <= len
  {
    if i < 0 then (if len + i < 0 then 0 else len + i) else if i > len then len else i
  }

  function JsSlice(data: seq<byte>, start: int, end: int): (r: seq<byte>)
    ensures |r| <= |data|
  {
    var from, to := SliceIndex(|data|, start), SliceIndex(|data|, end);
    if from < to then data[from..to] else []
  }

  /** readChunk at `off`: a 4-byte tag, readUint32 of the length (signed, as
      the `<< 24 |` combination makes it) and a slice of `length` bytes; the
      offset moves past the declared body whether or not the bytes exist. */
  function ChunkAt(data: seq<byte>, off: int): ChunkRead {
    var length := ChunkLength(data, off);
    var next := off + 8 + length;
    ChunkRead(Chunk(ChunkTag(data, off), length, JsSlice(data, off + 8, next)), next)
  }

  /** readString(4) at `off`, byte by byte (ChunkFields relates it to Chars). */
  function ChunkTag(data: seq<byte>, off: int): string {
    [ByteAt(data, off) as char, ByteAt(data, off + 1) as char, ByteAt(data, off + 2) as char, ByteAt(data, off + 3) as char]
  }

  /** readUint32 after the tag, written out: the four bytes big-endian, negative
      when the top bit is set (ChunkFields relates it to Int32 and BigEndian). */
  function ChunkLength(data: seq<byte>, off: int): int {
    var a := ByteAt(data, off + 4);
    var v := a as int * 0x100_0000 + ByteAt(data, off + 5) as int * 0x1_0000 + ByteAt(data, off + 6) as int * 0x100 + ByteAt(data, off + 7);
    if a >= 0x80 then v - 0x1_0000_0000 else v
  }

  // ---------------------------------------------------------------------
  // Events

  datatype MetaKind =
    | SequenceNumber | Text | CopyrightNotice | TrackName | InstrumentName | Lyrics | Marker | CuePoint
    | MidiChannelPrefix | EndOfTrack | SetTempo | SmpteOffset | TimeSignature | KeySignature
    | SequencerSpecific | UnknownMeta

  datatype MetaValue =
    | NoValue
    | Number(number: int)
    | Str(text: string)
    | Smpte(frameRate: real, hour: int, minute: int, second: int, frame: int, subFrame: int)
    | TimeSig(numerator: int, denominator: int, metronome: int, thirtyseconds: int)
    | KeySig(key: int, scale: int)

  datatype ChannelKind =
    | NoteOff | NoteOn | NoteAftertouch | Controller | ProgramChange | ChannelAftertouch | PitchBend
    | UnknownChannel

  datatype ChannelValue =
    | NoteValue(noteNumber: int, velocity: int)
    | Aftertouch(notePressed: int, amount: int)
    | ControllerValue(controllerNumber: int, controllerValue: int)
    | Scalar(scalar: int)

  /** One decoded event; `delta` is the tick count since the previous event of the track. */
  datatype Event =
    | Meta(delta: nat, metaKind: MetaKind, metaValue: MetaValue)
    | SysEx(delta: nat, payload: string)
    | DividedSysEx(delta: nat, payload: string)
    | UnknownSystem(delta: nat, payload: string)
    | Channel(delta: nat, channel: int, kind: ChannelKind, value: ChannelValue)

  /** The `subType` property of an event. System-exclusive events have none,
      and JavaScript looks the missing key up as the property name "undefined". */
  function SubTypeName(e: Event): string {
    match e
    case Meta(_, k, _) => MetaKindName(k)
    case SysEx(_, _) => "undefined"
    case DividedSysEx(_, _) => "undefined"
    case UnknownSystem(_, _) => "unknown"
    case Channel(_, _, k, _) => ChannelKindName(k)
  }

  function MetaKindName(k: MetaKind): string {
    match k
    case SequenceNumber => "sequenceNumber"
    case Text => "text"
    case CopyrightNotice => "copyrightNotice"
    case TrackName => "trackName"
    case InstrumentName => "instrumentName"
    case Lyrics => "lyrics"
    case Marker => "marker"
    case CuePoint => "cuePoint"
    case MidiChannelPrefix => "midiChannelPrefix"
    case EndOfTrack => "endOfTrack"
    case SetTempo => "setTempo"
    case SmpteOffset => "smpteOffset"
    case TimeSignature => "timeSignature"
    case KeySignature => "keySignature"
    case SequencerSpecific => "sequencerSpecific"
    case UnknownMeta => "unknown"
  }

  function ChannelKindName(k: ChannelKind): string {
    match k
    case NoteOff => "noteOff"
    case NoteOn => "noteOn"
    case NoteAftertouch => "noteAftertouch"
    case Controller => "controller"
    case ProgramChange => "programChange"
    case ChannelAftertouch => "channelAftertouch"
    case PitchBend => "pitchBend"
    case UnknownChannel => "unknown"
  }

  /** The event's `value` when it is a string. */
  function StringValue(e: Event): Option<string> {
    match e
    case Meta(_, _, v) => if v.Str? then Some(v.text) else None
    case SysEx(_, p) => Some(p)
    case DividedSysEx(_, p) => Some(p)
    case UnknownSystem(_, p) => Some(p)
    case Channel(_, _, _, _) => None
  }

  function MetaKindOf(b: byte): MetaKind {
    match b
    case 0x00 => SequenceNumber
    case 0x01 => Text
    case 0x02 => CopyrightNotice
    case 0x03 => TrackName
    case 0x04 => InstrumentName
    case 0x05 => Lyrics
    case 0x06 => Marker
    case 0x07 => CuePoint
    case 0x20 => MidiChannelPrefix
    case 0x2F => EndOfTrack
    case 0x51 => SetTempo
    case 0x54 => SmpteOffset
    case 0x58 => TimeSignature
    case 0x59 => KeySignature
    case 0x7F => SequencerSpecific
    case _ => UnknownMeta
  }

  /** Meta events whose payload is read as a string of any length. */
  predicate IsTextKind(k: MetaKind) {
    k in {Text, CopyrightNotice, TrackName, InstrumentName, Lyrics, Marker, CuePoint, SequencerSpecific, UnknownMeta}
  }

  /** The payload length a fixed-size meta event needs for its value to be parsed. */
  function FixedLength(k: MetaKind): Option<nat> {
    match k
    case SequenceNumber => Some(2)
    case MidiChannelPrefix => Some(1)
    case SetTempo => Some(3)
    case SmpteOffset => Some(5)
    case TimeSignature => Some(4)
    case KeySignature => Some(2)
    case _ => None
  }

  /** readInt8: the byte as a two's-complement 8-bit number. */
  function Int8(b: byte): (r: int)
    ensures -128 <= r < 128 && (r - b) % 256 == 0
  {
    if b >= 0x80 then b - 0x100 else b
  }

  /** JavaScript's `1 << raw`: the shift count is taken mod 32 and the result is signed 32-bit. */
  function ShiftOne(raw: byte): int {
    Int32(Pow2(raw % 32))
  }

  /** The frame rate coded by the top two bits of the SMPTE hour byte. */
  function FrameRate(code: nat): real
    requires code < 4
  {
    if code == 0 then 24.0 else if code == 1 then 25.0 else if code == 2 then 29.97 else 30.0
  }

  /** The value of a fixed-size meta event whose payload has the expected length. */
  function FixedValue(k: MetaKind, p: seq<byte>): MetaValue
    requires FixedLength(k) == Some(|p|)
  {
    match k
    case SequenceNumber => Number(BigEndian(p))
    case MidiChannelPrefix => Number(p[0])
    case SetTempo => Number(BigEndian(p))
    case SmpteOffset => Smpte(FrameRate(p[0] / 64), p[0] % 64, p[1], p[2], p[3], p[4])
    case TimeSignature => TimeSig(p[0], ShiftOne(p[1]), p[2], p[3])
    case KeySignature => KeySig(Int8(p[0]), p[1])
    case _ => NoValue
  }

  /** An event decoded at some offset, the offset after it and the new running status. */
  datatype Decoded = Decoded(event: Event, next: int, last: byte)

  /** readEvent at `off` with running status `last`: the delta, then the status byte. */
  function DecodeEventAt(data: seq<byte>, off: int, last: byte): (r: Result<Decoded>)
    ensures r.Ok? ==> r.value.next >= off + 2
  {
    match VarUintAt(data, off)
    case None => Err(OutOfBounds)
    case Some(vu) =>
      if vu.value < 0 then Err(NegativeLength)
      else if !InBounds(data, vu.next, 1) then Err(OutOfBounds)
      else
        var status := data[vu.next];
        if status >= 0xF0 then
          if status == 0xFF then DecodeMetaAt(data, vu.next + 1, vu.value, last)
          else DecodeSysExAt(data, vu.next + 1, vu.value, status, last)
        else DecodeChannelAt(data, vu.next + 1, vu.value, status, last)
  }

  /** A meta event after its 0xFF byte: subtype byte, length, payload. */
  function DecodeMetaAt(data: seq<byte>, q: int, delta: nat, last: byte): (r: Result<Decoded>)
    ensures r.Ok? ==> r.value.next >= q + 2 && r.value.last == last && r.value.event.Meta?
  {
    if !InBounds(data, q, 1) then Err(OutOfBounds)
    else
      var kind := MetaKindOf(data[q]);
      match VarUintAt(data, q + 1)
      case None => Err(OutOfBounds)
      case Some(vu) =>
        var length, p := vu.value, vu.next;
        if kind == EndOfTrack then
          Ok(Decoded(Meta(delta, EndOfTrack, NoValue), if length > 0 then p + length else p, last))
        else if length < 0 then Err(NegativeLength)
        else if IsTextKind(kind) then
          if InBounds(data, p, length) then
            Ok(Decoded(Meta(delta, kind, Str(Chars(data[p..p + length]))), p + length, last))
          else Err(OutOfBounds)
        else if FixedLength(kind) == Some(length) then
          if InBounds(data, p, length) then
            Ok(Decoded(Meta(delta, kind, FixedValue(kind, data[p..p + length])), p + length, last))
          else Err(OutOfBounds)
        else Ok(Decoded(Meta(delta, kind, NoValue), p + length, last))
  }

  /** A system-exclusive or other system event after its status byte: length, payload. */
  function DecodeSysExAt(data: seq<byte>, q: int, delta: nat, status: byte, last: byte): (r: Result<Decoded>)
    requires 0xF0 <= status < 0xFF
    ensures r.Ok? ==> r.value.next >= q + 1 && r.value.last == last
  {
    match VarUintAt(data, q)
    case None => Err(OutOfBounds)
    case Some(vu) =>
      if vu.value < 0 then Err(NegativeLength)
      else if !InBounds(data, vu.next, vu.value) then Err(OutOfBounds)
      else
        var payload := Chars(data[vu.next..vu.next + vu.value]);
        var event :=
          if status == 0xF0 then SysEx(delta, payload)
          else if status == 0xF7 then DividedSysEx(delta, payload)
          else UnknownSystem(delta, payload);
        Ok(Decoded(event, vu.next + vu.value, last))
  }

  function ChannelKindOf(nibble: nat, second: byte): ChannelKind {
    if nibble == 0x8 then NoteOff
    else if nibble == 0x9 then (if second == 0 then NoteOff else NoteOn)
    else if nibble == 0xA then NoteAftertouch
    else if nibble == 0xB then Controller
    else if nibble == 0xC then ProgramChange
    else if nibble == 0xD then ChannelAftertouch
    else if nibble == 0xE then PitchBend
    else UnknownChannel
  }

  /** The value of a channel event with two data bytes. */
  function ChannelValueOf(nibble: nat, param: byte, second: byte): ChannelValue {
    if nibble == 0x8 || nibble == 0x9 then NoteValue(param, second)
    else if nibble == 0xA then Aftertouch(param, second)
    else if nibble == 0xB then ControllerValue(param, second)
    else if nibble == 0xE then Scalar(param + second * 0x80)
    else Scalar(param * 0x100 + second)
  }

  /** A channel event whose status (or running-status data) byte was read
      just before `q`. A byte below 0x80 is the first data byte and the
      remembered status byte applies; a genuine status byte is remembered. */
  function DecodeChannelAt(data: seq<byte>, q: int, delta: nat, status: byte, last: byte): (r: Result<Decoded>)
    requires status < 0xF0
    ensures r.Ok? ==> r.value.next >= q
  {
    var running := status < 0x80;
    if !running && !InBounds(data, q, 1) then Err(OutOfBounds)
    else
      var param: byte := if running then status else data[q];
      var effective: byte := if running then last else status;
      var p := if running then q else q + 1;
      var nibble := effective / 16;
      if nibble == 0xC || nibble == 0xD then
        Ok(Decoded(Channel(delta, effective % 16, ChannelKindOf(nibble, 0), Scalar(param)), p, effective))
      else if !InBounds(data, p, 1) then Err(OutOfBounds)
      else
        var second := data[p];
        Ok(Decoded(Channel(delta, effective % 16, ChannelKindOf(nibble, second),
                           ChannelValueOf(nibble, param, second)), p + 1, effective))
  }

  /** readEvent as it is written. The `length` binding is declared with `let`
      inside the meta-event case of the `switch` over the status byte, and
      the sysEx, dividedSysEx and unknown cases assign to it although its
      declaration has not run, so under JavaScript's block scoping they throw
      a ReferenceError. `None` stands for that exception. */
  function DecodeEventAsWritten(data: seq<byte>, off: int, last: byte): (r: Option<Result<Decoded>>)
    ensures r.Some? ==> r.value == DecodeEventAt(data, off, last)
    ensures r.None? <==>
      (VarUintAt(data, off).Some? && VarUintAt(data, off).value.value >= 0 &&
       InBounds(data, VarUintAt(data, off).value.next, 1) &&
       0xF0 <= data[VarUintAt(data, off).value.next] < 0xFF)
  {
    match VarUintAt(data, off)
    case None => Some(Err(OutOfBounds))
    case Some(vu) =>
      if vu.value < 0 then Some(Err(NegativeLength))
      else if !InBounds(data, vu.next, 1) then Some(Err(OutOfBounds))
      else if 0xF0 <= data[vu.next] < 0xFF then None
      else Some(DecodeEventAt(data, off, last))
  }

  /** A read offset and running status. */
  datatype Cursor = Cursor(offset: int, last: byte)

  /** Where readEvent as written leaves the offset and the running status
      (with the sysEx `length` binding corrected). `readString` and `skip`
      add a length whatever its sign, so a length that wrapped below zero
      moves the offset back; only endOfTrack guards with `length > 0`.
      `None` where a delta, a status byte, a length or a channel event's
      data bytes lie past the end. */
  function EventEndAsWritten(data: seq<byte>, off: int, last: byte): (r: Option<Cursor>)
    ensures DecodeEventAt(data, off, last).Ok? ==>
      r == Some(Cursor(DecodeEventAt(data, off, last).value.next, DecodeEventAt(data, off, last).value.last))
  {
    match VarUintAt(data, off)
    case None => None
    case Some(vu) =>
      if !InBounds(data, vu.next, 1) then None
      else
        var s := vu.next;
        var status := data[s];
        if status == 0xFF then
          if !InBounds(data, s + 1, 1) then None
          else
            match VarUintAt(data, s + 2)
            case None => None
            case Some(len) =>
              var length := len.value;
              if MetaKindOf(data[s + 1]) == EndOfTrack && length <= 0 then Some(Cursor(len.next, last))
              else Some(Cursor(len.next + length, last))
        else if status >= 0xF0 then
          match VarUintAt(data, s + 1)
          case None => None
          case Some(len) => Some(Cursor(len.next + len.value, last))
        else
          match DecodeChannelAt(data, s + 1, 0, status, last)
          case Err(_) => None
          case Ok(d) => Some(Cursor(d.next, d.last))
  }

  // ---------------------------------------------------------------------
  // Properties

  /** A quantity can be decoded at `off` exactly when some byte at or after
      `off` has its high bit clear. */
  lemma {:induction false} VarUintDefinedIff(data: seq<byte>, off: int, acc: int)
    ensures VarUintFrom(data, off, acc).Some? <==> exists n :: 0 <= off <= n < |data| && data[n] < 0x80
    decreases |data| - off
  {
    if InBounds(data, off, 1) && data[off] >= 0x80 {
      VarUintDefinedIff(data, off + 1, Int32(acc * 128) + data[off] % 128);
      if exists n :: 0 <= off <= n < |data| && data[n] < 0x80 {
        var n :| 0 <= off <= n < |data| && data[n] < 0x80;
        assert n != off;
      }
    }
  }

  /** A decoded quantity ends at the first byte at or after `off` whose high bit is clear. */
  lemma {:induction false} VarUintEndsAtFinalByte(data: seq<byte>, off: int, acc: int)
    requires VarUintFrom(data, off, acc).Some?
    ensures var n := VarUintFrom(data, off, acc).value.next;
      data[n - 1] < 0x80 && forall i :: off <= i < n - 1 ==> data[i] >= 0x80
    decreases |data| - off
  {
    if data[off] >= 0x80 {
      VarUintEndsAtFinalByte(data, off + 1, Int32(acc * 128) + data[off] % 128);
    }
  }

  /** One continuation byte shifts its low seven bits into the accumulator. */
  lemma ContinuationStep(data: seq<byte>, off: int, acc: nat, x: nat, next: int, shifted: int)
    requires InBounds(data, off, 1) && x < 0x80 && data[off] == x + 0x80
    requires acc < 0x100_0000 && next == off + 1 && shifted == acc * 128 + x
    ensures VarUintFrom(data, off, acc) == VarUintFrom(data, next, shifted)
  {
    assert Int32(acc * 128) == acc * 128;
  }

  lemma MulEqual(a: int, x: int, y: int)
    requires x == y
    ensures a * x == a * y
  {
  }

  /** Shifting the high digits hi into acc * pk and then the low digit lo
      gives acc shifted by one more digit, plus hi * 128 + lo. */
  lemma ShiftDigit(acc: nat, pk: nat, pc: nat, hi: nat, lo: nat, total: nat)
    requires lo < 0x80 && pc == 128 * pk && total == acc * pc + (hi * 128 + lo)
    ensures (acc * pk + hi) * 128 + lo == total
    ensures acc * pk + hi <= total
  {
    var a := acc * pk;
    assert acc * pc == a * 128;
    assert (a + hi) * 128 == a * 128 + hi * 128;
  }

  /** Reading the continuation bytes of `w` shifts them into the accumulator:
      `total` is acc shifted by their digits plus w, as long as no 32-bit
      wrap-around occurs. */
  lemma {:induction false} ContinuationBytesAccumulate(data: seq<byte>, off: int, acc: nat, w: nat, total: nat)
    requires InBounds(data, off, |ContinuationBytes(w)|)
    requires data[off..off + |ContinuationBytes(w)|] == ContinuationBytes(w)
    requires total == acc * Pow128(|ContinuationBytes(w)|) + w && total < 0x100_0000
    ensures VarUintFrom(data, off, acc) == VarUintFrom(data, off + |ContinuationBytes(w)|, total)
    decreases w
  {
    if w < 0x80 {
      assert data[off] == ContinuationBytes(w)[0];
      assert Pow128(1) == 128;
      MulEqual(acc, Pow128(|ContinuationBytes(w)|), 128);
      ContinuationStep(data, off, acc, w, off + |ContinuationBytes(w)|, total);
    } else {
      var hi, lo := w / 0x80, w % 0x80;
      ContinuationPrefix(data, off, w);
      var k := |ContinuationBytes(hi)|;
      var pk := Pow128(k);
      var pc := Pow128(|ContinuationBytes(w)|);
      assert pc == 128 * pk;
      ShiftDigit(acc, pk, pc, hi, lo, total);
      var part := acc * pk + hi;
      ContinuationBytesAccumulate(data, off, acc, hi, part);
      ContinuationStep(data, off + k, part, lo, off + |ContinuationBytes(w)|, total);
    }
  }

  /** The continuation bytes of w are those of w / 128 followed by one
      byte for w % 128. */
  lemma ContinuationPrefix(data: seq<byte>, off: int, w: nat)
    requires w >= 0x80 && InBounds(data, off, |ContinuationBytes(w)|)
    requires data[off..off + |ContinuationBytes(w)|] == ContinuationBytes(w)
    ensures var k := |ContinuationBytes(w / 0x80)|;
      && |ContinuationBytes(w)| == k + 1
      && data[off..off + k] == ContinuationBytes(w / 0x80)
      && data[off + k] == w % 0x80 + 0x80
  {
    var c := ContinuationBytes(w);
    var k := |ContinuationBytes(w / 0x80)|;
    assert c == ContinuationBytes(w / 0x80) + [w % 0x80 + 0x80];
    assert data[off..off + k] == c[..k];
    assert data[off + k] == c[k];
  }

  /** Round trip: every value below 2^28 (the range of four-byte quantities)
      decodes from its standard encoding to itself, consuming exactly the encoding. */
  lemma VarUintRoundTrip(data: seq<byte>, off: int, v: nat)
    requires v < 0x1000_0000
    requires InBounds(data, off, |EncodeVarUint(v)|)
    requires data[off..off + |EncodeVarUint(v)|] == EncodeVarUint(v)
    ensures VarUintAt(data, off) == Some(VarUint(v, off + |EncodeVarUint(v)|))
  {
    var e := EncodeVarUint(v);
    if v < 0x80 {
      assert data[off] == e[0];
    } else {
      var hi := v / 0x80;
      var k := |ContinuationBytes(hi)|;
      assert e == ContinuationBytes(hi) + [v % 0x80];
      assert data[off..off + k] == e[..k];
      assert 0 * Pow128(k) == 0;
      ContinuationBytesAccumulate(data, off, 0, hi, hi);
      assert data[off + k] == e[k];
      assert Int32(hi * 128) == hi * 128;
    }
  }

  /** A quantity of five or more bytes can wrap below zero: 0x88 0x80 0x80 0x80 0x00
      shifts 8 into bit 31 and decodes to -2^31. */
  lemma VarUintCanWrap()
    ensures VarUintAt([0x88, 0x80, 0x80, 0x80, 0x00], 0) == Some(VarUint(-0x8000_0000, 5))
  {
    var d: seq<byte> := [0x88, 0x80, 0x80, 0x80, 0x00];
    assert VarUintFrom(d, 4, 0x100_0000) == Some(VarUint(-0x8000_0000, 5));
    assert VarUintFrom(d, 3, 0x2_0000) == VarUintFrom(d, 4, 0x100_0000);
    assert VarUintFrom(d, 2, 0x400) == VarUintFrom(d, 3, 0x2_0000);
    assert VarUintFrom(d, 1, 8) == VarUintFrom(d, 2, 0x400);
  }

  /** readUint32 is signed: the length field is negative exactly when its top bit is set. */
  lemma SignedUint32(a: byte, b: byte, c: byte, d: byte)
    ensures var v := Int32(BigEndian([a, b, c, d]));
      (v < 0 <==> a >= 0x80) &&
      (v < 0 ==> v == BigEndian([a, b, c, d]) - 0x1_0000_0000) &&
      (v >= 0 ==> v == BigEndian([a, b, c, d]))
  {
    BigEndianFour(a, b, c, d);
  }

  /** The tag and the length of a chunk are what readString(4) and readUint32 return. */
  lemma ChunkFields(data: seq<byte>, off: int)
    ensures ChunkTag(data, off) == Chars(Padded(data, off, 4))
    ensures ChunkLength(data, off) == Int32(BigEndian(Padded(data, off + 4, 4)))
  {
    var a, b, c, d := ByteAt(data, off + 4), ByteAt(data, off + 5), ByteAt(data, off + 6), ByteAt(data, off + 7);
    assert Padded(data, off + 4, 4) == [a, b, c, d];
    SignedUint32(a, b, c, d);
    BigEndianFour(a, b, c, d);
  }

  /** readChunk moves the offset by eight plus the signed length. Inside the
      buffer the tag is the four bytes at the offset, the length is negative
      exactly when its top byte has the high bit set, and a length that fits
      slices exactly that many body bytes. Wholly past the end, the chunk
      reads as a zero tag with length 0 and an empty body. */
  lemma ChunkLayout(data: seq<byte>, off: int)
    ensures var c := ChunkAt(data, off);
      |c.chunk.id| == 4 &&
      c.next == off + 8 + c.chunk.length &&
      (InBounds(data, off, 8) ==>
        c.chunk.id == Chars(data[off..off + 4]) &&
        (c.chunk.length < 0 <==> data[off + 4] >= 0x80) &&
        (0 <= c.chunk.length && c.next <= |data| ==> c.chunk.data == data[off + 8..c.next])) &&
      (0 <= |data| <= off ==> c.chunk == Chunk("\0\0\0\0", 0, []))
  {
    var c := ChunkAt(data, off);
    if InBounds(data, off, 8) {
      var h := data[off + 4..off + 8];
      assert h == [data[off + 4], data[off + 5], data[off + 6], data[off + 7]];
      SignedUint32(data[off + 4], data[off + 5], data[off + 6], data[off + 7]);
    }
    if |data| <= off {
      assert Padded(data, off + 4, 4) == [0, 0, 0, 0];
      BigEndianFour(0, 0, 0, 0);
      assert Padded(data, off, 4) == [0, 0, 0, 0];
    }
  }

  lemma {:induction false} Pow2Below(k: nat, n: nat)
    requires k < n
    ensures Pow2(k) < Pow2(n)
    decreases n
  {
    if k < n - 1 {
      Pow2Below(k, n - 1);
    }
  }

  /** The time-signature denominator `1 << raw` is 2^raw for raw below 31; the
      32-bit shift makes 31 the most negative integer and starts again at 32. */
  lemma DenominatorShift(raw: byte)
    ensures raw < 31 ==> ShiftOne(raw) == Pow2(raw)
    ensures raw % 32 == 31 ==> ShiftOne(raw) == -0x8000_0000
    ensures ShiftOne(raw) == ShiftOne(raw % 32)
  {
    ShiftCountMod(raw);
    ShiftCount(raw % 32);
  }

  lemma ShiftCountMod(raw: byte)
    ensures ShiftOne(raw) == ShiftOne(raw % 32)
    ensures raw < 31 ==> raw % 32 == raw
  {
    var k := raw % 32;
    assert k % 32 == k;
  }

  lemma ShiftCount(k: nat)
    requires k < 32
    ensures k < 31 ==> Int32(Pow2(k)) == Pow2(k)
    ensures k == 31 ==> Int32(Pow2(k)) == -0x8000_0000
  {
    Pow2Values();
    if k < 31 {
      Pow2Below(k, 31);
    }
  }

  /** A meta event with a non-negative length consumes exactly its payload,
      and carries a value exactly when it is a text event or a fixed-size
      event whose length is the expected one. */
  lemma MetaEventLayout(data: seq<byte>, q: int, delta: nat, last: byte)
    requires InBounds(data, q, 1)
    requires VarUintAt(data, q + 1).Some? && VarUintAt(data, q + 1).value.value >= 0
    ensures
      var kind := MetaKindOf(data[q]);
      var length, p := VarUintAt(data, q + 1).value.value, VarUintAt(data, q + 1).value.next;
      var parsed := IsTextKind(kind) || FixedLength(kind) == Some(length);
      var r := DecodeMetaAt(data, q, delta, last);
      (r.Ok? <==> (parsed ==> InBounds(data, p, length))) &&
      (r.Ok? ==> r.value.next == p + length && r.value.event.metaKind == kind &&
                 (r.value.event.metaValue != NoValue <==> parsed))
  {
  }

  /** setTempo carries the 24-bit big-endian tempo in microseconds per beat. */
  lemma SetTempoValue(a: byte, b: byte, c: byte)
    ensures FixedValue(SetTempo, [a, b, c]) == Number(a * 0x1_0000 + b * 0x100 + c)
  {
    BigEndianThree(a, b, c);
  }

  /** Channel events: with a status byte below 0x80 (running status) the
      remembered status byte applies and the byte read is the first data
      byte; otherwise the status byte is remembered. Program change and
      channel aftertouch take one data byte, all other kinds two, and the
      channel is the low nibble of the status that applies. */
  lemma ChannelEventLayout(data: seq<byte>, off: int, last: byte)
    requires VarUintAt(data, off).Some? && VarUintAt(data, off).value.value >= 0
    requires InBounds(data, VarUintAt(data, off).value.next, 1)
    requires data[VarUintAt(data, off).value.next] < 0xF0
    ensures
      var s := VarUintAt(data, off).value.next;
      var running := data[s] < 0x80;
      var status := if running then last else data[s];
      var first := if running then s else s + 1;
      var width := if status / 16 == 0xC || status / 16 == 0xD then 1 else 2;
      var r := DecodeEventAt(data, off, last);
      (r.Ok? <==> first + width <= |data|) &&
      (r.Ok? ==>
        r.value.next == first + width && r.value.last == status &&
        r.value.event.Channel? && r.value.event.delta == VarUintAt(data, off).value.value &&
        r.value.event.channel == status % 16 && r.value.event.channel < 16)
  {
  }

  /** A note-on with velocity 0 is a note-off: the kind of a decoded note
      event is noteOff exactly for status nibble 8, or nibble 9 with
      velocity 0, and its value is the note number and velocity. */
  lemma NoteEventKind(data: seq<byte>, off: int, last: byte)
    requires VarUintAt(data, off).Some? && VarUintAt(data, off).value.value >= 0
    requires InBounds(data, VarUintAt(data, off).value.next, 1)
    requires data[VarUintAt(data, off).value.next] < 0xF0
    requires DecodeEventAt(data, off, last).Ok?
    ensures
      var s := VarUintAt(data, off).value.next;
      var running := data[s] < 0x80;
      var status := if running then last else data[s];
      var first := if running then s else s + 1;
      var e := DecodeEventAt(data, off, last).value.event;
      (e.kind == NoteOff <==> status / 16 == 8 || (status / 16 == 9 && data[first + 1] == 0)) &&
      (e.kind == NoteOn <==> status / 16 == 9 && data[first + 1] != 0) &&
      (e.kind in {NoteOff, NoteOn} ==> e.value == NoteValue(data[first], data[first + 1]))
  {
    ChannelEventLayout(data, off, last);
  }

  /** System events decode whatever their status: the payload is the
      declared number of bytes after the length, as characters. */
  lemma SystemEventPayload(data: seq<byte>, off: int, last: byte)
    requires VarUintAt(data, off).Some? && VarUintAt(data, off).value.value >= 0
    requires InBounds(data, VarUintAt(data, off).value.next, 1)
    requires 0xF0 <= data[VarUintAt(data, off).value.next] < 0xFF
    requires VarUintAt(data, VarUintAt(data, off).value.next + 1).Some?
    ensures
      var s := VarUintAt(data, off).value.next;
      var length, p := VarUintAt(data, s + 1).value.value, VarUintAt(data, s + 1).value.next;
      var r := DecodeEventAt(data, off, last);
      (r.Ok? <==> length >= 0 && InBounds(data, p, length)) &&
      (r.Ok? ==> r.value.next == p + length && r.value.last == last &&
                 StringValue(r.value.event) == Some(Chars(data[p..p + length])) &&
                 (r.value.event.SysEx? <==> data[s] == 0xF0) &&
                 (r.value.event.DividedSysEx? <==> data[s] == 0xF7))
  {
  }

  /** The source as written throws on the smallest sysEx event, which the
      corrected decoder reads as a one-character payload. */
  lemma SysExThrowsAsWritten()
    ensures DecodeEventAsWritten([0x00, 0xF0, 0x01, 0x41], 0, 0) == None
    ensures DecodeEventAt([0x00, 0xF0, 0x01, 0x41], 0, 0) == Ok(Decoded(SysEx(0, "A"), 4, 0))
  {
    var d: seq<byte> := [0x00, 0xF0, 0x01, 0x41];
    assert VarUintAt(d, 0) == Some(VarUint(0, 1));
    assert VarUintAt(d, 2) == Some(VarUint(1, 3));
    assert Chars(d[3..4]) == "A";
  }

  /** Running status across two events: a note-on with its status byte and a
      note-on without one, whose velocity 0 makes it a note-off on the same channel. */
  lemma RunningStatusExample()
    ensures
      var d: seq<byte> := [0x00, 0x93, 60, 100, 0x10, 62, 0];
      DecodeEventAt(d, 0, 0) == Ok(Decoded(Channel(0, 3, NoteOn, NoteValue(60, 100)), 4, 0x93)) &&
      DecodeEventAt(d, 4, 0x93) == Ok(Decoded(Channel(0x10, 3, NoteOff, NoteValue(62, 0)), 7, 0x93))
  {
    var d: seq<byte> := [0x00, 0x93, 60, 100, 0x10, 62, 0];
    assert VarUintAt(d, 0) == Some(VarUint(0, 1));
    assert VarUintAt(d, 4) == Some(VarUint(0x10, 5));
  }
}
