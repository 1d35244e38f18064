/** The MIDIStream reader of src/midi.js: a byte buffer with a read offset
    and the running-status byte, whose read methods advance the offset. Each
    method is proved to compute what the functions of module MidiFormat say
    the bytes at the old offset decode to. A read that fails leaves the
    stream as it was. */
module Midi {
  import opened Common
  import opened MidiFormat

  class MIDIStream {
    const data: seq<byte>
    var byteOffset: int
    var lastEventTypeByte: byte

    constructor (buffer: seq<byte>)
      ensures data == buffer && byteOffset == 0 && lastEventTypeByte == 0
    {
      data := buffer;
      byteOffset := 0;
      lastEventTypeByte := 0x00;
    }

    /** `byteLength` characters, one per byte; a byte past the end reads as the character 0. */
    method ReadString(byteLength: nat) returns (str: string)
      modifies this
      ensures str == Chars(Padded(data, old(byteOffset), byteLength))
      ensures byteOffset == old(byteOffset) + byteLength
      ensures lastEventTypeByte == old(lastEventTypeByte)
    {
      var start := byteOffset;
      str := "";
      var i := 0;
      while i < byteLength
        invariant 0 <= i <= byteLength
        invariant str == Chars(Padded(data, start, i))
      {
        str := str + [ByteAt(data, start + i) as char];
        i := i + 1;
      }
      byteOffset := byteOffset + byteLength;
    }

    /** The four bytes combined by `<<` and `|`, which makes the result a signed 32-bit integer. */
    method ReadUint32() returns (value: int)
      modifies this
      ensures value == Int32(BigEndian(Padded(data, old(byteOffset), 4)))
      ensures byteOffset == old(byteOffset) + 4
      ensures lastEventTypeByte == old(lastEventTypeByte)
    {
      var o := byteOffset;
      var a, b, c, d := ByteAt(data, o), ByteAt(data, o + 1), ByteAt(data, o + 2), ByteAt(data, o + 3);
      value := Int32(a as int * 0x100_0000 + b as int * 0x1_0000 + c as int * 0x100 + d);
      assert Padded(data, o, 4) == [a, b, c, d];
      BigEndianFour(a, b, c, d);
      byteOffset := byteOffset + 4;
    }

    method ReadUint24() returns (value: int)
      modifies this
      ensures value == BigEndian(Padded(data, old(byteOffset), 3))
      ensures byteOffset == old(byteOffset) + 3
      ensures lastEventTypeByte == old(lastEventTypeByte)
    {
      var o := byteOffset;
      var a, b, c := ByteAt(data, o), ByteAt(data, o + 1), ByteAt(data, o + 2);
      value := a as int * 0x1_0000 + b as int * 0x100 + c;
      assert Padded(data, o, 3) == [a, b, c];
      BigEndianThree(a, b, c);
      byteOffset := byteOffset + 3;
    }

    method ReadUint16() returns (value: int)
      modifies this
      ensures value == BigEndian(Padded(data, old(byteOffset), 2))
      ensures byteOffset == old(byteOffset) + 2
      ensures lastEventTypeByte == old(lastEventTypeByte)
    {
      var o := byteOffset;
      var a, b := ByteAt(data, o), ByteAt(data, o + 1);
      value := a as int * 0x100 + b;
      assert Padded(data, o, 2) == [a, b];
      BigEndianTwo(a, b);
      byteOffset := byteOffset + 2;
    }

    method ReadUint8() returns (value: byte)
      requires InBounds(data, byteOffset, 1)
      modifies this
      ensures value == data[old(byteOffset)]
      ensures byteOffset == old(byteOffset) + 1
      ensures lastEventTypeByte == old(lastEventTypeByte)
    {
      value := data[byteOffset];
      byteOffset := byteOffset + 1;
    }

    /** A byte with its top bit set is sign-extended (`^= 0xFFFFFF00`). */
    method ReadInt8() returns (value: int)
      requires InBounds(data, byteOffset, 1)
      modifies this
      ensures value == Int8(data[old(byteOffset)])
      ensures byteOffset == old(byteOffset) + 1
      ensures lastEventTypeByte == old(lastEventTypeByte)
    {
      value := data[byteOffset];
      if value >= 0x80 {
        value := value - 0x100;
      }
      byteOffset := byteOffset + 1;
    }

    method ReadVarUint() returns (r: Option<int>)
      modifies this
      ensures lastEventTypeByte == old(lastEventTypeByte)
      ensures match VarUintAt(data, old(byteOffset))
        case None => r == None && byteOffset == old(byteOffset)
        case Some(vu) => r == Some(vu.value) && byteOffset == vu.next
    {
      var start := byteOffset;
      if !InBounds(data, byteOffset, 1) {
        return None;
      }
      var value := 0;
      var more := true;
      while more
        invariant 0 <= byteOffset <= |data|
        invariant lastEventTypeByte == old(lastEventTypeByte)
        invariant more ==> VarUintFrom(data, byteOffset, value) == VarUintAt(data, start)
        invariant !more ==> VarUintAt(data, start) == Some(VarUint(value, byteOffset))
        decreases |data| - byteOffset + (if more then 1 else 0)
      {
        if !InBounds(data, byteOffset, 1) {
          byteOffset := start;
          return None;
        }
        var uint8 := ReadUint8();
        value := Int32(value * 128) + uint8 % 0x80;
        more := uint8 >= 0x80;
      }
      r := Some(value);
    }

    method Skip(byteLength: int)
      modifies this
      ensures byteOffset == old(byteOffset) + byteLength
      ensures lastEventTypeByte == old(lastEventTypeByte)
    {
      byteOffset := byteOffset + byteLength;
    }

    method ReadChunk() returns (chunk: Chunk)
      modifies this
      ensures chunk == ChunkAt(data, old(byteOffset)).chunk
      ensures byteOffset == ChunkAt(data, old(byteOffset)).next
      ensures lastEventTypeByte == old(lastEventTypeByte)
    {
      var off := byteOffset;
      ChunkFields(data, off);
      var id := ReadString(4);
      assert id == ChunkTag(data, off);
      var length := ReadUint32();
      assert length == ChunkLength(data, off);
      Skip(length);
      chunk := Chunk(id, length, JsSlice(data, off + 8, byteOffset));
      assert ChunkAt(data, off) == ChunkRead(chunk, byteOffset);
    }

    method ReadEvent() returns (r: Result<Event>)
      modifies this
      ensures match DecodeEventAt(data, old(byteOffset), old(lastEventTypeByte))
        case Ok(d) => r == Ok(d.event) && byteOffset == d.next && lastEventTypeByte == d.last
        case Err(f) => r == Err(f) && byteOffset == old(byteOffset) && lastEventTypeByte == old(lastEventTypeByte)
    {
      var start := byteOffset;
      var delta := ReadVarUint();
      if delta.None? {
        return Err(OutOfBounds);
      }
      if delta.value < 0 {
        byteOffset := start;
        return Err(NegativeLength);
      }
      if !InBounds(data, byteOffset, 1) {
        byteOffset := start;
        return Err(OutOfBounds);
      }
      var eventTypeByte := ReadUint8();
      if eventTypeByte >= 0xF0 {
        if eventTypeByte == 0xFF {
          r := ReadMeta(delta.value);
        } else {
          r := ReadSystem(delta.value, eventTypeByte);
        }
      } else {
        r := ReadChannel(delta.value, eventTypeByte);
      }
      if r.Err? {
        byteOffset := start;
      }
    }

    /** The rest of a meta event, after its 0xFF status byte. */
    method ReadMeta(delta: nat) returns (r: Result<Event>)
      modifies this
      ensures lastEventTypeByte == old(lastEventTypeByte)
      ensures match DecodeMetaAt(data, old(byteOffset), delta, old(lastEventTypeByte))
        case Ok(d) => r == Ok(d.event) && byteOffset == d.next
        case Err(f) => r == Err(f) && byteOffset == old(byteOffset)
    {
      var start := byteOffset;
      if !InBounds(data, byteOffset, 1) {
        return Err(OutOfBounds);
      }
      var subTypeByte := ReadUint8();
      var length := ReadVarUint();
      if length.None? {
        byteOffset := start;
        return Err(OutOfBounds);
      }
      var kind := MetaKindOf(subTypeByte);
      var n := length.value;
      if kind == EndOfTrack {
        if n > 0 {
          Skip(n);
        }
        return Ok(Meta(delta, EndOfTrack, NoValue));
      }
      if n < 0 {
        byteOffset := start;
        return Err(NegativeLength);
      }
      if IsTextKind(kind) {
        if !InBounds(data, byteOffset, n) {
          byteOffset := start;
          return Err(OutOfBounds);
        }
        var text := ReadString(n);
        return Ok(Meta(delta, kind, Str(text)));
      }
      if FixedLength(kind) == Some(n) {
        if !InBounds(data, byteOffset, n) {
          byteOffset := start;
          return Err(OutOfBounds);
        }
        var value := ReadFixedValue(kind);
        return Ok(Meta(delta, kind, value));
      }
      Skip(n);
      r := Ok(Meta(delta, kind, NoValue));
    }

    /** The payload of a fixed-size meta event whose length is the expected one. */
    method ReadFixedValue(kind: MetaKind) returns (value: MetaValue)
      requires FixedLength(kind).Some? && InBounds(data, byteOffset, FixedLength(kind).value)
      modifies this
      ensures value == FixedValue(kind, data[old(byteOffset)..old(byteOffset) + FixedLength(kind).value])
      ensures byteOffset == old(byteOffset) + FixedLength(kind).value
      ensures lastEventTypeByte == old(lastEventTypeByte)
    {
      var o := byteOffset;
      match kind
      case SequenceNumber =>
        var n := ReadUint16();
        value := Number(n);
      case MidiChannelPrefix =>
        var n := ReadUint8();
        value := Number(n);
      case SetTempo =>
        var n := ReadUint24();
        value := Number(n);
      case SmpteOffset =>
        var hourByte := ReadUint8();
        var minute := ReadUint8();
        var second := ReadUint8();
        var frame := ReadUint8();
        var subFrame := ReadUint8();
        value := Smpte(FrameRate(hourByte / 64), hourByte % 64, minute, second, frame, subFrame);
      case TimeSignature =>
        var numerator := ReadUint8();
        var raw := ReadUint8();
        var metronome := ReadUint8();
        var thirtyseconds := ReadUint8();
        value := TimeSig(numerator, ShiftOne(raw), metronome, thirtyseconds);
      case KeySignature =>
        var key := ReadInt8();
        var scale := ReadUint8();
        value := KeySig(key, scale);
    }

    /** The rest of a sysEx, dividedSysEx or unknown system event, after its status byte. */
    method ReadSystem(delta: nat, status: byte) returns (r: Result<Event>)
      requires 0xF0 <= status < 0xFF
      modifies this
      ensures lastEventTypeByte == old(lastEventTypeByte)
      ensures match DecodeSysExAt(data, old(byteOffset), delta, status, old(lastEventTypeByte))
        case Ok(d) => r == Ok(d.event) && byteOffset == d.next
        case Err(f) => r == Err(f) && byteOffset == old(byteOffset)
    {
      var start := byteOffset;
      var length := ReadVarUint();
      if length.None? {
        return Err(OutOfBounds);
      }
      if length.value < 0 {
        byteOffset := start;
        return Err(NegativeLength);
      }
      if !InBounds(data, byteOffset, length.value) {
        byteOffset := start;
        return Err(OutOfBounds);
      }
      var payload := ReadString(length.value);
      if status == 0xF0 {
        r := Ok(SysEx(delta, payload));
      } else if status == 0xF7 {
        r := Ok(DividedSysEx(delta, payload));
      } else {
        r := Ok(UnknownSystem(delta, payload));
      }
    }

    /** The rest of a channel event whose status byte (or, under running
        status, first data byte) has been read. */
    method ReadChannel(delta: nat, eventTypeByte: byte) returns (r: Result<Event>)
      requires eventTypeByte < 0xF0
      modifies this
      ensures match DecodeChannelAt(data, old(byteOffset), delta, eventTypeByte, old(lastEventTypeByte))
        case Ok(d) => r == Ok(d.event) && byteOffset == d.next && lastEventTypeByte == d.last
        case Err(f) => r == Err(f) && byteOffset == old(byteOffset) && lastEventTypeByte == old(lastEventTypeByte)
    {
      var start, last := byteOffset, lastEventTypeByte;
      var param: byte;
      var status := eventTypeByte;
      if eventTypeByte < 0x80 {
        param := eventTypeByte;
        status := lastEventTypeByte;
      } else {
        if !InBounds(data, byteOffset, 1) {
          return Err(OutOfBounds);
        }
        param := ReadUint8();
        lastEventTypeByte := eventTypeByte;
      }
      var eventType := status / 16;
      var channel := status % 16;
      if eventType == 0xC {
        return Ok(Channel(delta, channel, ProgramChange, Scalar(param)));
      }
      if eventType == 0xD {
        return Ok(Channel(delta, channel, ChannelAftertouch, Scalar(param)));
      }
      if !InBounds(data, byteOffset, 1) {
        byteOffset, lastEventTypeByte := start, last;
        return Err(OutOfBounds);
      }
      var second := ReadUint8();
      if eventType == 0x8 {
        r := Ok(Channel(delta, channel, NoteOff, NoteValue(param, second)));
      } else if eventType == 0x9 {
        var kind := if second == 0 then NoteOff else NoteOn;
        r := Ok(Channel(delta, channel, kind, NoteValue(param, second)));
      } else if eventType == 0xA {
        r := Ok(Channel(delta, channel, NoteAftertouch, Aftertouch(param, second)));
      } else if eventType == 0xB {
        r := Ok(Channel(delta, channel, Controller, ControllerValue(param, second)));
      } else if eventType == 0xE {
        r := Ok(Channel(delta, channel, PitchBend, Scalar(param + second as int * 0x80)));
      } else {
        r := Ok(Channel(delta, channel, UnknownChannel, Scalar(param as int * 0x100 + second)));
      }
    }
  }
}
