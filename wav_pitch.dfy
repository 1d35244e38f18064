/** Note names and semitone numbers of src/wav.js (`WAV.semitone`,
    `WAV.note`): semitone 69 is A4, twelve semitones to the octave, octaves
    -1 to 10. A name that cannot be parsed is the REST sentinel, which the
    source represents as negative infinity. */
module WavPitch {
  import opened Common

  datatype Pitch = Rest | Tone(semitone: int)

  /** The `tones` table of `semitone`. */
  function ToneValue(c: char): Option<int> {
    if c == 'C' then Some(0) else if c == 'D' then Some(2) else if c == 'E' then Some(4)
    else if c == 'F' then Some(5) else if c == 'G' then Some(7) else if c == 'A' then Some(9)
    else if c == 'B' then Some(11) else None
  }

  /** The `octaves` table of `semitone`, keyed by the octave exactly as written. */
  function OctaveValue(o: string): Option<int> {
    if o == "-1" then Some(0)
    else if |o| == 1 && '0' <= o[0] <= '9' then Some(o[0] as int - '0' as int + 1)
    else if o == "10" then Some(11)
    else None
  }

  /** Splits the text after the tone letter into the octave text and the
      value of a trailing accidental of at most two flats or two sharps. */
  function SplitAccidental(body: string): (string, int) {
    var n := |body|;
    if n >= 2 && body[n - 2] == 'b' && body[n - 1] == 'b' then (body[..n - 2], -2)
    else if n >= 2 && body[n - 2] == '#' && body[n - 1] == '#' then (body[..n - 2], 2)
    else if n >= 1 && body[n - 1] == 'b' then (body[..n - 1], -1)
    else if n >= 1 && body[n - 1] == '#' then (body[..n - 1], 1)
    else (body, 0)
  }

  /** WAV.semitone: tone + 12 * octave index + accidental, or REST when the
      name is not a tone letter, an octave from -1 to 10 and an accidental. */
  function Semitone(name: string): Pitch {
    if |name| == 0 then Rest
    else
      var (octave, accidental) := SplitAccidental(name[1..]);
      match (ToneValue(name[0]), OctaveValue(octave))
      case (Some(t), Some(o)) => Tone(t + o * 12 + accidental)
      case _ => Rest
  }

  /** The `tones` table of `note`: the name of each semitone within an octave. */
  function ToneName(i: int): (r: string)
    requires 0 <= i < 12
    ensures |r| == 1 || (|r| == 2 && r[1] == '#')
  {
    ["C", "C#", "D", "D#", "E", "F", "F#", "G", "G#", "A", "A#", "B"][i]
  }

  /** `octave.toString()` for the octaves -1 to 10. */
  function OctaveName(k: int): (r: string)
    requires -1 <= k <= 10
    ensures |r| >= 1 && '0' <= r[|r| - 1] <= '9'
  {
    if k == -1 then "-1" else if k == 10 then "10" else [('0' as int + k) as char]
  }

  /** WAV.note: the tone letter, the octave and the optional sharp, or REST
      outside octaves -1 to 10. */
  function Note(s: int): (r: string)
    ensures r == "REST" <==> !(0 <= s / 12 <= 11)
  {
    var octaveIndex := s / 12;
    var toneIndex := s - octaveIndex * 12;
    if 0 <= octaveIndex <= 11 then
      var tone := ToneName(toneIndex);
      var name := [tone[0]] + OctaveName(octaveIndex - 1) + tone[1..];
      assert name[0] == tone[0] != "REST"[0];
      name
    else "REST"
  }

  // ---------------------------------------------------------------------
  // Properties

  lemma OctaveRoundTrip(k: int)
    requires -1 <= k <= 10
    ensures OctaveValue(OctaveName(k)) == Some(k + 1)
  {
  }

  lemma ToneRoundTrip(i: int)
    requires 0 <= i < 12
    ensures ToneValue(ToneName(i)[0]).Some?
    ensures ToneValue(ToneName(i)[0]).value + (if |ToneName(i)| == 2 then 1 else 0) == i
  {
  }

  /** Every semitone of octaves -1 to 10 names itself: semitone(note(s)) == s. */
  lemma NoteRoundTrip(s: int)
    requires 0 <= s < 144
    ensures Semitone(Note(s)) == Tone(s)
  {
    var k := s / 12;
    var i := s - k * 12;
    assert Note(s) == [ToneName(i)[0]] + OctaveName(k - 1) + ToneName(i)[1..];
    NameRoundTrip(k - 1, i);
  }

  /** The name built from tone i and octave k parses back to 12 (k + 1) + i. */
  lemma {:induction false} NameRoundTrip(k: int, i: int)
    requires -1 <= k <= 10 && 0 <= i < 12
    ensures Semitone([ToneName(i)[0]] + OctaveName(k) + ToneName(i)[1..]) == Tone(i + (k + 1) * 12)
  {
    var tone := ToneName(i);
    var octave := OctaveName(k);
    var name := [tone[0]] + octave + tone[1..];
    var body := octave + tone[1..];
    assert name[1..] == body;
    assert name[0] == tone[0];
    var n := |body|;
    if |tone| == 2 {
      assert body[n - 1] == '#';
      assert body[n - 2] == octave[|octave| - 1];
      assert body[..n - 1] == octave;
      assert SplitAccidental(body) == (octave, 1);
    } else {
      assert body == octave;
      assert SplitAccidental(body) == (octave, 0);
    }
    OctaveRoundTrip(k);
    ToneRoundTrip(i);
  }

  /** Names of tones, with and without accidentals. */
  lemma SemitoneExamples()
    ensures Semitone("A4") == Tone(69)
    ensures Semitone("C4#") == Tone(61)
    ensures Semitone("B-1b") == Tone(10)
  {
    assert "A4"[1..] == "4";
    assert SplitAccidental("4") == ("4", 0);
    assert "C4#"[1..] == "4#";
    assert "4#"[..1] == "4";
    assert SplitAccidental("4#") == ("4", 1);
    assert "B-1b"[1..] == "-1b";
    assert "-1b"[..2] == "-1";
    assert SplitAccidental("-1b") == ("-1", -1);
  }

  /** Names that do not parse are rests: an accidental before the octave,
      an octave out of range or written with a leading zero, an unknown
      tone letter, three sharps, and REST itself. */
  lemma RestExamples()
    ensures Semitone("Bb-1") == Rest
    ensures Semitone("C11") == Rest && Semitone("H4") == Rest && Semitone("C04") == Rest
    ensures Semitone("C4###") == Rest && Semitone("REST") == Rest
  {
    assert "Bb-1"[1..] == "b-1";
    assert SplitAccidental("b-1") == ("b-1", 0);
    assert "C11"[1..] == "11";
    assert "C04"[1..] == "04";
    assert "C4###"[1..] == "4###";
    assert "4###"[..2] == "4#";
    assert SplitAccidental("4###") == ("4#", 2);
  }

  /** Semitone numbers named: A4, C4#, and REST outside octaves -1 to 10. */
  lemma NoteExamples()
    ensures Note(69) == "A4" && Note(61) == "C4#" && Note(144) == "REST" && Note(-1) == "REST"
  {
    assert Note(69) == [ToneName(9)[0]] + OctaveName(4) + ToneName(9)[1..];
    assert Note(61) == [ToneName(1)[0]] + OctaveName(4) + ToneName(1)[1..];
  }
}
