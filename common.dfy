/** Bytes, the fixed-width integer conversions JavaScript applies to them,
    and the failure outcomes shared by every stage of the converter. */
module Common {

  type byte = x: int | 0 <= x < 256

  datatype Option<+T> = None | Some(value: T)

  /** Everything that stops a conversion. */
  datatype Failure =
    | OutOfBounds        // a read past the end of a byte buffer
    | NegativeLength     // a variable-length quantity that wrapped below zero, used as a length or delta
    | MalformedHeader    // the first chunk is not an `MThd` chunk of length 6
    | NoRetainedTrack    // no track survives the skip policy, so there is no tempo track
    | UndefinedTempo     // a `setTempo` event of the tempo track carries no value
    | ZeroTicksPerBeat   // the time division is 0 ticks per beat

  datatype Result<+T> = Ok(value: T) | Err(failure: Failure)

  function Pow256(n: nat): (r: nat)
    ensures r >= 1
  {
    if n == 0 then 1 else 256 * Pow256(n - 1)
  }

  function Pow2(n: nat): (r: nat)
    ensures r >= 1
  {
    if n == 0 then 1 else 2 * Pow2(n - 1)
  }

  /** ToInt32: the signed 32-bit integer a JavaScript bitwise operator makes of an integer. */
  function Int32(x: int): (r: int)
    ensures -0x8000_0000 <= r < 0x8000_0000
    ensures (x - r) % 0x1_0000_0000 == 0
    ensures 0 <= x < 0x8000_0000 ==> r == x
  {
    var m := x % 0x1_0000_0000;
    if m >= 0x8000_0000 then m - 0x1_0000_0000 else m
  }

  /** The unsigned value of a big-endian byte string. */
  function BigEndian(s: seq<byte>): (r: nat)
    ensures r < Pow256(|s|)
  {
    if s == [] then 0 else BigEndian(s[..|s| - 1]) * 256 + s[|s| - 1]
  }

  /** The unsigned value of a little-endian byte string. */
  function LittleEndian(s: seq<byte>): (r: nat)
    ensures r < Pow256(|s|)
  {
    if s == [] then 0 else s[0] + 256 * LittleEndian(s[1..])
  }

  /** The `width` low-order bytes of `v`, least significant first. */
  function LittleEndianBytes(v: int, width: nat): (r: seq<byte>)
    ensures |r| == width
    decreases width
  {
    if width == 0 then [] else [v % 256] + LittleEndianBytes(v / 256, width - 1)
  }

  function Reverse<T>(s: seq<T>): (r: seq<T>)
    ensures |r| == |s|
    ensures forall i :: 0 <= i < |s| ==> r[i] == s[|s| - 1 - i]
  {
    if s == [] then [] else Reverse(s[1..]) + [s[0]]
  }

  /** A byte string read as characters, one character per byte value. */
  function Chars(s: seq<byte>): (r: string)
    ensures |r| == |s|
    ensures forall i :: 0 <= i < |s| ==> r[i] as int == s[i]
  {
    seq(|s|, i requires 0 <= i < |s| => s[i] as char)
  }

  lemma BigEndianTwo(a: byte, b: byte)
    ensures BigEndian([a, b]) == a * 0x100 + b
  {
    assert [a, b][..1] == [a];
    assert [a][..0] == [];
  }

  lemma BigEndianThree(a: byte, b: byte, c: byte)
    ensures BigEndian([a, b, c]) == a * 0x1_0000 + b * 0x100 + c
  {
    assert [a, b, c][..2] == [a, b];
    BigEndianTwo(a, b);
  }

  lemma BigEndianFour(a: byte, b: byte, c: byte, d: byte)
    ensures BigEndian([a, b, c, d]) == a * 0x100_0000 + b * 0x1_0000 + c * 0x100 + d
  {
    assert [a, b, c, d][..3] == [a, b, c];
    BigEndianThree(a, b, c);
  }

  /** Decoding the little-endian bytes of `v` gives `v` modulo 256^width. */
  lemma {:induction false} LittleEndianRoundTrip(v: int, width: nat)
    ensures LittleEndian(LittleEndianBytes(v, width)) == v % Pow256(width)
    decreases width
  {
    if width > 0 {
      var s := LittleEndianBytes(v, width);
      assert s[1..] == LittleEndianBytes(v / 256, width - 1);
      LittleEndianRoundTrip(v / 256, width - 1);
      ModSplit(v, Pow256(width - 1));
    }
  }

  /** v mod (256 m) is its low byte plus 256 times (v div 256) mod m. */
  lemma ModSplit(v: int, m: nat)
    requires m >= 1
    ensures v % (256 * m) == v % 256 + 256 * ((v / 256) % m)
  {
    var q := v / 256;
    var r := v % 256;
    var q2 := q / m;
    var r2 := q % m;
    assert v == 256 * q + r;
    assert q == m * q2 + r2;
    assert v == (256 * m) * q2 + (256 * r2 + r);
    assert 0 <= 256 * r2 + r < 256 * m;
    EuclideanUnique(v, 256 * m, q2, 256 * r2 + r);
  }

  lemma EuclideanUnique(v: int, d: int, q: int, r: int)
    requires d > 0 && v == d * q + r && 0 <= r < d
    ensures v / d == q && v % d == r
  {
    var q0 := v / d;
    var r0 := v % d;
    assert v == d * q0 + r0;
    if q0 < q {
      MulMonotone(d, q0 + 1, q);
      assert false;
    } else if q0 > q {
      MulMonotone(d, q + 1, q0);
      assert false;
    }
  }

  lemma MulMonotone(d: nat, a: int, b: int)
    requires a <= b
    ensures d * a <= d * b
  {
    assert d * b - d * a == d * (b - a);
  }

  lemma MulSucc(i: int, w: int)
    ensures (i + 1) * w == i * w + w
  {
  }

  /** The powers of two that bound the 8-, 16-, 24- and 32-bit ranges. */
  lemma Pow2Values()
    ensures Pow2(7) == 0x80 && Pow2(8) == 0x100
    ensures Pow2(15) == 0x8000 && Pow2(16) == 0x1_0000
    ensures Pow2(23) == 0x80_0000 && Pow2(24) == 0x100_0000
    ensures Pow2(31) == 0x8000_0000
  {
    assert Pow2(8) == 0x100;
    assert Pow2(15) == 0x8000 by { PowAdd(8, 7); }
    assert Pow2(16) == 0x1_0000 by { PowAdd(8, 8); }
    assert Pow2(23) == 0x80_0000 by { PowAdd(16, 7); }
    assert Pow2(24) == 0x100_0000 by { PowAdd(16, 8); }
    assert Pow2(31) == 0x8000_0000 by { PowAdd(24, 7); }
  }

  lemma {:induction false} PowAdd(a: nat, b: nat)
    ensures Pow2(a + b) == Pow2(a) * Pow2(b)
    decreases b
  {
    if b > 0 {
      PowAdd(a, b - 1);
      assert Pow2(a + b) == 2 * Pow2(a + b - 1);
    }
  }
}
