/**
 * Go's base64.StdEncoding: the standard alphabet of section 4 of RFC 4648 with '='
 * padding. EncodeToString writes full four-character quanta; DecodeString skips
 * '\r' and '\n' wherever they occur, needs whole padded quanta, lets padding appear
 * only in the last quantum, and (not being in strict mode) ignores the unused low
 * bits of a padded final quantum.
 */
module Base64 {
  import opened Wrappers
  import opened GoStrings

  const Pad: Byte := '='

  function ByteOf(n: nat): Byte
    requires n < 256
  {
    n as char
  }

  /** The character for the six-bit value v (table 1 of RFC 4648). */
  function EncodeSextet(v: nat): (c: Byte)
    requires v < 64
  {
    if v < 26 then ByteOf('A' as int + v)
    else if v < 52 then ByteOf('a' as int + (v - 26))
    else if v < 62 then ByteOf('0' as int + (v - 52))
    else if v == 62 then '+'
    else '/'
  }

  /** The six-bit value of an alphabet character; None for every other byte, '=' included. */
  function DecodeSextet(c: Byte): (r: Option<nat>)
    ensures r.Some? ==> r.value < 64 && EncodeSextet(r.value) == c
  {
    if 'A' <= c <= 'Z' then Some(c as int - 'A' as int)
    else if 'a' <= c <= 'z' then Some(c as int - 'a' as int + 26)
    else if '0' <= c <= '9' then Some(c as int - '0' as int + 52)
    else if c == '+' then Some(62)
    else if c == '/' then Some(63)
    else None
  }

  lemma SextetRoundTrip(v: nat)
    requires v < 64
    ensures DecodeSextet(EncodeSextet(v)) == Some(v)
  {
  }

  /** A character EncodeToString may write. */
  predicate IsEncodingChar(c: Byte) {
    DecodeSextet(c).Some? || c == Pad
  }

  /** Three bytes become four characters. */
  function EncodeGroup(x: Byte, y: Byte, z: Byte): GoString {
    var a, b, c := x as int, y as int, z as int;
    [EncodeSextet(a / 4), EncodeSextet(a % 4 * 16 + b / 16), EncodeSextet(b % 16 * 4 + c / 64), EncodeSextet(c % 64)]
  }

  /** Two trailing bytes become three characters and one '='. */
  function EncodeTwo(x: Byte, y: Byte): GoString {
    var a, b := x as int, y as int;
    [EncodeSextet(a / 4), EncodeSextet(a % 4 * 16 + b / 16), EncodeSextet(b % 16 * 4), Pad]
  }

  /** One trailing byte becomes two characters and "==". */
  function EncodeOne(x: Byte): GoString {
    var a := x as int;
    [EncodeSextet(a / 4), EncodeSextet(a % 4 * 16), Pad, Pad]
  }

  /** base64.StdEncoding.EncodeToString. */
  function Encode(s: GoString): (r: GoString)
    ensures |r| == (|s| + 2) / 3 * 4
    ensures forall i :: 0 <= i < |r| ==> IsEncodingChar(r[i])
  {
    if |s| == 0 then []
    else if |s| == 1 then EncodeOne(s[0])
    else if |s| == 2 then EncodeTwo(s[0], s[1])
    else EncodeGroup(s[0], s[1], s[2]) + Encode(s[3..])
  }

  predicate IsLineBreak(c: Byte) {
    c == '\n' || c == '\r'
  }

  /** What DecodeString reads: the input with every '\r' and '\n' skipped. */
  function StripLineBreaks(s: GoString): (r: GoString)
    ensures forall i :: 0 <= i < |r| ==> !IsLineBreak(r[i])
    ensures |r| <= |s|
  {
    if s == [] then []
    else (if IsLineBreak(s[0]) then [] else [s[0]]) + StripLineBreaks(s[1..])
  }

  /** Four sextets give back three bytes. */
  function Bytes3(a: nat, b: nat, c: nat, d: nat): GoString
    requires a < 64 && b < 64 && c < 64 && d < 64
  {
    [ByteOf(a * 4 + b / 16), ByteOf(b % 16 * 16 + c / 4), ByteOf(c % 4 * 64 + d)]
  }

  /** A quantum that is not the last one: four alphabet characters. */
  function DecodeQuantum(q: GoString): Option<GoString>
    requires |q| == 4
  {
    var a, b, c, d := DecodeSextet(q[0]), DecodeSextet(q[1]), DecodeSextet(q[2]), DecodeSextet(q[3]);
    if a.Some? && b.Some? && c.Some? && d.Some? then Some(Bytes3(a.value, b.value, c.value, d.value))
    else None
  }

  /** The last quantum: four alphabet characters, or three and "=", or two and "==". */
  function DecodeFinal(q: GoString): Option<GoString>
    requires |q| == 4
  {
    var a, b, c, d := DecodeSextet(q[0]), DecodeSextet(q[1]), DecodeSextet(q[2]), DecodeSextet(q[3]);
    if a.None? || b.None? then None
    else if c.Some? && d.Some? then Some(Bytes3(a.value, b.value, c.value, d.value))
    else if c.Some? && q[3] == Pad then Some(Bytes3(a.value, b.value, c.value, 0)[..2])
    else if q[2] == Pad && q[3] == Pad then Some(Bytes3(a.value, b.value, 0, 0)[..1])
    else None
  }

  /** Whole quanta, padding allowed only in the last one. */
  function DecodeQuanta(s: GoString): (r: Option<GoString>)
    ensures r.Some? ==> |s| % 4 == 0 && |s| / 4 * 3 - 2 <= |r.value| <= |s| / 4 * 3
  {
    if s == [] then Some([])
    else if |s| < 4 then None
    else if |s| == 4 then DecodeFinal(s)
    else
      match DecodeQuantum(s[..4])
      case None => None
      case Some(head) =>
        match DecodeQuanta(s[4..])
        case None => None
        case Some(tail) => Some(head + tail)
  }

  /** base64.StdEncoding.DecodeString; None where Go returns a CorruptInputError. */
  function Decode(s: GoString): (r: Option<GoString>)
    ensures r.Some? ==> |StripLineBreaks(s)| % 4 == 0 && |r.value| <= |s| / 4 * 3
    ensures r.Some? ==> (r.value == [] <==> StripLineBreaks(s) == [])
  {
    DecodeQuanta(StripLineBreaks(s))
  }

  lemma {:induction false} StripLineBreaksIdentity(s: GoString)
    requires forall i :: 0 <= i < |s| ==> !IsLineBreak(s[i])
    ensures StripLineBreaks(s) == s
  {
    if s != [] {
      StripLineBreaksIdentity(s[1..]);
      assert s == [s[0]] + s[1..];
    }
  }

  /** The bit arithmetic of one quantum: the sextets reassemble into the original bytes. */
  lemma GroupArithmetic(a: int, b: int, c: int)
    requires 0 <= a < 256 && 0 <= b < 256 && 0 <= c < 256
    ensures a / 4 * 4 + (a % 4 * 16 + b / 16) / 16 == a
    ensures (a % 4 * 16 + b / 16) % 16 * 16 + (b % 16 * 4 + c / 64) / 4 == b
    ensures (b % 16 * 4 + c / 64) % 4 * 64 + c % 64 == c
  {
    assert (a % 4 * 16 + b / 16) / 16 == a % 4;
    assert (a % 4 * 16 + b / 16) % 16 == b / 16;
    assert (b % 16 * 4 + c / 64) / 4 == b % 16;
    assert (b % 16 * 4 + c / 64) % 4 == c / 64;
  }

  lemma GroupRoundTrip(x: Byte, y: Byte, z: Byte)
    ensures DecodeQuantum(EncodeGroup(x, y, z)) == Some([x, y, z])
    ensures DecodeFinal(EncodeGroup(x, y, z)) == Some([x, y, z])
  {
    var a, b, c := x as int, y as int, z as int;
    GroupArithmetic(a, b, c);
    SextetRoundTrip(a / 4);
    SextetRoundTrip(a % 4 * 16 + b / 16);
    SextetRoundTrip(b % 16 * 4 + c / 64);
    SextetRoundTrip(c % 64);
    var q := EncodeGroup(x, y, z);
    assert DecodeSextet(q[0]) == Some(a / 4);
    assert DecodeSextet(q[1]) == Some(a % 4 * 16 + b / 16);
    assert DecodeSextet(q[2]) == Some(b % 16 * 4 + c / 64);
    assert DecodeSextet(q[3]) == Some(c % 64);
    assert Bytes3(a / 4, a % 4 * 16 + b / 16, b % 16 * 4 + c / 64, c % 64) == [x, y, z];
  }

  lemma TwoRoundTrip(x: Byte, y: Byte)
    ensures DecodeFinal(EncodeTwo(x, y)) == Some([x, y])
  {
    var a, b := x as int, y as int;
    GroupArithmetic(a, b, 0);
    SextetRoundTrip(a / 4);
    SextetRoundTrip(a % 4 * 16 + b / 16);
    SextetRoundTrip(b % 16 * 4);
    var q := EncodeTwo(x, y);
    assert DecodeSextet(q[0]) == Some(a / 4);
    assert DecodeSextet(q[1]) == Some(a % 4 * 16 + b / 16);
    assert DecodeSextet(q[2]) == Some(b % 16 * 4);
    assert DecodeSextet(q[3]) == None;
    assert Bytes3(a / 4, a % 4 * 16 + b / 16, b % 16 * 4, 0)[..2] == [x, y];
  }

  lemma OneRoundTrip(x: Byte)
    ensures DecodeFinal(EncodeOne(x)) == Some([x])
  {
    var a := x as int;
    GroupArithmetic(a, 0, 0);
    SextetRoundTrip(a / 4);
    SextetRoundTrip(a % 4 * 16);
    var q := EncodeOne(x);
    assert DecodeSextet(q[0]) == Some(a / 4);
    assert DecodeSextet(q[1]) == Some(a % 4 * 16);
    assert DecodeSextet(q[2]) == None;
    assert Bytes3(a / 4, a % 4 * 16, 0, 0)[..1] == [x];
  }

  lemma {:induction false} QuantaRoundTrip(s: GoString)
    ensures DecodeQuanta(Encode(s)) == Some(s)
    decreases |s|, 1
  {
    if 1 <= |s| <= 3 {
      ShortRoundTrip(s);
    } else if |s| > 3 {
      QuantaRoundTripStep(s);
    }
  }

  /** One to three bytes encode to a single, final quantum. */
  lemma {:induction false} ShortRoundTrip(s: GoString)
    requires 1 <= |s| <= 3
    ensures DecodeQuanta(Encode(s)) == Some(s)
  {
    if |s| == 1 {
      OneRoundTrip(s[0]);
      assert [s[0]] == s;
    } else if |s| == 2 {
      TwoRoundTrip(s[0], s[1]);
      assert [s[0], s[1]] == s;
    } else {
      GroupRoundTrip(s[0], s[1], s[2]);
      assert Encode(s) == EncodeGroup(s[0], s[1], s[2]) + [];
      assert [s[0], s[1], s[2]] == s;
    }
  }

  lemma {:induction false} QuantaRoundTripStep(s: GoString)
    requires |s| > 3
    ensures DecodeQuanta(Encode(s)) == Some(s)
    decreases |s|, 0
  {
    var e := Encode(s);
    var g := EncodeGroup(s[0], s[1], s[2]);
    var rest := Encode(s[3..]);
    assert e == g + rest;
    assert [s[0], s[1], s[2]] + s[3..] == s;
    assert |rest| >= 4;
    assert e[..4] == g;
    assert e[4..] == rest;
    GroupRoundTrip(s[0], s[1], s[2]);
    QuantaRoundTrip(s[3..]);
    assert DecodeQuantum(e[..4]) == Some([s[0], s[1], s[2]]);
    assert DecodeQuanta(e[4..]) == Some(s[3..]);
  }

  /** Decoding what was encoded gives back every string. */
  lemma RoundTrip(s: GoString)
    ensures Decode(Encode(s)) == Some(s)
  {
    var e := Encode(s);
    forall i | 0 <= i < |e| ensures !IsLineBreak(e[i]) {
      assert IsEncodingChar(e[i]);
    }
    StripLineBreaksIdentity(e);
    QuantaRoundTrip(s);
  }

  /** Only the empty string encodes to the empty string. */
  lemma EncodeEmpty(s: GoString)
    ensures Encode(s) == [] <==> s == []
  {
  }
}
