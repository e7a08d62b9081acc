/**
 * The timestamp half of a pagination cursor: Go's Time.Format and time.Parse with
 * the layout time.RFC3339Nano ("2006-01-02T15:04:05.999999999Z07:00"), the profile
 * of ISO 8601 given in section 5.6 of RFC 3339.
 */
module Rfc3339 {
  import opened Wrappers
  import opened GoStrings

  /**
   * A time.Time as a cursor carries it: the wall-clock reading in the time's own
   * zone and that zone's offset east of UTC in seconds.
   */
  datatype Timestamp = Timestamp(
    year: int, month: int, day: int,
    hour: int, minute: int, second: int, nanosecond: int,
    offsetSeconds: int)

  predicate IsLeapYear(year: int) {
    year % 4 == 0 && (year % 100 != 0 || year % 400 == 0)
  }

  /** Go's daysIn: the length of a month, February depending on the leap year. */
  function DaysIn(month: int, year: int): (n: int)
    requires 1 <= month <= 12
    ensures 28 <= n <= 31
    ensures n == 29 <==> month == 2 && IsLeapYear(year)
  {
    if month == 2 then (if IsLeapYear(year) then 29 else 28)
    else if month == 4 || month == 6 || month == 9 || month == 11 then 30
    else 31
  }

  /**
   * The timestamps whose RFC 3339 text reads back as the same timestamp: a
   * four-digit year, a real calendar date and clock reading, and a zone offset of
   * whole minutes below 24 hours.
   */
  predicate Valid(t: Timestamp) {
    && 0 <= t.year <= 9999
    && 1 <= t.month <= 12
    && 1 <= t.day <= DaysIn(t.month, t.year)
    && 0 <= t.hour <= 23 && 0 <= t.minute <= 59 && 0 <= t.second <= 59
    && 0 <= t.nanosecond < 1_000_000_000
    && -86400 < t.offsetSeconds < 86400 && t.offsetSeconds % 60 == 0
  }

  /** Go's integer division, which truncates toward zero. */
  function Quo(a: int, b: int): int
    requires b > 0
  {
    if a >= 0 then a / b else -((-a) / b)
  }

  /** The time package's appendInt: a sign when negative, then at least `width` digits. */
  function FormatInt(x: int, width: nat): (r: GoString)
    ensures 0 <= x < Pow10(width) ==> r == PadDecimal(x, width)
  {
    var u := if x < 0 then -x else x;
    (if x < 0 then "-" else "") + (if u < Pow10(width) then PadDecimal(u, width) else Digits(u))
  }

  /** Drop every trailing '0'. */
  function TrimZeros(s: GoString): (r: GoString)
    ensures |r| <= |s| && r == s[..|r|]
    ensures forall i :: |r| <= i < |s| ==> s[i] == '0'
    ensures r != [] ==> r[|r| - 1] != '0'
  {
    if s == [] || s[|s| - 1] != '0' then s else TrimZeros(s[..|s| - 1])
  }

  /**
   * The ".999999999" element: nothing for a whole second, otherwise a dot and the
   * nine-digit nanoseconds with trailing zeros (and then a bare dot) removed.
   */
  function FormatFraction(nanosecond: int): GoString {
    if nanosecond == 0 then []
    else
      var b := TrimZeros("." + FormatInt(nanosecond, 9));
      if b != [] && b[|b| - 1] == '.' then b[..|b| - 1] else b
  }

  /** The "Z07:00" element: "Z" for UTC, otherwise a sign and hh:mm of the offset. */
  function FormatZone(offsetSeconds: int): GoString {
    if offsetSeconds == 0 then "Z" else SignedZone(ZoneSign(offsetSeconds), ZoneMinutes(offsetSeconds))
  }

  /** The sign of the offset's whole minutes, '+' for none. */
  function ZoneSign(offsetSeconds: int): Byte {
    if Quo(offsetSeconds, 60) < 0 then '-' else '+'
  }

  /** The offset's whole minutes, without their sign. */
  function ZoneMinutes(offsetSeconds: int): nat {
    var zone := Quo(offsetSeconds, 60);
    if zone < 0 then -zone else zone
  }

  /** A sign, then the hours and minutes of an offset of `minutes` minutes as hh:mm. */
  function SignedZone(sign: Byte, minutes: nat): GoString {
    [sign] + FormatInt(minutes / 60, 2) + Colon + FormatInt(minutes % 60, 2)
  }

  const Dash: GoString := "-"
  const Colon: GoString := ":"
  const TimeMark: GoString := "T"

  /** The date and clock elements, "2006-01-02T15:04:05". */
  function FormatDateTime(t: Timestamp): GoString {
    FormatDate(t) + TimeMark + FormatClock(t)
  }

  /** The date element, "2006-01-02". */
  function FormatDate(t: Timestamp): GoString {
    FormatInt(t.year, 4) + Dash + FormatInt(t.month, 2) + Dash + FormatInt(t.day, 2)
  }

  /** The clock element, "15:04:05". */
  function FormatClock(t: Timestamp): GoString {
    FormatInt(t.hour, 2) + Colon + FormatInt(t.minute, 2) + Colon + FormatInt(t.second, 2)
  }

  /** Time.Format(time.RFC3339Nano). */
  function Format(t: Timestamp): (r: GoString)
    ensures Valid(t) ==> ',' !in r
  {
    var r := FormatDateTime(t) + FormatFraction(t.nanosecond) + FormatZone(t.offsetSeconds);
    assert Valid(t) ==> ',' !in r by {
      if Valid(t) {
        DateHasNoComma(t);
        ClockHasNoComma(t);
        FractionHasNoComma(t.nanosecond);
        ZoneHasNoComma(t.offsetSeconds);
      }
    }
    r
  }

  /** A fixed-width all-digit field whose value lies in [lo, hi]. */
  function ParseField(s: GoString, lo: int, hi: int): (r: Option<int>)
    ensures r.Some? <==> AllDigits(s) && lo <= DecimalValue(s) <= hi
    ensures r.Some? ==> r.value == DecimalValue(s)
  {
    if AllDigits(s) && lo <= DecimalValue(s) <= hi then Some(DecimalValue(s)) else None
  }

  /** Length of the longest prefix of `s` made of digits. */
  function DigitRun(s: GoString): (n: nat)
    ensures n <= |s| && AllDigits(s[..n])
    ensures n < |s| ==> !IsDigit(s[n])
  {
    if s == [] || !IsDigit(s[0]) then 0
    else
      var n := 1 + DigitRun(s[1..]);
      assert s[..n] == [s[0]] + s[1..][..n - 1];
      n
  }

  /** Fractional-second digits as nanoseconds: digits after the ninth are dropped. */
  function ParseFraction(digits: GoString): (ns: nat)
    requires AllDigits(digits)
  {
    var kept := if |digits| > 9 then digits[..9] else digits;
    DecimalValue(kept) * Pow10(9 - |kept|)
  }

  /** The zone: exactly "Z", or a sign, hh (at most 23), ':' and mm (at most 59). */
  function ParseZone(z: GoString): Option<int> {
    if z == "Z" then Some(0)
    else if |z| != 6 || !(z[0] == '+' || z[0] == '-') || z[3] != ':' then None
    else
      var hh, mm := ParseField(z[1..3], 0, 23), ParseField(z[4..6], 0, 59);
      if hh.None? || mm.None? then None
      else
        var offset := (hh.value * 60 + mm.value) * 60;
        Some(if z[0] == '-' then -offset else offset)
  }

  /**
   * The first 19 bytes, "2006-01-02T15:04:05": fixed separators, and each field
   * in range, the day against the length of its month. The result carries no
   * fraction and a zero offset; ParseTail supplies those.
   */
  function ParseDateTime(h: GoString): (r: Option<Timestamp>)
    requires |h| == 19
    ensures r.Some? ==> Valid(r.value)
  {
    if !(h[4] == '-' && h[7] == '-' && h[10] == 'T' && h[13] == ':' && h[16] == ':') then None
    else
      var year, month := ParseField(h[0..4], 0, 9999), ParseField(h[5..7], 1, 12);
      if year.None? || month.None? then None
      else
        var day := ParseField(h[8..10], 1, DaysIn(month.value, year.value));
        var hour, minute, second := ParseField(h[11..13], 0, 23), ParseField(h[14..16], 0, 59), ParseField(h[17..19], 0, 59);
        if day.None? || hour.None? || minute.None? || second.None? then None
        else Some(Timestamp(year.value, month.value, day.value, hour.value, minute.value, second.value, 0, 0))
  }

  /**
   * What follows the seconds: an optional fraction (a dot and one or more digits),
   * then the zone, and nothing after it. Gives the nanoseconds and the offset.
   */
  function ParseTail(rest: GoString): (r: Option<(int, int)>)
    ensures r.Some? ==> 0 <= r.value.0 < 1_000_000_000
    ensures r.Some? ==> -86400 < r.value.1 < 86400 && r.value.1 % 60 == 0
  {
    var hasFraction := |rest| >= 2 && rest[0] == '.' && IsDigit(rest[1]);
    var digits := if hasFraction then rest[1..][..DigitRun(rest[1..])] else [];
    FractionBound(digits);
    var nanosecond := if hasFraction then ParseFraction(digits) else 0;
    var zone := rest[(if hasFraction then 1 + |digits| else 0)..];
    match ParseZone(zone)
    case None => None
    case Some(offset) => ZoneBound(zone); Some((nanosecond, offset))
  }

  /** time.Parse(time.RFC3339Nano, s); whatever it accepts is a timestamp Format writes back faithfully. */
  function Parse(s: GoString): (r: Option<Timestamp>)
    ensures r.Some? ==> Valid(r.value)
  {
    if |s| < 19 then None
    else
      match (ParseDateTime(s[..19]), ParseTail(s[19..]))
      case (Some(t), Some((nanosecond, offset))) => Some(t.(nanosecond := nanosecond, offsetSeconds := offset))
      case _ => None
  }

  /** However many digits a fraction has, it reads as less than a second. */
  lemma FractionBound(digits: GoString)
    requires AllDigits(digits)
    ensures ParseFraction(digits) < 1_000_000_000
  {
    var kept := if |digits| > 9 then digits[..9] else digits;
    assert AllDigits(kept);
    var v, n := DecimalValue(kept), |kept|;
    DecimalValueBound(kept);
    Pow10Add(n, 9 - n);
    Pow10Nine();
    ScaleBelow(v, Pow10(n), Pow10(9 - n));
  }

  lemma Pow10Nine()
    ensures Pow10(9) == 1_000_000_000
  {
  }

  lemma ScaleBelow(v: nat, p: nat, q: nat)
    requires v < p && q >= 1
    ensures v * q < p * q
  {
  }

  /** A zone that parses is a whole number of minutes, less than a day either way. */
  lemma ZoneBound(z: GoString)
    requires ParseZone(z).Some?
    ensures var offset := ParseZone(z).value;
      -86400 < offset < 86400 && offset % 60 == 0
  {
    if z != "Z" {
      var hh, mm := ParseField(z[1..3], 0, 23).value, ParseField(z[4..6], 0, 59).value;
      var minutes := hh * 60 + mm;
      assert 0 <= minutes < 1440;
      assert (minutes * 60) % 60 == 0 && (-(minutes * 60)) % 60 == 0;
    }
  }

  lemma FormatIntHasNoComma(x: int, width: nat)
    requires 0 <= x < Pow10(width)
    ensures ',' !in FormatInt(x, width)
  {
    var p := PadDecimal(x, width);
    assert forall i :: 0 <= i < |p| ==> IsDigit(p[i]);
  }

  lemma DateHasNoComma(t: Timestamp)
    requires Valid(t)
    ensures ',' !in FormatDate(t)
  {
    assert Pow10(2) == 100 && Pow10(4) == 10000;
    FormatIntHasNoComma(t.year, 4);
    FormatIntHasNoComma(t.month, 2);
    FormatIntHasNoComma(t.day, 2);
  }

  lemma ClockHasNoComma(t: Timestamp)
    requires Valid(t)
    ensures ',' !in FormatClock(t)
  {
    assert Pow10(2) == 100;
    FormatIntHasNoComma(t.hour, 2);
    FormatIntHasNoComma(t.minute, 2);
    FormatIntHasNoComma(t.second, 2);
  }

  lemma FractionHasNoComma(nanosecond: int)
    requires 0 <= nanosecond < 1_000_000_000
    ensures ',' !in FormatFraction(nanosecond)
  {
    if nanosecond != 0 {
      FormatIntHasNoComma(nanosecond, 9);
      var d := "." + FormatInt(nanosecond, 9);
      var b := TrimZeros(d);
      assert ',' !in d;
      assert b == d[..|b|];
    }
  }

  lemma ZoneHasNoComma(offsetSeconds: int)
    requires -86400 < offsetSeconds < 86400 && offsetSeconds % 60 == 0
    ensures ',' !in FormatZone(offsetSeconds)
  {
    if offsetSeconds != 0 {
      var sign, minutes := ZoneParts(offsetSeconds);
      var hh, mm := FormatInt(minutes / 60, 2), FormatInt(minutes % 60, 2);
      assert Pow10(2) == 100;
      FormatIntHasNoComma(minutes / 60, 2);
      FormatIntHasNoComma(minutes % 60, 2);
      NotInJoin(',', [sign], hh);
      NotInJoin(',', [sign] + hh, Colon);
      NotInJoin(',', [sign] + hh + Colon, mm);
    }
  }

  lemma NotInJoin(c: Byte, a: GoString, b: GoString)
    requires c !in a && c !in b
    ensures c !in a + b
  {
  }

  lemma ParsePadded(n: nat, width: nat, lo: int, hi: int)
    requires n < Pow10(width) && lo <= n <= hi
    ensures ParseField(PadDecimal(n, width), lo, hi) == Some(n)
  {
  }

  /** Where each field of "2006-01-02" sits. */
  lemma DateLayout(t: Timestamp)
    requires Valid(t)
    ensures var d := FormatDate(t);
      && |d| == 10
      && d[0..4] == PadDecimal(t.year, 4) && d[4] == '-'
      && d[5..7] == PadDecimal(t.month, 2) && d[7] == '-'
      && d[8..10] == PadDecimal(t.day, 2)
  {
    assert Pow10(2) == 100 && Pow10(4) == 10000;
    var y, mo, da := FormatInt(t.year, 4), FormatInt(t.month, 2), FormatInt(t.day, 2);
    assert y == PadDecimal(t.year, 4) && mo == PadDecimal(t.month, 2) && da == PadDecimal(t.day, 2);
    var d := y + Dash + mo + Dash + da;
    assert d[0..4] == y && d[5..7] == mo && d[8..10] == da;
  }

  /** Where each field of "15:04:05" sits. */
  lemma ClockLayout(t: Timestamp)
    requires Valid(t)
    ensures var c := FormatClock(t);
      && |c| == 8
      && c[0..2] == PadDecimal(t.hour, 2) && c[2] == ':'
      && c[3..5] == PadDecimal(t.minute, 2) && c[5] == ':'
      && c[6..8] == PadDecimal(t.second, 2)
  {
    assert Pow10(2) == 100;
    var h, mi, se := FormatInt(t.hour, 2), FormatInt(t.minute, 2), FormatInt(t.second, 2);
    assert h == PadDecimal(t.hour, 2) && mi == PadDecimal(t.minute, 2) && se == PadDecimal(t.second, 2);
    var c := h + Colon + mi + Colon + se;
    assert c[0..2] == h && c[3..5] == mi && c[6..8] == se;
  }

  /** Where the date and the clock sit once joined by the 'T'. */
  lemma JoinDateTime(date: GoString, clock: GoString)
    requires |date| == 10 && |clock| == 8
    ensures var d := date + TimeMark + clock;
      && |d| == 19
      && d[0..4] == date[0..4] && d[4] == date[4]
      && d[5..7] == date[5..7] && d[7] == date[7]
      && d[8..10] == date[8..10] && d[10] == 'T'
      && d[11..13] == clock[0..2] && d[13] == clock[2]
      && d[14..16] == clock[3..5] && d[16] == clock[5]
      && d[17..19] == clock[6..8]
  {
    var d := date + TimeMark + clock;
    assert d[..10] == date && d[11..] == clock;
  }

  lemma {:induction false} DigitRunStops(digits: GoString, rest: GoString)
    requires AllDigits(digits)
    requires rest == [] || !IsDigit(rest[0])
    ensures DigitRun(digits + rest) == |digits|
  {
    if digits == [] {
      assert digits + rest == rest;
    } else {
      assert (digits + rest)[1..] == digits[1..] + rest;
      DigitRunStops(digits[1..], rest);
    }
  }

  /** A digit string with a non-zero value has a digit other than '0'. */
  lemma NonZeroDigit(p: GoString)
    requires AllDigits(p) && DecimalValue(p) != 0
    ensures exists j :: 0 <= j < |p| && p[j] != '0'
  {
    if forall j :: 0 <= j < |p| ==> p[j] == '0' {
      DecimalValueZeros(p);
    }
  }

  /** Trimming the zeros of a dot and some digits that are not all zero stops inside the digits. */
  lemma TrimDotted(p: GoString) returns (k: nat)
    requires AllDigits(p)
    requires exists j :: 0 <= j < |p| && p[j] != '0'
    ensures 1 <= k <= |p| && TrimZeros("." + p) == "." + p[..k]
    ensures forall i :: k <= i < |p| ==> p[i] == '0'
  {
    var d := "." + p;
    var b := TrimZeros(d);
    var j :| 0 <= j < |p| && p[j] != '0';
    assert d[j + 1] == p[j];
    k := |b| - 1;
    assert b == "." + p[..k];
    forall i | k <= i < |p| ensures p[i] == '0' {
      assert p[i] == d[i + 1];
    }
  }

  /** Nine digits whose tail from `k` on is zeros read back from their first `k` digits. */
  lemma ScaledFraction(p: GoString, k: nat)
    requires AllDigits(p) && |p| == 9 && 1 <= k <= 9
    requires forall i :: k <= i < 9 ==> p[i] == '0'
    ensures AllDigits(p[..k]) && ParseFraction(p[..k]) == DecimalValue(p)
  {
    var digits, zeros := p[..k], p[k..];
    DecimalValueZeros(zeros);
    assert p == digits + zeros;
    DecimalValueAppend(digits, zeros);
  }

  /** The fraction element is a dot and one to nine digits that read back as the nanoseconds. */
  lemma FractionLayout(nanosecond: int)
    requires 0 < nanosecond < 1_000_000_000
    ensures var f := FormatFraction(nanosecond);
      && |f| >= 2 && f[0] == '.'
      && |f| <= 10 && AllDigits(f[1..])
      && ParseFraction(f[1..]) == nanosecond
  {
    assert Pow10(9) == 1_000_000_000;
    var p := PadDecimal(nanosecond, 9);
    assert FormatInt(nanosecond, 9) == p;
    NonZeroDigit(p);
    var k := TrimDotted(p);
    var b := "." + p[..k];
    assert b[|b| - 1] == p[k - 1];
    assert FormatFraction(nanosecond) == b;
    assert b[1..] == p[..k];
    ScaledFraction(p, k);
  }

  /** A six-byte "+hh:mm" zone reads its two fields, hours first. */
  lemma ParseZoneFields(sign: Byte, h: GoString, m: GoString)
    requires sign == '+' || sign == '-'
    requires |h| == 2 && |m| == 2
    ensures var z := [sign] + h + Colon + m;
      var hh, mm := ParseField(h, 0, 23), ParseField(m, 0, 59);
      ParseZone(z) == if hh.None? || mm.None? then None
        else Some(if sign == '-' then -((hh.value * 60 + mm.value) * 60) else (hh.value * 60 + mm.value) * 60)
  {
    var z := [sign] + h + Colon + m;
    assert |z| == 6 && z[0] == sign && z[1..3] == h && z[3] == ':' && z[4..6] == m;
    assert z != "Z" by { assert |z| != |"Z"|; }
  }

  /** The "+hh:mm" shape reads back as its signed offset in seconds. */
  lemma ParseSignedZone(sign: Byte, minutes: nat)
    requires sign == '+' || sign == '-'
    requires minutes < 1440
    ensures ParseZone(SignedZone(sign, minutes)) == Some(if sign == '-' then -(minutes * 60) else minutes * 60)
  {
    var hh, mm := minutes / 60, minutes % 60;
    assert Pow10(2) == 100;
    var h, m := FormatInt(hh, 2), FormatInt(mm, 2);
    assert h == PadDecimal(hh, 2) && m == PadDecimal(mm, 2);
    ParsePadded(hh, 2, 0, 23);
    ParsePadded(mm, 2, 0, 59);
    ParseZoneFields(sign, h, m);
    assert hh * 60 + mm == minutes;
  }

  /** A non-zero whole-minute offset prints as a sign and a count of minutes under a day. */
  lemma ZoneParts(offsetSeconds: int) returns (sign: Byte, minutes: nat)
    requires -86400 < offsetSeconds < 86400 && offsetSeconds % 60 == 0 && offsetSeconds != 0
    ensures (sign == '+' || sign == '-') && minutes < 1440
    ensures FormatZone(offsetSeconds) == SignedZone(sign, minutes)
    ensures offsetSeconds == if sign == '-' then -(minutes * 60) else minutes * 60
  {
    WholeMinutes(offsetSeconds);
    sign, minutes := ZoneSign(offsetSeconds), ZoneMinutes(offsetSeconds);
  }

  /** The whole minutes of a whole-minute offset, with the offset's sign. */
  lemma WholeMinutes(offsetSeconds: int)
    requires -86400 < offsetSeconds < 86400 && offsetSeconds % 60 == 0
    ensures var zone := Quo(offsetSeconds, 60);
      && (zone < 0 <==> offsetSeconds < 0) && -1440 < zone < 1440 && offsetSeconds == zone * 60
  {
    if offsetSeconds < 0 {
      assert (-offsetSeconds) % 60 == 0;
    }
  }

  /** The zone element reads back as the offset, and never starts with a digit or a dot. */
  lemma ZoneLayout(offsetSeconds: int)
    requires -86400 < offsetSeconds < 86400 && offsetSeconds % 60 == 0
    ensures var z := FormatZone(offsetSeconds);
      && |z| >= 1 && !IsDigit(z[0]) && z[0] != '.'
      && ParseZone(z) == Some(offsetSeconds)
  {
    if offsetSeconds != 0 {
      var sign, minutes := ZoneParts(offsetSeconds);
      ParseSignedZone(sign, minutes);
    }
  }

  /** The date and clock elements read back as the fields they were written from. */
  lemma DateTimeRoundTrip(t: Timestamp)
    requires Valid(t)
    ensures |FormatDateTime(t)| == 19
    ensures ParseDateTime(FormatDateTime(t)) == Some(t.(nanosecond := 0, offsetSeconds := 0))
  {
    DateLayout(t);
    ClockLayout(t);
    JoinDateTime(FormatDate(t), FormatClock(t));
    ParsePadded(t.year, 4, 0, 9999);
    ParsePadded(t.month, 2, 1, 12);
    ParsePadded(t.day, 2, 1, DaysIn(t.month, t.year));
    ParsePadded(t.hour, 2, 0, 23);
    ParsePadded(t.minute, 2, 0, 59);
    ParsePadded(t.second, 2, 0, 59);
  }

  /** A dot and some digits followed by a zone that starts with no digit: the fraction is exactly those digits. */
  lemma TailFields(f: GoString, z: GoString, offset: int)
    requires |f| >= 2 && f[0] == '.' && AllDigits(f[1..])
    requires |z| >= 1 && !IsDigit(z[0]) && ParseZone(z) == Some(offset)
    ensures ParseTail(f + z) == Some((ParseFraction(f[1..]), offset))
  {
    var rest, digits := f + z, f[1..];
    assert rest[0] == '.' && rest[1] == digits[0];
    assert rest[1..] == digits + z;
    DigitRunStops(digits, z);
    assert rest[1..][..DigitRun(rest[1..])] == digits;
    assert rest[1 + |digits|..] == z;
  }

  /** The fraction and zone elements read back as the nanoseconds and the offset. */
  lemma TailRoundTrip(nanosecond: int, offsetSeconds: int)
    requires 0 <= nanosecond < 1_000_000_000
    requires -86400 < offsetSeconds < 86400 && offsetSeconds % 60 == 0
    ensures ParseTail(FormatFraction(nanosecond) + FormatZone(offsetSeconds)) == Some((nanosecond, offsetSeconds))
  {
    var f, z := FormatFraction(nanosecond), FormatZone(offsetSeconds);
    ZoneLayout(offsetSeconds);
    if nanosecond == 0 {
      assert f + z == z;
    } else {
      FractionLayout(nanosecond);
      TailFields(f, z, offsetSeconds);
    }
  }

  /** Parse reads the first 19 bytes as date and clock and the rest as fraction and zone. */
  lemma ParseParts(d: GoString, f: GoString, z: GoString)
    requires |d| == 19
    ensures Parse(d + f + z) == match (ParseDateTime(d), ParseTail(f + z))
      case (Some(t), Some((nanosecond, offset))) => Some(t.(nanosecond := nanosecond, offsetSeconds := offset))
      case _ => None
  {
    var s := d + f + z;
    assert s[..19] == d && s[19..] == f + z;
  }

  /** Go's time.Parse with RFC3339Nano reads back what time.Format wrote. */
  lemma RoundTrip(t: Timestamp)
    requires Valid(t)
    ensures Parse(Format(t)) == Some(t)
  {
    DateTimeRoundTrip(t);
    TailRoundTrip(t.nanosecond, t.offsetSeconds);
    Reassemble(t, FormatDateTime(t), FormatFraction(t.nanosecond), FormatZone(t.offsetSeconds));
  }

  /** A date-time part and a tail that read back as `t`'s fields read back, together, as `t`. */
  lemma Reassemble(t: Timestamp, d: GoString, f: GoString, z: GoString)
    requires |d| == 19 && ParseDateTime(d) == Some(t.(nanosecond := 0, offsetSeconds := 0))
    requires ParseTail(f + z) == Some((t.nanosecond, t.offsetSeconds))
    ensures Parse(d + f + z) == Some(t)
  {
    ParseParts(d, f, z);
  }
}
