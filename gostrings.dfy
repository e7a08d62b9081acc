/**
 * Go strings and the few standard-library string routines the listing core uses:
 * decimal digits, strconv.Atoi and strconv.Itoa, strings.Split on one separator,
 * strings.ReplaceAll of the space character and strings.ToLower.
 *
 * A Go string is a sequence of bytes. It is modelled as a sequence of characters
 * below 256, one character per byte, so that ASCII literals stay readable.
 */
module GoStrings {
  import opened Wrappers

  type Byte = c: char | c as int < 256 witness 'a'

  type GoString = seq<Byte>

  /** The range of Go's `int` on the 64-bit platforms the service runs on. */
  const MinInt64: int := -0x8000_0000_0000_0000
  const MaxInt64: int := 0x7FFF_FFFF_FFFF_FFFF

  predicate IsDigit(c: Byte) {
    '0' <= c <= '9'
  }

  predicate AllDigits(s: GoString) {
    forall i :: 0 <= i < |s| ==> IsDigit(s[i])
  }

  function DigitValue(c: Byte): (d: nat)
    requires IsDigit(c)
    ensures d < 10
  {
    c as int - '0' as int
  }

  function DigitChar(d: nat): (c: Byte)
    requires d < 10
    ensures IsDigit(c) && DigitValue(c) == d
  {
    ('0' as int + d) as char
  }

  function Pow10(n: nat): (r: nat)
    ensures r >= 1
  {
    if n == 0 then 1 else 10 * Pow10(n - 1)
  }

  /** The value of a string of decimal digits, most significant digit first. */
  function DecimalValue(s: GoString): nat
    requires AllDigits(s)
  {
    if s == [] then 0 else DecimalValue(s[..|s| - 1]) * 10 + DigitValue(s[|s| - 1])
  }

  /** The decimal digits of `n`, left-padded with zeros to `width` digits. */
  function PadDecimal(n: nat, width: nat): (r: GoString)
    requires n < Pow10(width)
    ensures |r| == width && AllDigits(r) && DecimalValue(r) == n
  {
    if width == 0 then []
    else
      var r := PadDecimal(n / 10, width - 1) + [DigitChar(n % 10)];
      assert r[..|r| - 1] == PadDecimal(n / 10, width - 1);
      r
  }

  /** The shortest decimal digits of a natural number (no leading zeros). */
  function Digits(n: nat): (r: GoString)
    ensures 1 <= |r| && AllDigits(r) && DecimalValue(r) == n
    ensures |r| > 1 ==> r[0] != '0'
  {
    if n < 10 then [DigitChar(n)]
    else
      var r := Digits(n / 10) + [DigitChar(n % 10)];
      assert r[..|r| - 1] == Digits(n / 10);
      r
  }

  /** strconv.Itoa, also what fmt's %d writes. */
  function Itoa(n: int): GoString {
    if n < 0 then "-" + Digits(-n) else Digits(n)
  }

  /**
   * strconv.Atoi in base 10 on a 64-bit platform: an optional sign, then one or
   * more decimal digits, and the value must fit in 64 bits. Anything else is an
   * error (no spaces, no underscores, no base prefix).
   */
  function Atoi(s: GoString): (r: Option<int>)
    ensures r.Some? ==> MinInt64 <= r.value <= MaxInt64
  {
    var neg := |s| > 0 && s[0] == '-';
    var body := if |s| > 0 && (s[0] == '-' || s[0] == '+') then s[1..] else s;
    if body == [] || !AllDigits(body) then None
    else
      var v: int := if neg then -(DecimalValue(body) as int) else DecimalValue(body);
      if MinInt64 <= v <= MaxInt64 then Some(v) else None
  }

  lemma AtoiItoa(n: int)
    requires MinInt64 <= n <= MaxInt64
    ensures Atoi(Itoa(n)) == Some(n)
  {
    if n < 0 {
      assert Itoa(n)[1..] == Digits(-n);
    } else {
      assert Digits(n)[0] != '-' && Digits(n)[0] != '+' by {
        assert IsDigit(Digits(n)[0]);
      }
    }
  }

  /** The value of a digit string extends by place value when digits are appended. */
  lemma {:induction false} DecimalValueAppend(a: GoString, b: GoString)
    requires AllDigits(a) && AllDigits(b)
    ensures AllDigits(a + b)
    ensures DecimalValue(a + b) == DecimalValue(a) * Pow10(|b|) + DecimalValue(b)
  {
    var ab := a + b;
    assert AllDigits(ab) by {
      forall i | 0 <= i < |ab| ensures IsDigit(ab[i]) {
        if i < |a| { assert ab[i] == a[i]; } else { assert ab[i] == b[i - |a|]; }
      }
    }
    if b == [] {
      assert ab == a;
    } else {
      var b' := b[..|b| - 1];
      var last := b[|b| - 1];
      assert ab[..|ab| - 1] == a + b';
      assert ab[|ab| - 1] == last;
      assert AllDigits(b');
      DecimalValueAppend(a, b');
      var x, y, p, d := DecimalValue(a), DecimalValue(b'), Pow10(|b'|), DigitValue(last);
      assert DecimalValue(ab) == DecimalValue(a + b') * 10 + d;
      assert DecimalValue(b) == y * 10 + d;
      assert Pow10(|b|) == 10 * p;
      PlaceValueStep(x, p, y, d);
    }
  }

  lemma PlaceValueStep(x: int, p: int, y: int, d: int)
    ensures (x * p + y) * 10 + d == x * (10 * p) + (y * 10 + d)
  {
  }

  /** A digit string is worth less than ten to the power of its length. */
  lemma {:induction false} DecimalValueBound(s: GoString)
    requires AllDigits(s)
    ensures DecimalValue(s) < Pow10(|s|)
  {
    if s != [] {
      var init := s[..|s| - 1];
      DecimalValueBound(init);
      assert DecimalValue(s) == DecimalValue(init) * 10 + DigitValue(s[|s| - 1]);
      assert Pow10(|s|) == 10 * Pow10(|init|);
    }
  }

  lemma {:induction false} Pow10Add(a: nat, b: nat)
    ensures Pow10(a + b) == Pow10(a) * Pow10(b)
  {
    if b != 0 {
      Pow10Add(a, b - 1);
      assert Pow10(a + b) == 10 * Pow10(a + b - 1);
    }
  }

  /** A run of zero digits has value zero. */
  lemma {:induction false} DecimalValueZeros(z: GoString)
    requires forall i :: 0 <= i < |z| ==> z[i] == '0'
    ensures AllDigits(z) && DecimalValue(z) == 0
  {
    if z != [] {
      DecimalValueZeros(z[..|z| - 1]);
    }
  }

  /** Number of occurrences of `c` in `s`. */
  function Count(s: GoString, c: Byte): nat {
    if s == [] then 0 else (if s[0] == c then 1 else 0) + Count(s[1..], c)
  }

  /** Index of the first occurrence of `c` in `s`, or |s| when there is none. */
  function IndexOf(s: GoString, c: Byte): (i: nat)
    ensures i <= |s| && c !in s[..i]
    ensures i < |s| ==> s[i] == c
    ensures i == |s| <==> c !in s
  {
    if s == [] then 0
    else if s[0] == c then 0
    else
      var i := 1 + IndexOf(s[1..], c);
      assert s[..i] == [s[0]] + s[1..][..i - 1];
      i
  }

  /** strings.Split(s, sep) for a one-byte separator: every piece between separators, in order. */
  function Split(s: GoString, sep: Byte): (parts: seq<GoString>)
    ensures |parts| >= 1
    decreases |s|
  {
    var i := IndexOf(s, sep);
    if i == |s| then [s] else [s[..i]] + Split(s[i + 1..], sep)
  }

  /** Count distributes over concatenation. */
  lemma {:induction false} CountAppend(a: GoString, b: GoString, c: Byte)
    ensures Count(a + b, c) == Count(a, c) + Count(b, c)
  {
    if a != [] {
      assert (a + b)[1..] == a[1..] + b;
      CountAppend(a[1..], b, c);
    } else {
      assert a + b == b;
    }
  }

  lemma {:induction false} CountAbsent(s: GoString, c: Byte)
    ensures Count(s, c) == 0 <==> c !in s
  {
    if s != [] {
      CountAbsent(s[1..], c);
      assert s == [s[0]] + s[1..];
    }
  }

  /** Split yields exactly one more piece than there are separators. */
  lemma {:induction false} SplitLength(s: GoString, sep: Byte)
    ensures |Split(s, sep)| == Count(s, sep) + 1
    decreases |s|
  {
    var i := IndexOf(s, sep);
    if i == |s| {
      CountAbsent(s, sep);
    } else {
      assert s == s[..i] + [sep] + s[i + 1..];
      CountAppend(s[..i] + [sep], s[i + 1..], sep);
      CountAppend(s[..i], [sep], sep);
      CountAbsent(s[..i], sep);
      SplitLength(s[i + 1..], sep);
    }
  }

  /** Joining two separator-free pieces with one separator and splitting again gives the pieces back. */
  lemma SplitJoin(a: GoString, b: GoString, sep: Byte)
    requires sep !in a && sep !in b
    ensures Split(a + [sep] + b, sep) == [a, b]
  {
    var s := a + [sep] + b;
    var i := IndexOf(s, sep);
    assert s[..|a|] == a;
    assert i == |a|;
    assert s[i + 1..] == b;
  }

  /** strings.ReplaceAll(s, " ", ""): the string with every ASCII space removed, other bytes in order. */
  function RemoveSpaces(s: GoString): (r: GoString)
    ensures ' ' !in r
    ensures |r| <= |s|
    ensures forall c :: c != ' ' ==> multiset(r)[c] == multiset(s)[c]
  {
    if s == [] then []
    else
      assert s == [s[0]] + s[1..];
      (if s[0] == ' ' then [] else [s[0]]) + RemoveSpaces(s[1..])
  }

  /** Removing spaces leaves a space-free string unchanged, so it is idempotent. */
  lemma {:induction false} RemoveSpacesIdentity(s: GoString)
    requires ' ' !in s
    ensures RemoveSpaces(s) == s
  {
    if s != [] {
      RemoveSpacesIdentity(s[1..]);
    }
  }

  /** Spaces may be added anywhere without changing the result. */
  lemma {:induction false} RemoveSpacesAppend(a: GoString, b: GoString)
    ensures RemoveSpaces(a + b) == RemoveSpaces(a) + RemoveSpaces(b)
  {
    if a == [] {
      assert a + b == b;
    } else {
      var head: GoString := if a[0] == ' ' then [] else [a[0]];
      assert (a + b)[0] == a[0] && (a + b)[1..] == a[1..] + b;
      RemoveSpacesAppend(a[1..], b);
      assert RemoveSpaces(a + b) == head + (RemoveSpaces(a[1..]) + RemoveSpaces(b));
      assert RemoveSpaces(a) == head + RemoveSpaces(a[1..]);
      assert head + (RemoveSpaces(a[1..]) + RemoveSpaces(b)) == (head + RemoveSpaces(a[1..])) + RemoveSpaces(b);
    }
  }

  function LowerByte(c: Byte): Byte {
    if 'A' <= c <= 'Z' then (c as int + 32) as char else c
  }

  /**
   * strings.ToLower restricted to what it does to ASCII letters. A byte of 128 or
   * more is left as it is; see AsciiLowerOfKeyword for why that is enough here.
   */
  function AsciiLower(s: GoString): (r: GoString)
    ensures |r| == |s|
    ensures forall i :: 0 <= i < |s| ==> r[i] == LowerByte(s[i])
  {
    seq(|s|, i requires 0 <= i < |s| => LowerByte(s[i]))
  }

  /**
   * If the lowered string is an all-ASCII keyword then so was the input: a byte of
   * 128 or more survives lowering, so it cannot produce "asc" or "desc".
   */
  lemma AsciiLowerOfKeyword(s: GoString, keyword: GoString)
    requires forall i :: 0 <= i < |keyword| ==> keyword[i] as int < 128
    requires AsciiLower(s) == keyword
    ensures forall i :: 0 <= i < |s| ==> s[i] as int < 128
  {
    forall i | 0 <= i < |s| ensures s[i] as int < 128 {
      assert AsciiLower(s)[i] == keyword[i];
    }
  }
}
