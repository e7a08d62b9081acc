/**
 * The store's keyset cursor: the creation time and id of the last product on a
 * page, written as "<RFC 3339 time>,<id>" and wrapped in standard base64.
 */
module CursorCodec {
  import opened Wrappers
  import opened GoStrings
  import Base64
  import Rfc3339

  /** Where the next page starts: after this (created_at, product_id) pair. */
  datatype Cursor = Cursor(createdAt: Rfc3339.Timestamp, productId: GoString)

  /** Why decodeCursor refused its input, one case per early return. */
  datatype CursorError =
    | InvalidBase64     // base64.StdEncoding.DecodeString failed
    | InvalidFormat     // the text does not split into exactly two parts at ','
    | InvalidTimestamp  // the first part is not an RFC 3339 time

  /** The plain text under the base64: fmt's "%s,%s" of the formatted time and the id. */
  function CursorText(c: Cursor): GoString {
    Rfc3339.Format(c.createdAt) + [','] + c.productId
  }

  /** encodeCursor: the cursor text in standard padded base64. */
  function EncodeCursor(c: Cursor): (s: GoString)
    ensures Base64.Decode(s) == Some(CursorText(c))
  {
    Base64.RoundTrip(CursorText(c));
    Base64.Encode(CursorText(c))
  }

  /**
   * decodeCursor: base64, then a split at every ',', then time.Parse of the first
   * part. Whatever it accepts is a cursor encodeCursor can write.
   */
  function DecodeCursor(s: GoString): (r: Result<Cursor, CursorError>)
    ensures r.Ok? ==> Encodable(r.value)
  {
    match Base64.Decode(s)
    case None => Err(InvalidBase64)
    case Some(text) =>
      var parts := Split(text, ',');
      if |parts| != 2 then Err(InvalidFormat)
      else
        SplitLength(text, ',');
        SplitAtOnlyComma(text);
        match Rfc3339.Parse(parts[0])
        case None => Err(InvalidTimestamp)
        case Some(t) => Ok(Cursor(t, parts[1]))
  }

  /** The cursors a page can hand out and read back: a representable time and an id without ','. */
  predicate Encodable(c: Cursor) {
    Rfc3339.Valid(c.createdAt) && ',' !in c.productId
  }

  /** A text with exactly one ',' splits into what lies before it and what lies after it. */
  lemma {:induction false} SplitAtOnlyComma(text: GoString)
    requires Count(text, ',') == 1
    ensures var i := IndexOf(text, ',');
      && i < |text| && Split(text, ',') == [text[..i], text[i + 1..]]
      && ',' !in text[..i] && ',' !in text[i + 1..]
  {
    var i := IndexOf(text, ',');
    assert i < |text| by {
      CountAbsent(text, ',');
    }
    var before, after := text[..i], text[i + 1..];
    assert text == before + [','] + after;
    OnlyCommaAfter(before, after);
    SplitJoin(before, after, ',');
  }

  /** When the ',' between `before` and `after` is the only one, `after` holds none. */
  lemma {:induction false} OnlyCommaAfter(before: GoString, after: GoString)
    requires Count(before + [','] + after, ',') == 1
    ensures ',' !in after
  {
    CountAppend(before + [','], after, ',');
    CountAppend(before, [','], ',');
    assert Count([','], ',') == 1;
    CountAbsent(after, ',');
  }

  /** Decoding what encodeCursor wrote gives back the cursor. */
  lemma RoundTrip(c: Cursor)
    requires Encodable(c)
    ensures DecodeCursor(EncodeCursor(c)) == Ok(c)
  {
    var time := Rfc3339.Format(c.createdAt);
    SplitJoin(time, c.productId, ',');
    Rfc3339.RoundTrip(c.createdAt);
  }

  /**
   * A product id holding ',' makes the written cursor split into three or more
   * parts, so decodeCursor refuses what encodeCursor wrote.
   */
  lemma {:induction false} CommaInIdRejected(c: Cursor)
    requires Rfc3339.Valid(c.createdAt) && ',' in c.productId
    ensures DecodeCursor(EncodeCursor(c)) == Err(InvalidFormat)
  {
    CommasAround(Rfc3339.Format(c.createdAt), c.productId);
    SplitLength(CursorText(c), ',');
  }

  /** A ',' between a comma-free text and a text holding one makes at least two. */
  lemma {:induction false} CommasAround(before: GoString, after: GoString)
    requires ',' !in before && ',' in after
    ensures Count(before + [','] + after, ',') >= 2
  {
    CountAbsent(before, ',');
    CountAbsent(after, ',');
    CountAppend(before + [','], after, ',');
    CountAppend(before, [','], ',');
    assert Count([','], ',') == 1;
  }

  /**
   * decodeCursor fails exactly in its three ways, in order: not base64, not one
   * ',' in the decoded text, or a first part that is no RFC 3339 time; otherwise
   * the cursor is the time before the ',' and the id after it.
   */
  lemma DecodeCases(s: GoString)
    ensures Base64.Decode(s).None? ==> DecodeCursor(s) == Err(InvalidBase64)
    ensures Base64.Decode(s).Some? && Count(Base64.Decode(s).value, ',') != 1 ==>
      DecodeCursor(s) == Err(InvalidFormat)
    ensures Base64.Decode(s).Some? && Count(Base64.Decode(s).value, ',') == 1 ==>
      var text := Base64.Decode(s).value;
      var i := IndexOf(text, ',');
      && i < |text|
      && DecodeCursor(s) == match Rfc3339.Parse(text[..i])
        case None => Err(InvalidTimestamp)
        case Some(t) => Ok(Cursor(t, text[i + 1..]))
  {
    if Base64.Decode(s).Some? {
      var text := Base64.Decode(s).value;
      SplitLength(text, ',');
      if Count(text, ',') == 1 {
        CountAbsent(text, ',');
        SplitAtOnlyComma(text);
      }
    }
  }

  /** Every cursor decodeCursor accepts is one encodeCursor can write and read back. */
  lemma DecodedIsEncodable(s: GoString)
    requires DecodeCursor(s).Ok?
    ensures Encodable(DecodeCursor(s).value)
    ensures DecodeCursor(EncodeCursor(DecodeCursor(s).value)) == DecodeCursor(s)
  {
    RoundTrip(DecodeCursor(s).value);
  }
}
