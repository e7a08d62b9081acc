/**
 * The HTTP handler for GET /products: read the query string, check the limit,
 * the cursor and the category in that order, ask the store for the page, and
 * wrap the page's NextCursor in one more layer of base64 before answering.
 *
 * The handler's cursor is doubly encoded: the store's own cursor is base64 of
 * "<created_at>,<id>", and the handler hands out base64 of that text and takes
 * back base64 of it.
 */
module ProductHandlers {
  import opened Wrappers
  import opened GoStrings
  import Base64
  import opened CursorCodec
  import opened QueryComposer
  import ProductListing

  /** The request's query string, each key with its first value. */
  type QueryString = map<GoString, GoString>

  /** c.Query: the key's value, or the empty string when the key is absent. */
  function Query(q: QueryString, key: GoString): GoString {
    if key in q then q[key] else []
  }

  /** c.DefaultQuery: the key's value, even an empty one, or the default when the key is absent. */
  function DefaultQuery(q: QueryString, key: GoString, default: GoString): GoString {
    if key in q then q[key] else default
  }

  /** encodeCursor in the handler: the store's cursor in standard padded base64. */
  function EncodeOuter(cursor: GoString): (s: GoString)
    ensures Base64.Decode(s) == Some(cursor)
    ensures s == [] <==> cursor == []
  {
    Base64.RoundTrip(cursor);
    Base64.EncodeEmpty(cursor);
    Base64.Encode(cursor)
  }

  /** decodeCursor in the handler: undo one layer of base64, or fail. */
  function DecodeOuter(s: GoString): (r: Option<GoString>)
    ensures r.Some? ==> |r.value| <= |s| / 4 * 3
  {
    Base64.Decode(s)
  }

  /** The query-string keys the handler reads. */
  const LimitKey: GoString := "limit"
  const CursorKey: GoString := "cursor"
  const CategoryKey: GoString := "category"
  const SearchKey: GoString := "search"
  const SellerIdKey: GoString := "seller_id"
  const AvailabilityKey: GoString := "availability"
  const RecommendationKey: GoString := "recommendation"
  const ProductTypeKey: GoString := "product_type"
  const SortKey: GoString := "sort"
  const OrderKey: GoString := "order"

  const DefaultLimitText: GoString := "20"

  const InvalidLimitMessage: GoString := "Invalid limit value"
  const InvalidCursorMessage: GoString := "Invalid cursor"
  const InvalidCategoryMessage: GoString := "Invalid category ID"

  /** What the handler answers: a 400 with its message, a 500 with the store's error, or a 200 with the page. */
  datatype HttpResponse =
    | BadRequest(message: GoString)
    | ServerError(error: ProductListing.ListError)
    | Success(page: ProductListing.ProductResponse)

  function StatusCode(r: HttpResponse): int {
    match r
    case BadRequest(_) => 400
    case ServerError(_) => 500
    case Success(_) => 200
  }

  /**
   * The parameters the handler hands to the store, or the message of the 400 it
   * answers instead. The limit is parsed but not clamped: the store clamps it.
   */
  function ParseRequest(q: QueryString): (r: Result<ProductQueryParams, GoString>)
    ensures r.Err? ==> r.error in {InvalidLimitMessage, InvalidCursorMessage, InvalidCategoryMessage}
    ensures r.Ok? ==> Atoi(DefaultQuery(q, LimitKey, DefaultLimitText)) == Some(r.value.limit)
  {
    match Atoi(DefaultQuery(q, LimitKey, DefaultLimitText))
    case None => Err(InvalidLimitMessage)
    case Some(limit) =>
      var cursor := Query(q, CursorKey);
      var decoded := if cursor == [] then Some([]) else DecodeOuter(cursor);
      if decoded.None? then Err(InvalidCursorMessage)
      else
        var category := Query(q, CategoryKey);
        var categoryId := if category == [] then Some(0) else Atoi(category);
        if categoryId.None? then Err(InvalidCategoryMessage)
        else
          Ok(ProductQueryParams(
            decoded.value, limit, Query(q, SearchKey), categoryId.value, Query(q, SellerIdKey),
            Query(q, AvailabilityKey), Query(q, RecommendationKey), Query(q, ProductTypeKey),
            Query(q, SortKey), Query(q, OrderKey)))
  }

  /** The page as the handler sends it: a non-empty NextCursor gets its outer layer of base64. */
  function Rewrap(page: ProductListing.ProductResponse): ProductListing.ProductResponse {
    if page.nextCursor != [] then page.(nextCursor := EncodeOuter(page.nextCursor)) else page
  }

  /** The whole request: parse, list, rewrap. */
  function Handle(q: QueryString, db: Statement -> ProductListing.QueryOutcome,
                  images: GoString -> Option<seq<ProductListing.ProductImage>>,
                  options: GoString -> Option<seq<ProductListing.ProductOption>>): (r: HttpResponse)
    ensures r.BadRequest? <==> ParseRequest(q).Err?
    ensures r.ServerError? <==> ParseRequest(q).Ok? && ProductListing.ListProducts(ParseRequest(q).value, db, images, options).Err?
  {
    var parsed := ParseRequest(q);
    if parsed.Err? then BadRequest(parsed.error)
    else
      var listed := ProductListing.ListProducts(parsed.value, db, images, options);
      if listed.Err? then ServerError(listed.error) else Success(Rewrap(listed.value))
  }

  /** The handler, step by step as it runs; the answer is the one Handle describes. */
  method GetProducts(q: QueryString, db: Statement -> ProductListing.QueryOutcome,
                     images: GoString -> Option<seq<ProductListing.ProductImage>>,
                     options: GoString -> Option<seq<ProductListing.ProductOption>>)
    returns (r: HttpResponse)
    ensures r == Handle(q, db, images, options)
  {
    var limitText := DefaultQuery(q, LimitKey, DefaultLimitText);
    var limit := Atoi(limitText);
    if limit.None? {
      return BadRequest(InvalidLimitMessage);
    }

    var cursor := Query(q, CursorKey);
    var decodedCursor: GoString := [];
    if cursor != [] {
      var decoded := DecodeOuter(cursor);
      if decoded.None? {
        return BadRequest(InvalidCursorMessage);
      }
      decodedCursor := decoded.value;
    }

    var categoryText := Query(q, CategoryKey);
    var categoryId := 0;
    if categoryText != [] {
      var parsed := Atoi(categoryText);
      if parsed.None? {
        return BadRequest(InvalidCategoryMessage);
      }
      categoryId := parsed.value;
    }

    var params := ProductQueryParams(
      decodedCursor, limit.value, Query(q, SearchKey), categoryId, Query(q, SellerIdKey),
      Query(q, AvailabilityKey), Query(q, RecommendationKey), Query(q, ProductTypeKey),
      Query(q, SortKey), Query(q, OrderKey));
    assert ParseRequest(q) == Ok(params);

    var listed := ProductListing.GetProducts(params, db, images, options);
    if listed.Err? {
      return ServerError(listed.error);
    }

    var response := listed.value;
    if response.nextCursor != [] {
      response := response.(nextCursor := EncodeOuter(response.nextCursor));
    }
    assert response == Rewrap(listed.value);
    r := Success(response);
  }

  // ---------------------------------------------------------------------------
  // Properties
  // ---------------------------------------------------------------------------

  /**
   * The three checks, in order: a limit Atoi rejects, then a non-empty cursor
   * that is not base64, then a non-empty category Atoi rejects.
   */
  lemma ParseErrors(q: QueryString)
    ensures ParseRequest(q) == Err(InvalidLimitMessage)
      <==> Atoi(DefaultQuery(q, LimitKey, DefaultLimitText)).None?
    ensures ParseRequest(q) == Err(InvalidCursorMessage)
      <==> && Atoi(DefaultQuery(q, LimitKey, DefaultLimitText)).Some?
           && Query(q, CursorKey) != [] && DecodeOuter(Query(q, CursorKey)).None?
    ensures ParseRequest(q) == Err(InvalidCategoryMessage)
      <==> && Atoi(DefaultQuery(q, LimitKey, DefaultLimitText)).Some?
           && (Query(q, CursorKey) == [] || DecodeOuter(Query(q, CursorKey)).Some?)
           && Query(q, CategoryKey) != [] && Atoi(Query(q, CategoryKey)).None?
    ensures ParseRequest(q).Err? ==>
      ParseRequest(q).error in {InvalidLimitMessage, InvalidCursorMessage, InvalidCategoryMessage}
  {
  }

  /**
   * Without a limit key the page size asked for is 20, but a limit key with an
   * empty value is an invalid limit.
   */
  lemma LimitDefault(q: QueryString)
    ensures LimitKey !in q && ParseRequest(q).Ok? ==> ParseRequest(q).value.limit == 20
    ensures LimitKey in q && q[LimitKey] == [] ==> ParseRequest(q) == Err(InvalidLimitMessage)
  {
    if LimitKey !in q {
      AtoiItoa(20);
      assert Itoa(20) == DefaultLimitText;
    }
  }

  /** An accepted request carries the limit as written and a missing category as 0. */
  lemma ParsedFields(q: QueryString)
    requires ParseRequest(q).Ok?
    ensures var p := ParseRequest(q).value;
      && Atoi(DefaultQuery(q, LimitKey, DefaultLimitText)) == Some(p.limit)
      && (Query(q, CategoryKey) == [] ==> p.categoryId == 0)
      && (Query(q, CategoryKey) != [] ==> Atoi(Query(q, CategoryKey)) == Some(p.categoryId))
      && (Query(q, CursorKey) == [] ==> p.cursor == [])
      && (Query(q, CursorKey) != [] ==> DecodeOuter(Query(q, CursorKey)) == Some(p.cursor))
      && p.search == Query(q, SearchKey) && p.sellerId == Query(q, SellerIdKey)
      && p.availability == Query(q, AvailabilityKey) && p.recommendation == Query(q, RecommendationKey)
      && p.productType == Query(q, ProductTypeKey) && p.sort == Query(q, SortKey) && p.order == Query(q, OrderKey)
  {
  }

  /** A store cursor the handler wrapped comes back unwrapped, whatever it holds. */
  lemma CursorUnwrapped(q: QueryString, inner: GoString)
    requires inner != []
    requires ParseRequest(q).Ok?
    ensures ParseRequest(q[CursorKey := EncodeOuter(inner)]) == Ok(ParseRequest(q).value.(cursor := inner))
  {
    var q' := q[CursorKey := EncodeOuter(inner)];
    assert Query(q', LimitKey) == Query(q, LimitKey);
    assert DefaultQuery(q', LimitKey, DefaultLimitText) == DefaultQuery(q, LimitKey, DefaultLimitText);
    assert Query(q', CategoryKey) == Query(q, CategoryKey);
    assert Query(q', SearchKey) == Query(q, SearchKey);
    assert Query(q', SellerIdKey) == Query(q, SellerIdKey);
    assert Query(q', AvailabilityKey) == Query(q, AvailabilityKey);
    assert Query(q', RecommendationKey) == Query(q, RecommendationKey);
    assert Query(q', ProductTypeKey) == Query(q, ProductTypeKey);
    assert Query(q', SortKey) == Query(q, SortKey);
    assert Query(q', OrderKey) == Query(q, OrderKey);
  }

  /** Rewrapping changes only a non-empty NextCursor, and one layer of base64 undoes it. */
  lemma RewrapCursor(page: ProductListing.ProductResponse)
    ensures Rewrap(page).items == page.items && Rewrap(page).limit == page.limit
    ensures Rewrap(page).nextCursor == [] <==> page.nextCursor == []
    ensures page.nextCursor != [] ==> DecodeOuter(Rewrap(page).nextCursor) == Some(page.nextCursor)
  {
  }

  /** A 200 page reports the clamped limit and holds no more products than that. */
  lemma HandledLimit(q: QueryString, db: Statement -> ProductListing.QueryOutcome,
                     images: GoString -> Option<seq<ProductListing.ProductImage>>,
                     options: GoString -> Option<seq<ProductListing.ProductOption>>)
    requires Handle(q, db, images, options).Success?
    ensures var page := Handle(q, db, images, options).page;
      page.limit == EffectiveLimit(ParseRequest(q).value.limit) && |page.items| <= page.limit
  {
    var p := ParseRequest(q).value;
    ProductListing.ListedLimit(p, db, images, options);
    RewrapCursor(ProductListing.ListProducts(p, db, images, options).value);
  }

  /**
   * A cursor that passes the handler's base64 check but not the store's decoding
   * is answered with 500, not 400.
   */
  lemma BadInnerCursor(q: QueryString, db: Statement -> ProductListing.QueryOutcome,
                       images: GoString -> Option<seq<ProductListing.ProductImage>>,
                       options: GoString -> Option<seq<ProductListing.ProductOption>>)
    requires ParseRequest(q).Ok?
    requires ParseRequest(q).value.cursor != []
    requires DecodeCursor(ParseRequest(q).value.cursor).Err?
    ensures Handle(q, db, images, options)
      == ServerError(ProductListing.InvalidCursor(DecodeCursor(ParseRequest(q).value.cursor).error))
  {
    PrepareFails(ParseRequest(q).value);
  }

  /**
   * Following a page: sending back the NextCursor the handler answered asks the
   * store for the same listing, resumed after the store's own cursor.
   */
  lemma NextPageRequest(q: QueryString, db: Statement -> ProductListing.QueryOutcome,
                        images: GoString -> Option<seq<ProductListing.ProductImage>>,
                        options: GoString -> Option<seq<ProductListing.ProductOption>>)
    requires Handle(q, db, images, options).Success?
    requires Handle(q, db, images, options).page.nextCursor != []
    ensures var p := ParseRequest(q).value;
      var inner := ProductListing.ListProducts(p, db, images, options).value.nextCursor;
      ParseRequest(q[CursorKey := Handle(q, db, images, options).page.nextCursor]) == Ok(p.(cursor := inner))
  {
    var p := ParseRequest(q).value;
    var page := ProductListing.ListProducts(p, db, images, options).value;
    RewrapCursor(page);
    CursorUnwrapped(q, page.nextCursor);
  }

  /** The handler's cursor for a store cursor decodes, through both layers, to that cursor. */
  lemma CursorLayers(c: Cursor)
    requires Encodable(c)
    ensures DecodeOuter(EncodeOuter(EncodeCursor(c))) == Some(EncodeCursor(c))
    ensures DecodeCursor(DecodeOuter(EncodeOuter(EncodeCursor(c))).value) == Ok(c)
  {
    RoundTrip(c);
  }
}
