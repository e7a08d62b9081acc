/**
 * The second half of the store's GetProducts: run the statement, read at most
 * one row more than the page size, enrich every row with its images and options,
 * and cut the page, whose NextCursor points after its last product.
 *
 * The database is a function from the statement to its outcome, and the image and
 * option loaders are functions from a product id to their result; the rows come
 * back already filtered and ordered by the statement.
 */
module ProductListing {
  import opened Wrappers
  import opened GoStrings
  import Base64
  import Rfc3339
  import opened CursorCodec
  import opened QueryComposer

  datatype Category = Category(id: int, name: GoString)

  datatype Inventory = Inventory(quantity: int, updatedAt: Rfc3339.Timestamp)

  datatype ProductImage = ProductImage(
    id: GoString,
    productId: GoString,
    imageUrl: GoString,
    isPrimary: bool,
    altText: GoString,
    sortOrder: int,
    createdAt: Rfc3339.Timestamp)

  /** An option; its values are raw JSON, carried along unread. */
  datatype ProductOption = ProductOption(id: GoString, optName: GoString, values: seq<Byte>)

  /** The product columns; the price is carried along and never computed with. */
  datatype Product = Product(
    id: GoString,
    name: GoString,
    description: GoString,
    brand: GoString,
    modelNumber: GoString,
    sku: GoString,
    price: real,
    availability: GoString,
    recommendation: GoString,
    sellerId: GoString,
    productType: GoString,
    categoryId: int,
    createdAt: Rfc3339.Timestamp,
    updatedAt: Rfc3339.Timestamp)

  /** One entry of the page: the product with its category, inventory, images and options. */
  datatype ProductItem = ProductItem(
    product: Product,
    categories: seq<Category>,
    inventory: Inventory,
    images: seq<ProductImage>,
    options: seq<ProductOption>)

  datatype ProductResponse = ProductResponse(items: seq<ProductItem>, nextCursor: GoString, limit: int)

  /** The seventeen columns of one result row, in SELECT order. */
  datatype Row = Row(
    id: GoString,
    name: GoString,
    description: GoString,
    brand: GoString,
    modelNumber: GoString,
    sku: GoString,
    price: real,
    availability: GoString,
    recommendation: GoString,
    sellerId: GoString,
    productType: GoString,
    createdAt: Rfc3339.Timestamp,
    updatedAt: Rfc3339.Timestamp,
    categoryId: int,
    categoryName: GoString,
    quantity: int,
    inventoryUpdatedAt: Rfc3339.Timestamp)

  /**
   * A row as rows.Scan meets it: its columns, or a row Scan refuses (a NULL from
   * one of the LEFT JOINs, say, cannot go into an int or a string).
   */
  datatype RowRead = Scannable(row: Row) | Unscannable

  /**
   * What the database does with the statement: refuses it, or yields its rows in
   * order, after which rows.Next stops, with an error or without one.
   */
  datatype QueryOutcome = QueryFailed | Rows(results: seq<RowRead>, failsAtEnd: bool)

  /** Why the store gives up, one case per error return, in the order they can happen. */
  datatype ListError =
    | InvalidCursor(reason: CursorError)  // "invalid cursor: ..."
    | QueryError                          // "failed to get products: ..."
    | ScanError                           // "failed to scan product: ..."
    | ImagesError                         // "failed to get product images: ..."
    | OptionsError                        // "failed to get product options: ..."
    | IterationError                      // "failed to iterate over products: ..."

  /**
   * The entry built from a scanned row: the product fields, the category as a
   * one-element list, the inventory, and the loaded images and options. The
   * product's own CategoryID is not scanned and keeps Go's zero value.
   */
  function ItemOf(row: Row, images: seq<ProductImage>, options: seq<ProductOption>): ProductItem {
    var product := Product(row.id, row.name, row.description, row.brand, row.modelNumber, row.sku, row.price,
                           row.availability, row.recommendation, row.sellerId, row.productType, 0,
                           row.createdAt, row.updatedAt);
    ProductItem(product, [Category(row.categoryId, row.categoryName)],
                Inventory(row.quantity, row.inventoryUpdatedAt), images, options)
  }

  /** One turn of the loop body: scan, then load images, then load options; the first failure is the error. */
  function Enrich(read: RowRead, images: GoString -> Option<seq<ProductImage>>,
                  options: GoString -> Option<seq<ProductOption>>): Result<ProductItem, ListError>
  {
    if read.Unscannable? then Err(ScanError)
    else
      var row := read.row;
      if images(row.id).None? then Err(ImagesError)
      else if options(row.id).None? then Err(OptionsError)
      else Ok(ItemOf(row, images(row.id).value, options(row.id).value))
  }

  function Prepend(items: seq<ProductItem>, rest: Result<seq<ProductItem>, ListError>): Result<seq<ProductItem>, ListError> {
    if rest.Ok? then Ok(items + rest.value) else rest
  }

  /**
   * The read loop: enrich rows in order and stop once `want` entries are
   * collected. Running out of rows first ends the loop normally, and then an
   * error that stopped rows.Next is reported; stopping early never looks at it.
   */
  function Collect(results: seq<RowRead>, failsAtEnd: bool, want: nat,
                   images: GoString -> Option<seq<ProductImage>>,
                   options: GoString -> Option<seq<ProductOption>>): Result<seq<ProductItem>, ListError>
  {
    if results == [] then (if failsAtEnd then Err(IterationError) else Ok([]))
    else
      match Enrich(results[0], images, options)
      case Err(e) => Err(e)
      case Ok(item) =>
        if want <= 1 then Ok([item])
        else Prepend([item], Collect(results[1..], failsAtEnd, want - 1, images, options))
  }

  /** Go's min on ints. */
  function Min(a: int, b: int): (r: int)
    ensures r <= a && r <= b
    ensures r == a || r == b
  {
    if a < b then a else b
  }

  /** The page: the first `limit` entries, and a cursor after the last of them when more were found. */
  function Assemble(products: seq<ProductItem>, limit: int): ProductResponse
    requires 0 <= limit
  {
    var items := products[..Min(|products|, limit)];
    if |products| > limit && limit >= 1 then
      var last := products[limit - 1].product;
      ProductResponse(items, EncodeCursor(Cursor(last.createdAt, last.id)), limit)
    else
      ProductResponse(items, [], limit)
  }

  /** Running a composed statement: query, read at most one row past the page, cut the page. */
  function Serve(statement: Statement, db: Statement -> QueryOutcome,
                 images: GoString -> Option<seq<ProductImage>>,
                 options: GoString -> Option<seq<ProductOption>>): Result<ProductResponse, ListError>
    requires 0 <= statement.limit
  {
    match db(statement)
    case QueryFailed => Err(QueryError)
    case Rows(results, failsAtEnd) =>
      match Collect(results, failsAtEnd, statement.limit + 1, images, options)
      case Err(e) => Err(e)
      case Ok(products) => Ok(Assemble(products, statement.limit))
  }

  /** The store's GetProducts, as a function of the parameters, the database and the two loaders. */
  function ListProducts(p: ProductQueryParams, db: Statement -> QueryOutcome,
                        images: GoString -> Option<seq<ProductImage>>,
                        options: GoString -> Option<seq<ProductOption>>): Result<ProductResponse, ListError>
  {
    match Prepare(p)
    case Err(e) => Err(InvalidCursor(e))
    case Ok(statement) =>
      PreparedLimit(p);
      Serve(statement, db, images, options)
  }

  /**
   * The `for rows.Next()` loop: scan each row, load its images and options,
   * append it, and break once `limit + 1` products are collected; afterwards
   * rows.Err reports an error that ended the iteration.
   */
  method ReadRows(results: seq<RowRead>, failsAtEnd: bool, limit: int,
                  images: GoString -> Option<seq<ProductImage>>,
                  options: GoString -> Option<seq<ProductOption>>)
    returns (r: Result<seq<ProductItem>, ListError>)
    requires limit >= 1
    ensures r == Collect(results, failsAtEnd, limit + 1, images, options)
  {
    var products: seq<ProductItem> := [];
    var i := 0;
    var full := false;
    assert results[0..] == results;
    PrependNothing(Collect(results, failsAtEnd, limit + 1, images, options));
    while i < |results| && !full
      invariant 0 <= i <= |results| && |products| == i
      invariant full <==> i == limit + 1
      invariant i <= limit + 1
      invariant !full ==> (Collect(results, failsAtEnd, limit + 1, images, options)
        == Prepend(products, Collect(results[i..], failsAtEnd, limit + 1 - i, images, options)))
      invariant full ==> Collect(results, failsAtEnd, limit + 1, images, options) == Ok(products)
    {
      assert results[i..][1..] == results[i + 1..];
      if results[i].Unscannable? {
        return Err(ScanError);
      }
      var row := results[i].row;
      var rowImages := images(row.id);
      if rowImages.None? {
        return Err(ImagesError);
      }
      var rowOptions := options(row.id);
      if rowOptions.None? {
        return Err(OptionsError);
      }
      var product := ItemOf(row, rowImages.value, rowOptions.value);
      PrependAssociative(products, product, Collect(results[i + 1..], failsAtEnd, limit - i, images, options));
      products := products + [product];
      i := i + 1;
      if |products| == limit + 1 {
        full := true;
      }
    }
    if !full {
      assert results[i..] == [];
      if failsAtEnd {
        return Err(IterationError);
      }
      assert products + [] == products;
    }
    r := Ok(products);
  }

  lemma PrependNothing(rest: Result<seq<ProductItem>, ListError>)
    ensures Prepend([], rest) == rest
  {
    if rest.Ok? {
      assert [] + rest.value == rest.value;
    }
  }

  lemma PrependAssociative(items: seq<ProductItem>, item: ProductItem, rest: Result<seq<ProductItem>, ListError>)
    ensures Prepend(items, Prepend([item], rest)) == Prepend(items + [item], rest)
  {
    if rest.Ok? {
      assert items + ([item] + rest.value) == (items + [item]) + rest.value;
    }
  }

  /** Everything after the statement: run it, read the rows, and cut the page. */
  method RunStatement(statement: Statement, db: Statement -> QueryOutcome,
                      images: GoString -> Option<seq<ProductImage>>,
                      options: GoString -> Option<seq<ProductOption>>)
    returns (r: Result<ProductResponse, ListError>)
    requires 1 <= statement.limit
    ensures r == Serve(statement, db, images, options)
  {
    var limit := statement.limit;
    var outcome := db(statement);
    if outcome.QueryFailed? {
      return Err(QueryError);
    }
    var read := ReadRows(outcome.results, outcome.failsAtEnd, limit, images, options);
    if read.Err? {
      return Err(read.error);
    }
    var products := read.value;
    var response := ProductResponse(products[..Min(|products|, limit)], [], limit);
    if |products| > limit {
      var last := products[limit - 1].product;
      response := response.(nextCursor := EncodeCursor(Cursor(last.createdAt, last.id)));
      assert response == Assemble(products, limit);
    } else {
      response := response.(nextCursor := []);
      assert response == Assemble(products, limit);
    }
    r := Ok(response);
  }

  /**
   * The store's GetProducts: compose the statement (a bad cursor stops here),
   * then run it.
   */
  method GetProducts(p: ProductQueryParams, db: Statement -> QueryOutcome,
                     images: GoString -> Option<seq<ProductImage>>,
                     options: GoString -> Option<seq<ProductOption>>)
    returns (r: Result<ProductResponse, ListError>)
    ensures r == ListProducts(p, db, images, options)
  {
    var composed := ComposeQuery(p);
    if composed.Err? {
      return Err(InvalidCursor(composed.error));
    }
    PreparedLimit(p);
    r := RunStatement(composed.value, db, images, options);
  }

  // ---------------------------------------------------------------------------
  // What the page holds
  // ---------------------------------------------------------------------------

  /** `items` holds the enrichments of the first min(n, want) of the n `results`, in order. */
  ghost predicate ReadsRows(items: seq<ProductItem>, results: seq<RowRead>, want: int,
                            images: GoString -> Option<seq<ProductImage>>,
                            options: GoString -> Option<seq<ProductOption>>)
  {
    && |items| == Min(|results|, want)
    && forall j :: 0 <= j < |items| ==> Enrich(results[j], images, options) == Ok(items[j])
  }

  /**
   * A successful read holds one entry per row, in order, for the first
   * min(n, want) of the n rows, each the enrichment of its row.
   */
  lemma {:induction false} CollectShape(results: seq<RowRead>, failsAtEnd: bool, want: nat,
                                        images: GoString -> Option<seq<ProductImage>>,
                                        options: GoString -> Option<seq<ProductOption>>)
    requires want >= 1
    requires Collect(results, failsAtEnd, want, images, options).Ok?
    ensures ReadsRows(Collect(results, failsAtEnd, want, images, options).value, results, want, images, options)
  {
    if results != [] && want > 1 {
      var item := Enrich(results[0], images, options).value;
      var rest := results[1..];
      CollectShape(rest, failsAtEnd, want - 1, images, options);
      var items := Collect(results, failsAtEnd, want, images, options).value;
      assert items == [item] + Collect(rest, failsAtEnd, want - 1, images, options).value;
      forall j | 0 <= j < |items|
        ensures Enrich(results[j], images, options) == Ok(items[j])
      {
        if j > 0 {
          assert results[j] == rest[j - 1];
        }
      }
    }
  }

  /**
   * The read fails exactly when one of the rows it reaches cannot be scanned or
   * enriched, or when it runs out of rows before the page is full and rows.Next
   * stopped on an error.
   */
  lemma {:induction false} CollectFails(results: seq<RowRead>, failsAtEnd: bool, want: nat,
                                        images: GoString -> Option<seq<ProductImage>>,
                                        options: GoString -> Option<seq<ProductOption>>)
    requires want >= 1
    ensures Collect(results, failsAtEnd, want, images, options).Err?
      <==> (exists j :: 0 <= j < Min(|results|, want) && Enrich(results[j], images, options).Err?)
           || (|results| < want && failsAtEnd)
  {
    if results != [] && Enrich(results[0], images, options).Ok? && want > 1 {
      var rest := results[1..];
      CollectFails(rest, failsAtEnd, want - 1, images, options);
      if exists j :: 0 <= j < Min(|results|, want) && Enrich(results[j], images, options).Err? {
        var j :| 0 <= j < Min(|results|, want) && Enrich(results[j], images, options).Err?;
        assert results[j] == rest[j - 1];
      }
      if exists j :: 0 <= j < Min(|rest|, want - 1) && Enrich(rest[j], images, options).Err? {
        var j :| 0 <= j < Min(|rest|, want - 1) && Enrich(rest[j], images, options).Err?;
        assert rest[j] == results[j + 1];
      }
    } else if results != [] && Enrich(results[0], images, options).Err? {
      assert 0 < Min(|results|, want);
    }
  }

  /** The first row that fails is the one whose error the whole call returns. */
  lemma {:induction false} FirstFailureWins(results: seq<RowRead>, failsAtEnd: bool, want: nat, j: nat,
                                            images: GoString -> Option<seq<ProductImage>>,
                                            options: GoString -> Option<seq<ProductOption>>)
    requires j < |results| && j < want
    requires forall k :: 0 <= k < j ==> Enrich(results[k], images, options).Ok?
    requires Enrich(results[j], images, options).Err?
    ensures Collect(results, failsAtEnd, want, images, options) == Err(Enrich(results[j], images, options).error)
  {
    if j > 0 {
      var rest := results[1..];
      forall k | 0 <= k < j - 1 ensures Enrich(rest[k], images, options).Ok? {
        assert rest[k] == results[k + 1];
      }
      FirstFailureWins(rest, failsAtEnd, want - 1, j - 1, images, options);
    }
  }

  /**
   * Once the page is full nothing further is read: rows past the first `want`,
   * and how the iteration would have ended, make no difference.
   */
  lemma {:induction false} CollectIgnoresRest(results: seq<RowRead>, extra: seq<RowRead>, failsAtEnd: bool,
                                              otherEnd: bool, want: nat,
                                              images: GoString -> Option<seq<ProductImage>>,
                                              options: GoString -> Option<seq<ProductOption>>)
    requires 1 <= want <= |results|
    ensures Collect(results + extra, failsAtEnd, want, images, options)
         == Collect(results, otherEnd, want, images, options)
  {
    var all := results + extra;
    assert all[0] == results[0];
    if want > 1 {
      assert all[1..] == results[1..] + extra;
      CollectIgnoresRest(results[1..], extra, failsAtEnd, otherEnd, want - 1, images, options);
    }
  }

  /** encodeCursor never writes the empty string: the text always holds at least the ','. */
  lemma EncodeCursorNonEmpty(c: Cursor)
    ensures EncodeCursor(c) != []
  {
    Base64.EncodeEmpty(CursorText(c));
  }

  /** The page holds the first min(n, limit) products, at most `limit` of them, and reports `limit`. */
  lemma AssembleItems(products: seq<ProductItem>, limit: int)
    requires 1 <= limit
    ensures var r := Assemble(products, limit);
      && r.items == products[..Min(|products|, limit)]
      && |r.items| == Min(|products|, limit) <= limit
      && r.limit == limit
  {
  }

  /** The page has a NextCursor exactly when a product past it was found. */
  lemma AssembleHasCursor(products: seq<ProductItem>, limit: int)
    requires 1 <= limit
    ensures Assemble(products, limit).nextCursor != [] <==> |products| > limit
  {
    if |products| > limit {
      var last := products[limit - 1].product;
      EncodeCursorNonEmpty(Cursor(last.createdAt, last.id));
    }
  }

  /**
   * A NextCursor encodes the last listed product's creation time and id, which
   * CursorCodec.RoundTrip reads back.
   */
  lemma AssembleCursor(products: seq<ProductItem>, limit: int)
    requires 1 <= limit < |products|
    ensures Assemble(products, limit).items[limit - 1] == products[limit - 1]
    ensures var last := products[limit - 1].product;
      Assemble(products, limit).nextCursor == EncodeCursor(Cursor(last.createdAt, last.id))
  {
  }

  /** The loop's own failures: a row that will not scan or enrich, or an iteration error. */
  lemma {:induction false} CollectErrors(results: seq<RowRead>, failsAtEnd: bool, want: nat,
                                         images: GoString -> Option<seq<ProductImage>>,
                                         options: GoString -> Option<seq<ProductOption>>)
    ensures Collect(results, failsAtEnd, want, images, options).Err? ==>
      Collect(results, failsAtEnd, want, images, options).error in {ScanError, ImagesError, OptionsError, IterationError}
  {
    if results != [] && Enrich(results[0], images, options).Ok? && want > 1 {
      CollectErrors(results[1..], failsAtEnd, want - 1, images, options);
    }
  }

  /**
   * `page` lists the first min(n, limit) of the n rows in query order, each one
   * enriched, reports `limit`, and has a NextCursor exactly when n > limit; that
   * NextCursor encodes the creation time and id of the limit-th row.
   */
  ghost predicate ListsRows(page: ProductResponse, results: seq<RowRead>, limit: int,
                            images: GoString -> Option<seq<ProductImage>>,
                            options: GoString -> Option<seq<ProductOption>>)
  {
    && page.limit == limit
    && |page.items| == Min(|results|, limit)
    && (forall j :: 0 <= j < |page.items| ==> Enrich(results[j], images, options) == Ok(page.items[j]))
    && (page.nextCursor != [] <==> |results| > limit)
    && (1 <= limit < |results| ==>
          && results[limit - 1].Scannable?
          && page.nextCursor == EncodeCursor(Cursor(results[limit - 1].row.createdAt, results[limit - 1].row.id)))
  }

  /** Cutting what the read collected from `results` lists those rows. */
  lemma AssemblePage(products: seq<ProductItem>, results: seq<RowRead>, limit: int,
                     images: GoString -> Option<seq<ProductImage>>,
                     options: GoString -> Option<seq<ProductOption>>)
    requires 1 <= limit
    requires ReadsRows(products, results, limit + 1, images, options)
    ensures ListsRows(Assemble(products, limit), results, limit, images, options)
  {
    var page := Assemble(products, limit);
    AssembleItems(products, limit);
    AssembleHasCursor(products, limit);
    assert |page.items| == Min(|results|, limit);
    assert forall j :: 0 <= j < |page.items| ==> Enrich(results[j], images, options) == Ok(page.items[j]) by {
      forall j | 0 <= j < |page.items| ensures Enrich(results[j], images, options) == Ok(page.items[j]) {
        assert page.items[j] == products[j];
      }
    }
    if limit < |results| {
      CursorFromRow(products, results, limit, images, options);
    }
  }

  /** The NextCursor is taken from the row the limit-th product was built from. */
  lemma CursorFromRow(products: seq<ProductItem>, results: seq<RowRead>, limit: int,
                      images: GoString -> Option<seq<ProductImage>>,
                      options: GoString -> Option<seq<ProductOption>>)
    requires 1 <= limit < |results|
    requires ReadsRows(products, results, limit + 1, images, options)
    ensures results[limit - 1].Scannable?
    ensures Assemble(products, limit).nextCursor
      == EncodeCursor(Cursor(results[limit - 1].row.createdAt, results[limit - 1].row.id))
  {
    var item, read := products[limit - 1], results[limit - 1];
    assert Enrich(read, images, options) == Ok(item);
    assert read.Scannable?;
    assert item == ItemOf(read.row, images(read.row.id).value, options(read.row.id).value);
    assert Cursor(item.product.createdAt, item.product.id) == Cursor(read.row.createdAt, read.row.id);
    AssembleCursor(products, limit);
  }

  /** Running a statement whose rows all enrich lists them. */
  lemma ServedPage(statement: Statement, db: Statement -> QueryOutcome,
                   images: GoString -> Option<seq<ProductImage>>,
                   options: GoString -> Option<seq<ProductOption>>)
    requires 1 <= statement.limit
    requires db(statement).Rows?
    requires Serve(statement, db, images, options).Ok?
    ensures ListsRows(Serve(statement, db, images, options).value, db(statement).results, statement.limit, images, options)
  {
    var results, failsAtEnd := db(statement).results, db(statement).failsAtEnd;
    var products := Collect(results, failsAtEnd, statement.limit + 1, images, options).value;
    CollectShape(results, failsAtEnd, statement.limit + 1, images, options);
    AssemblePage(products, results, statement.limit, images, options);
    assert Serve(statement, db, images, options).value == Assemble(products, statement.limit);
  }

  /** A page always reports the statement's limit and holds no more entries than that. */
  lemma ServedLimit(statement: Statement, db: Statement -> QueryOutcome,
                    images: GoString -> Option<seq<ProductImage>>,
                    options: GoString -> Option<seq<ProductOption>>)
    requires 1 <= statement.limit
    ensures Serve(statement, db, images, options).Ok? ==>
      var page := Serve(statement, db, images, options).value;
      page.limit == statement.limit && |page.items| <= page.limit
  {
    if Serve(statement, db, images, options).Ok? {
      var products := Collect(db(statement).results, db(statement).failsAtEnd, statement.limit + 1, images, options).value;
      AssembleItems(products, statement.limit);
      assert Serve(statement, db, images, options).value == Assemble(products, statement.limit);
    }
  }

  /** Running a statement never fails with a cursor error: only the query, a row or the iteration can fail. */
  lemma ServedErrors(statement: Statement, db: Statement -> QueryOutcome,
                     images: GoString -> Option<seq<ProductImage>>,
                     options: GoString -> Option<seq<ProductOption>>)
    requires 0 <= statement.limit
    ensures Serve(statement, db, images, options).Err? ==>
      Serve(statement, db, images, options).error in {QueryError, ScanError, ImagesError, OptionsError, IterationError}
  {
    if db(statement).Rows? {
      CollectErrors(db(statement).results, db(statement).failsAtEnd, statement.limit + 1, images, options);
    }
  }

  /**
   * The store fails with a cursor error exactly when composing fails, and a page
   * it returns always reports the clamped limit and holds no more entries than that.
   */
  lemma ListedLimit(p: ProductQueryParams, db: Statement -> QueryOutcome,
                    images: GoString -> Option<seq<ProductImage>>,
                    options: GoString -> Option<seq<ProductOption>>)
    ensures ListProducts(p, db, images, options).Err? && ListProducts(p, db, images, options).error.InvalidCursor?
      <==> Prepare(p).Err?
    ensures ListProducts(p, db, images, options).Ok? ==>
      var page := ListProducts(p, db, images, options).value;
      page.limit == EffectiveLimit(p.limit) && |page.items| <= page.limit
  {
    PreparedLimit(p);
    if Prepare(p).Ok? {
      ServedLimit(Prepare(p).value, db, images, options);
      ServedErrors(Prepare(p).value, db, images, options);
    }
  }
}
