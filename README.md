# Product listing with keyset cursors, in Dafny

This project models the product-listing endpoint of the pet-shop catalogue
service. It covers `GET /products` as the Go handler and the PostgreSQL store
answer it:

- **Handler.** The handler reads the query string. It checks `limit`, then
  `cursor`, then `category`, and answers 400 with a fixed message on the first
  one that is malformed.
- **Store.** The store composes a parameterised `SELECT` with optional filters:
  - a keyset condition `(p.created_at, p.product_id) > ($k, $k+1)` from the
    decoded cursor;
  - a space-insensitive `ILIKE` on the name;
  - category, seller, availability, recommendation and product type.

  It adds an allow-listed `ORDER BY` and a `LIMIT` of the clamped page size
  plus one. It then runs the statement, reads at most `limit + 1` rows and
  enriches each row with its images and options. Finally it cuts the page and
  writes a `NextCursor` after the page's last product when a further row was
  found.
- **Response.** The handler answers 500 with the store's error. Otherwise it
  wraps a non-empty `NextCursor` in one more layer of base64 and answers 200.

The store's cursor is `base64("<created_at in RFC 3339 with nanoseconds>,<product id>")`.
The handler's cursor is base64 of that text.

## Modules

| file | module | what it holds |
|---|---|---|
| `wrappers.dfy` | `Wrappers` | `Option` and `Result` |
| `gostrings.dfy` | `GoStrings` | byte strings, `strconv.Atoi`/`Itoa`, `strings.Split` on one byte, `strings.ReplaceAll(s, " ", "")`, ASCII `strings.ToLower` |
| `base64.dfy` | `Base64` | `base64.StdEncoding` encode and decode (section 4 of RFC 4648, padded, line breaks skipped) |
| `rfc3339.dfy` | `Rfc3339` | `Time.Format` and `time.Parse` with layout `RFC3339Nano` |
| `cursor.dfy` | `CursorCodec` | the store's `Cursor`, `encodeCursor` and `decodeCursor` |
| `composer.dfy` | `QueryComposer` | the query half of the store's `GetProducts`: `Prepare` as a specification and `ComposeQuery` as the step-by-step method |
| `listing.dfy` | `ProductListing` | the rows loop and page assembly: `Collect`/`Serve`/`ListProducts` as specifications, `ReadRows`/`RunStatement`/`GetProducts` as methods |
| `handlers.dfy` | `ProductHandlers` | the handler's `GetProducts`, and its own `encodeCursor`/`decodeCursor` |

**State and I/O as parameters.**
- The database is a function parameter `db: Statement -> QueryOutcome`. An outcome is `QueryFailed` or `Rows(results, failsAtEnd)`, and each result row is either scannable or refused by `rows.Scan`.
- The image and option loaders are functions from a product id to `Option` of their list.
- The query string is a map from key to first value.

**Spec functions and methods.** Each imperative Go routine is a method whose postcondition equates its result with a specification function, and the properties are lemmas about those functions:
- `ComposeQuery` against `Prepare`;
- `ReadRows` against `Collect`;
- `RunStatement` against `Serve`;
- `ProductListing.GetProducts` against `ListProducts`;
- `ProductHandlers.GetProducts` against `Handle`.

## Model

| member | source | states |
|---|---|---|
| GoStrings.Atoi | productproject/internal/handlers/product_handlers.go:34 | an accepted number always lies in the 64-bit range that `strconv.Atoi` allows |
| GoStrings.AtoiItoa | productproject/internal/handlers/product_handlers.go:33-34 | every 64-bit integer written in decimal reads back as itself (so the default `"20"` parses as 20) |
| GoStrings.IndexOf | productproject/internal/product/product.go:1074 | the index found is the first `','`, or the length exactly when there is none |
| GoStrings.SplitLength | productproject/internal/product/product.go:1074-1075 | `strings.Split` at a byte yields one more part than the byte occurs |
| GoStrings.SplitJoin | productproject/internal/product/product.go:1074 | splitting `a + "," + b`, where neither part holds a comma, gives exactly `[a, b]` |
| GoStrings.RemoveSpaces | productproject/internal/product/product.go:767 | the result holds no space, is no longer than the input and keeps every other byte with its multiplicity |
| GoStrings.RemoveSpacesAppend | productproject/internal/product/product.go:767 | removing spaces distributes over concatenation |
| GoStrings.AsciiLower | productproject/internal/product/product.go:826 | lower-casing keeps the length and maps each byte through the ASCII case table |
| GoStrings.AsciiLowerOfKeyword | productproject/internal/product/product.go:826 | under the model's case table, which leaves bytes from 128 up unchanged, only an all-ASCII order string lower-cases to an ASCII keyword such as `"desc"` |
| Base64.Encode | productproject/internal/product/product.go:1066 | the text is four characters per started group of three bytes, all from the base64 alphabet |
| Base64.RoundTrip | productproject/internal/handlers/product_handlers.go:97-107 | decoding what was encoded gives back the bytes |
| Base64.EncodeEmpty | productproject/internal/handlers/product_handlers.go:80-81 | encoding is empty exactly for the empty input |
| Base64.Decode | productproject/internal/product/product.go:1070 | accepted input is whole quanta once line breaks are skipped, decodes to at most three bytes per four characters, and decodes to nothing only when nothing but line breaks was given |
| Base64.StripLineBreaksIdentity | productproject/internal/product/product.go:1070 | decoding skips only `\r` and `\n`: text without them is read as it stands |
| Rfc3339.RoundTrip | productproject/internal/product/product.go:1065-1083 | `time.Parse(RFC3339Nano)` reads back every representable timestamp that `Format(RFC3339Nano)` wrote |
| Rfc3339.Parse | productproject/internal/product/product.go:1078 | every timestamp that parses is a representable one: a year 0 to 9999, a real date and clock, under a second of fraction, and an offset of whole minutes under 24 hours |
| Rfc3339.Format | productproject/internal/product/product.go:1066 | the formatted text of a representable time never contains the cursor's separator `','` |
| Rfc3339.FractionBound | productproject/internal/product/product.go:1078 | a fraction of any length reads as fewer than 10^9 nanoseconds |
| Rfc3339.ZoneBound | productproject/internal/product/product.go:1078 | a parsed zone offset is whole minutes under 24 hours |
| Rfc3339.DaysIn | productproject/internal/product/product.go:1078 | month length is 28 to 31 days, and 29 exactly for February of a leap year |
| CursorCodec.EncodeCursor | productproject/internal/product/product.go:1065-1067 | the cursor base64-decodes to `"<RFC 3339 time>,<id>"` |
| CursorCodec.RoundTrip | productproject/internal/product/product.go:1065-1083 | `decodeCursor(encodeCursor(c)) == c` for a representable time and an id without `','` |
| CursorCodec.CommaInIdRejected | productproject/internal/product/product.go:1065-1077 | an id holding `','` makes `decodeCursor` refuse the cursor that `encodeCursor` wrote, as `InvalidFormat` |
| CursorCodec.DecodeCursor | productproject/internal/product/product.go:1069-1083 | every cursor it accepts has a representable time and an id without `','`, so `encodeCursor` can write it back |
| CursorCodec.DecodeCases | productproject/internal/product/product.go:1069-1083 | the three error returns in order (base64, not exactly one `','`, bad time), and otherwise the time before the comma and the id after it |
| CursorCodec.DecodedIsEncodable | productproject/internal/product/product.go:1069-1083 | every accepted cursor re-encodes to one that decodes to the same value |
| QueryComposer.EffectiveLimit | productproject/internal/product/product.go:833-837 | the page size is the requested limit exactly when it is in 1..100, and 20 otherwise |
| QueryComposer.ComposeQuery | productproject/internal/product/product.go:739-840 | the step-by-step query text and arguments are exactly `Prepare(p)`: the cursor's error, or the statement of the filters present |
| QueryComposer.AppendClauseIf | productproject/internal/product/product.go:764-807 | one optional clause keeps query, arguments and placeholder counter in step with the filters added so far |
| QueryComposer.AddFilters | productproject/internal/product/product.go:750-807 | after the seven optional clauses, the text is the base plus one numbered condition per present filter, and the arguments are theirs |
| QueryComposer.ResolveOrderBy | productproject/internal/product/product.go:809-829 | the sort column and direction come from the allow lists, with `p.price` and `ASC` as defaults |
| QueryComposer.ResolveLimit | productproject/internal/product/product.go:833-837 | the method computes `EffectiveLimit` |
| QueryComposer.BuildStatement | productproject/internal/product/product.go:753-840 | building from a decoded cursor gives `StatementFor(p, cursor)` |
| QueryComposer.StatementBinds | productproject/internal/product/product.go:750-840 | each `$k` refers to the k-th argument and binds back to exactly the present filters; `LIMIT` is the last placeholder, bound to page size + 1 |
| QueryComposer.BindNumbered | productproject/internal/product/product.go:759-806 | numbering conditions by running argument count and reading arguments back at those numbers recovers the filters |
| QueryComposer.FilterRoundTrip | productproject/internal/product/product.go:759-806 | each filter's arguments, read back by kind, give the filter |
| QueryComposer.FilterOfInverse | productproject/internal/product/product.go:759-806 | whatever is read back from arguments writes those same arguments |
| QueryComposer.FiltersShape | productproject/internal/product/product.go:753-807 | the conditions follow the fixed order keyset, name, category, seller, availability, recommendation, type, each present exactly when its parameter is set |
| QueryComposer.TextIndependent | productproject/internal/product/product.go:750-840 | the SQL text depends on the caller only through which filters are set and the resolved ORDER BY, never on the values |
| QueryComposer.OrderByAllowListed | productproject/internal/product/product.go:810-831 | the ORDER BY column and direction are always allow-listed strings |
| QueryComposer.OrderedWithTieBreak | productproject/internal/product/product.go:830 | the statement orders by the resolved column and direction and then by `p.product_id ASC`, so rows with equal sort values have a fixed order |
| QueryComposer.SortCases | productproject/internal/product/product.go:810-824 | `p.name` exactly for `"name"`, `p.created_at` exactly for `"created_at"`, `p.price` otherwise |
| QueryComposer.DirectionCases | productproject/internal/product/product.go:816-829 | `DESC` exactly when the lower-cased order is `"desc"`, `ASC` otherwise |
| QueryComposer.SearchPatternShape | productproject/internal/product/product.go:765-773 | the search argument is `%`, the term without spaces, `%`, and holds no space |
| QueryComposer.SearchIgnoresSpaces | productproject/internal/product/product.go:767 | inserting a space into the search term does not change the pattern |
| QueryComposer.PrepareFails | productproject/internal/product/product.go:754-758 | composition fails exactly when a non-empty cursor does not decode, with that error |
| QueryComposer.PreparedLimit | productproject/internal/product/product.go:833-837 | a composed statement carries the clamped page size |
| ProductListing.Min | productproject/internal/product/product.go:901-906 | the result is one of the two arguments and no greater than either |
| ProductListing.ReadRows | productproject/internal/product/product.go:849-884 | the rows loop computes `Collect`: enrich in order, stop after `limit + 1` entries, then report a pending iteration error |
| ProductListing.RunStatement | productproject/internal/product/product.go:843-898 | running a statement computes `Serve`: query error, loop error, or the assembled page |
| ProductListing.GetProducts | productproject/internal/product/product.go:739-899 | the store's method computes `ListProducts` |
| ProductListing.CollectShape | productproject/internal/product/product.go:849-880 | a successful read holds the enrichments of the first min(n, limit + 1) rows, in order |
| ProductListing.CollectFails | productproject/internal/product/product.go:850-884 | the read fails exactly when one of the rows it reaches fails to enrich, or the rows run out early with an iteration error |
| ProductListing.FirstFailureWins | productproject/internal/product/product.go:854-874 | the first row that fails to scan or load decides the error |
| ProductListing.CollectIgnoresRest | productproject/internal/product/product.go:877-879 | rows after the `limit + 1`-th, and the iteration error, are never looked at |
| ProductListing.CollectErrors | productproject/internal/product/product.go:860-884 | the read fails only with scan, images, options or iteration errors |
| ProductListing.AssembleItems | productproject/internal/product/product.go:886-889 | the page is the first min(n, limit) products and carries the limit |
| ProductListing.AssembleHasCursor | productproject/internal/product/product.go:891-896 | `NextCursor` is non-empty exactly when more than `limit` products were read |
| ProductListing.AssembleCursor | productproject/internal/product/product.go:891-893 | `NextCursor` encodes the created time and id of the page's last item, not of the probe row |
| ProductListing.EncodeCursorNonEmpty | productproject/internal/product/product.go:893-895 | a written cursor is never the empty "no more pages" value |
| ProductListing.ServedPage | productproject/internal/product/product.go:843-898 | a served page lists the enrichments of the first min(n, limit) rows, with a cursor exactly when more than `limit` rows exist, and that cursor encodes the created time and id of the limit-th row |
| ProductListing.ServedLimit | productproject/internal/product/product.go:886-889 | a page holds at most its limit of items |
| ProductListing.ServedErrors | productproject/internal/product/product.go:843-884 | serving fails only with the query, scan, images, options or iteration error |
| ProductListing.ListedLimit | productproject/internal/product/product.go:739-899 | the store fails with `InvalidCursor` exactly when composition fails, and a page carries the clamped limit and at most that many items |
| ProductHandlers.EncodeOuter | productproject/internal/handlers/product_handlers.go:97-99 | the handler's cursor decodes back to the store's cursor and is empty only for an empty one |
| ProductHandlers.GetProducts | productproject/internal/handlers/product_handlers.go:32-82 | the handler computes `Handle`: 400 on the first malformed parameter, 500 on a store error, else 200 with the re-wrapped page |
| ProductHandlers.DecodeOuter | productproject/internal/handlers/product_handlers.go:101-107 | an accepted cursor unwraps to at most three bytes per four characters |
| ProductHandlers.ParseRequest | productproject/internal/handlers/product_handlers.go:33-71 | a rejected query string gets one of the three fixed messages, and an accepted one carries the limit exactly as `strconv.Atoi` read it |
| ProductHandlers.ParseErrors | productproject/internal/handlers/product_handlers.go:33-58 | each 400 message is given exactly when its check is the first to fail, and only those three messages occur |
| ProductHandlers.LimitDefault | productproject/internal/handlers/product_handlers.go:33-38 | an absent limit means 20, and a present empty `limit=` is a 400 |
| ProductHandlers.ParsedFields | productproject/internal/handlers/product_handlers.go:33-71 | the parameters carry the parsed limit, the parsed category or 0, the once-decoded cursor or the empty string, and the search, seller, availability, recommendation, product type, sort and order values exactly as given |
| ProductHandlers.CursorUnwrapped | productproject/internal/handlers/product_handlers.go:40-48 | a request carrying a wrapped cursor hands the store exactly the unwrapped cursor, all else unchanged |
| ProductHandlers.RewrapCursor | productproject/internal/handlers/product_handlers.go:79-82 | re-wrapping keeps items and limit, keeps the cursor empty or not, and unwraps to the store's cursor |
| ProductHandlers.Handle | productproject/internal/handlers/product_handlers.go:32-82 | 400 exactly when the query string is malformed, and 500 exactly when it is accepted and the store fails |
| ProductHandlers.HandledLimit | productproject/internal/handlers/product_handlers.go:60-94 | a 200 page carries the clamped limit and at most that many items |
| ProductHandlers.BadInnerCursor | productproject/internal/handlers/product_handlers.go:40-77 | a cursor that passes the handler's decoding but not the store's gives 500 with the store's cursor error |
| ProductHandlers.NextPageRequest | productproject/internal/handlers/product_handlers.go:40-82 | sending back the handed-out cursor makes the next request carry exactly the store's cursor |
| ProductHandlers.CursorLayers | productproject/internal/handlers/product_handlers.go:97-107 | both layers of the handler's cursor decode, the inner one to the original keyset position |

## Cursor errors answered with 500

The handler answers 400 for a cursor only when its outer layer is not base64
(`product_handlers.go:43-47`). A cursor that passes that decoding but fails the
store's `decodeCursor` makes the store return its cursor error
(`product.go:754-758`), and the handler answers every store error with 500
(`product_handlers.go:73-77`). So a malformed inner cursor is answered as a
server error, not a client error. `ProductHandlers.BadInnerCursor` states the
500.

## Left out

- **SQL execution and `rows.Scan`.**
  - The database is a function from the statement to an outcome, and a row either scans or does not.
  - The model does not interpret SQL, `ILIKE` or the row comparison. `QueryComposer` only proves what text and arguments are sent.
  - `ProductListing` takes the rows as the database's answer, in the order it gives them.
- **`defer rows.Close()` and the request context.** `rows.Close()` is not modelled. The request context carries a deadline (`cmd/main.go:19-24` and `cmd/main.go:75`). When it fires during `QueryContext` or a loader call, the model covers it as `db` answering `QueryFailed` or a loader answering `None`. One case is not modelled: the deadline firing after the loop's `break` at `product.go:878`. Go then reports it from `rows.Err()` at `product.go:882` and the request gets a 500, but `Collect` gives a page, because it reads the iteration error only when the rows run out first.
- **Error texts.** The store's errors carry `err.Error()` text from the driver and `fmt.Errorf`. `ListError` keeps only which return was taken, plus the cursor's own error reason.
- **The handler's timezone conversion** (`product_handlers.go:84-92`). It only changes how times are displayed (`In(loc)`) and ends the process if the zone fails to load. The model does not include it.
- **Gin and JSON.** Routing, JSON rendering and repeated query keys (only the first value is kept) are left out.
- **Product fields.** The price is a `real` that is carried along and never computed with. Option values are raw JSON bytes that are never read.
- **Rfc3339.Parse.** It models the fixed-layout fast path of `time.Parse` for RFC 3339. Go's fallback to its general layout parser is not modelled. That parser accepts a few more inputs (a one-digit hour, for example), so the model may reject some strings Go accepts.
- **Rfc3339.Valid.** It limits round trips to years 0 to 9999 and zone offsets of whole minutes under 24 hours.
  - Go writes years outside 0 to 9999 in a form its parser does not read back as the same time.
  - Go writes offsets of seconds only to the minute, so those do not read back either.
  - Offsets from 24:00 to 24:59 whole minutes: Go's fast path refuses an hour of 24, but its general parser accepts hours up to 24, so such a time does read back in Go. The model's `Parse` has only the fast path and rejects them, so `Rfc3339.RoundTrip` leaves them out.
  - Larger offsets do not read back in Go either.
  - `Rfc3339.ZoneHasNoComma` also assumes whole minutes.
- **GoStrings.AsciiLower.** It lower-cases ASCII only and leaves every other byte unchanged. Go's `strings.ToLower` also lower-cases non-ASCII letters and replaces invalid UTF-8. This does not change which order strings select `ASC` or `DESC`:
  - Only two non-ASCII runes lower-case to an ASCII letter: U+212A (Kelvin sign) to `k`, and U+0130 to `i`.
  - Neither `k` nor `i` occurs in `asc` or `desc`.
  - Every other non-ASCII rune lower-cases to a non-ASCII rune.
  - So Go's `strings.ToLower` gives `asc` or `desc` exactly for the ASCII strings that `AsciiLower` maps there. `GoStrings.AsciiLowerOfKeyword` proves the model's half of this. The Unicode half is an argument about Go's case tables, which are not modelled.
- **Other endpoints.** The store's other database methods, the `Store` wrapper, connection set-up and reconnect, and the front-end pages are outside this model.
- **Sort order on later pages.** The keyset condition always compares `(created_at, product_id)`, whatever column the page is sorted by. The model states the SQL that is sent. It does not claim that following cursors visits every row once when the sort is by name or price.
