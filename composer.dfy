/**
 * The first half of the store's GetProducts: the SELECT statement and its
 * positional arguments, grown clause by clause from the query parameters.
 *
 * The statement is described twice. QueryFor gives its structure: the filter
 * conditions with their placeholder numbers, the resolved ORDER BY and the
 * argument list; Render writes that structure as text. ComposeQuery builds the
 * text and the arguments step by step, as the store does, and is proved to
 * produce exactly Prepare(p). The lemmas at the end say what the structure
 * means: each $k bound to the k-th argument, the filters in their fixed order
 * and present exactly when their parameter is set, and SQL text that depends on
 * the caller only through which parameters are set and the allow-listed ORDER BY.
 */
module QueryComposer {
  import opened Wrappers
  import opened GoStrings
  import Rfc3339
  import opened CursorCodec

  /** The store's ProductQueryParams, as the handler fills it in. */
  datatype ProductQueryParams = ProductQueryParams(
    cursor: GoString,
    limit: int,
    search: GoString,
    categoryId: int,
    sellerId: GoString,
    availability: GoString,
    recommendation: GoString,
    productType: GoString,
    sort: GoString,
    order: GoString)

  /** One positional argument handed to the database driver. */
  datatype Arg = TimeArg(time: Rfc3339.Timestamp) | TextArg(text: GoString) | IntArg(number: int)

  /** The WHERE conditions the listing can add, in the order it adds them. */
  datatype FilterKind = Keyset | NameLike | CategoryIs | SellerIs | AvailabilityIs | RecommendationIs | ProductTypeIs

  /** A condition together with the values it compares against. */
  datatype Filter =
    | KeysetAfter(after: Cursor)
    | NameMatches(pattern: GoString)
    | InCategory(categoryId: int)
    | FromSeller(sellerId: GoString)
    | WithAvailability(availability: GoString)
    | WithRecommendation(recommendation: GoString)
    | OfProductType(productType: GoString)

  /** A condition as written into the SQL: its kind and the number of its first placeholder. */
  datatype Condition = Condition(kind: FilterKind, placeholder: nat)

  /**
   * The statement's structure: conditions, ORDER BY column and direction, the
   * LIMIT placeholder and the argument list.
   */
  datatype Query = Query(
    conditions: seq<Condition>,
    column: string,
    direction: string,
    limitPlaceholder: nat,
    args: seq<Arg>)

  /** What the store hands to the database: the SQL text, its arguments and the page size. */
  datatype Statement = Statement(sql: string, args: seq<Arg>, limit: int)

  const BaseSelect: string := @"
        SELECT p.product_id, p.name, p.description, p.brand, p.model_number, p.sku, p.price, 
               p.availability, p.recommendation, p.seller_id, p.product_type, p.created_at, p.updated_at,
               c.category_id, c.name as category_name,
               i.quantity, i.updated_at as inventory_updated_at
        FROM products p
        LEFT JOIN categories c ON p.category_id = c.category_id
        LEFT JOIN inventory i ON p.product_id = i.product_id
        WHERE 1=1"

  /** The sort allow-list: the `sort` values accepted and the column each selects. */
  const SortFields: map<GoString, string> := map["name" := "p.name", "price" := "p.price", "created_at" := "p.created_at"]

  /** The order allow-list, looked up after lower-casing. */
  const OrderDirections: map<GoString, string> := map["asc" := "ASC", "desc" := "DESC"]

  /** The ORDER BY defaults when `sort` or `order` is not in its allow-list. */
  const DefaultSort: string := "p.price"
  const DefaultDirection: string := "ASC"

  /** The page size: the requested limit when it lies in 1..100, otherwise 20. */
  function EffectiveLimit(limit: int): (r: int)
    ensures 1 <= r <= 100
    ensures r == limit || r == 20
    ensures 0 < limit <= 100 <==> r == limit
  {
    if limit > 0 && limit <= 100 then limit else 20
  }

  /** The ORDER BY column: the allow-list's column for `sort`, otherwise p.price. */
  function ResolveSort(sort: GoString): string {
    if sort in SortFields then SortFields[sort] else DefaultSort
  }

  /** The ORDER BY direction: the allow-list's direction for `order` lower-cased, otherwise ASC. */
  function ResolveDirection(order: GoString): string {
    var lowered := AsciiLower(order);
    if lowered in OrderDirections then OrderDirections[lowered] else DefaultDirection
  }

  /** The search argument: the term with every space removed, between ILIKE wildcards. */
  function SearchPattern(search: GoString): GoString {
    "%" + RemoveSpaces(search) + "%"
  }

  function KindOf(f: Filter): FilterKind {
    match f
    case KeysetAfter(_) => Keyset
    case NameMatches(_) => NameLike
    case InCategory(_) => CategoryIs
    case FromSeller(_) => SellerIs
    case WithAvailability(_) => AvailabilityIs
    case WithRecommendation(_) => RecommendationIs
    case OfProductType(_) => ProductTypeIs
  }

  /** Placeholders a condition takes: two for the keyset pair, one for the others. */
  function Arity(kind: FilterKind): nat {
    if kind == Keyset then 2 else 1
  }

  /** The values a filter appends to the argument list, in placeholder order. */
  function FilterArgs(f: Filter): (args: seq<Arg>)
    ensures |args| == Arity(KindOf(f))
  {
    match f
    case KeysetAfter(c) => [TimeArg(c.createdAt), TextArg(c.productId)]
    case NameMatches(pattern) => [TextArg(pattern)]
    case InCategory(id) => [IntArg(id)]
    case FromSeller(id) => [TextArg(id)]
    case WithAvailability(a) => [TextArg(a)]
    case WithRecommendation(r) => [TextArg(r)]
    case OfProductType(t) => [TextArg(t)]
  }

  /** The filter a condition's kind and its bound values stand for, if they fit. */
  function FilterOf(kind: FilterKind, values: seq<Arg>): Option<Filter> {
    if kind == Keyset then
      if |values| == 2 && values[0].TimeArg? && values[1].TextArg?
      then Some(KeysetAfter(Cursor(values[0].time, values[1].text))) else None
    else if kind == CategoryIs then
      if |values| == 1 && values[0].IntArg? then Some(InCategory(values[0].number)) else None
    else if |values| != 1 || !values[0].TextArg? then None
    else
      var s := values[0].text;
      Some(match kind
        case NameLike => NameMatches(s)
        case SellerIs => FromSeller(s)
        case AvailabilityIs => WithAvailability(s)
        case RecommendationIs => WithRecommendation(s)
        case _ => OfProductType(s))
  }

  /**
   * The conditions the parameters call for, in the order the store adds them:
   * keyset, search, category, seller, availability, recommendation, product type.
   */
  function Filters(p: ProductQueryParams, cursor: Option<Cursor>): seq<Filter> {
    Present(Candidates(p, cursor))
  }

  /** What each if-block would add, in the store's order; None where its parameter is unset. */
  function Candidates(p: ProductQueryParams, cursor: Option<Cursor>): (os: seq<Option<Filter>>)
    ensures |os| == 7
  {
    [KeysetFilter(cursor), SearchFilter(p), CategoryFilter(p), SellerFilter(p),
     AvailabilityFilter(p), RecommendationFilter(p), ProductTypeFilter(p)]
  }

  /** The filters that are there, in order. */
  function Present(os: seq<Option<Filter>>): seq<Filter> {
    if os == [] then [] else AddIf(Present(os[..|os| - 1]), os[|os| - 1])
  }

  /** The filter one if-block adds, or None when its parameter is unset. */
  function KeysetFilter(cursor: Option<Cursor>): Option<Filter> {
    if cursor.Some? then Some(KeysetAfter(cursor.value)) else None
  }

  function SearchFilter(p: ProductQueryParams): Option<Filter> {
    if p.search != [] then Some(NameMatches(SearchPattern(p.search))) else None
  }

  function CategoryFilter(p: ProductQueryParams): Option<Filter> {
    if p.categoryId != 0 then Some(InCategory(p.categoryId)) else None
  }

  function SellerFilter(p: ProductQueryParams): Option<Filter> {
    if p.sellerId != [] then Some(FromSeller(p.sellerId)) else None
  }

  function AvailabilityFilter(p: ProductQueryParams): Option<Filter> {
    if p.availability != [] then Some(WithAvailability(p.availability)) else None
  }

  function RecommendationFilter(p: ProductQueryParams): Option<Filter> {
    if p.recommendation != [] then Some(WithRecommendation(p.recommendation)) else None
  }

  function ProductTypeFilter(p: ProductQueryParams): Option<Filter> {
    if p.productType != [] then Some(OfProductType(p.productType)) else None
  }

  function AddIf(fs: seq<Filter>, f: Option<Filter>): seq<Filter> {
    if f.Some? then fs + [f.value] else fs
  }

  function Kinds(fs: seq<Filter>): (ks: seq<FilterKind>)
    ensures |ks| == |fs| && forall i :: 0 <= i < |fs| ==> ks[i] == KindOf(fs[i])
  {
    seq(|fs|, i requires 0 <= i < |fs| => KindOf(fs[i]))
  }

  /** Total placeholders taken by a run of conditions. */
  function Width(ks: seq<FilterKind>): nat {
    if ks == [] then 0 else Width(ks[..|ks| - 1]) + Arity(ks[|ks| - 1])
  }

  /** The argument list of a run of filters, each filter's values in turn. */
  function Args(fs: seq<Filter>): seq<Arg> {
    if fs == [] then [] else Args(fs[..|fs| - 1]) + FilterArgs(fs[|fs| - 1])
  }

  /** Placeholder numbers as the store hands them out: each condition starts right after the previous one's. */
  function Number(ks: seq<FilterKind>): (cs: seq<Condition>)
    ensures |cs| == |ks|
  {
    if ks == [] then []
    else
      var init := ks[..|ks| - 1];
      Number(init) + [Condition(ks[|ks| - 1], Width(init) + 1)]
  }

  /** How the cursor parameter resolves: absent, decoded, or the reason it was refused. */
  function CursorOf(p: ProductQueryParams): Result<Option<Cursor>, CursorError> {
    if p.cursor == [] then Ok(None)
    else
      match DecodeCursor(p.cursor)
      case Err(e) => Err(e)
      case Ok(c) => Ok(Some(c))
  }

  /** The statement's structure for a given run of filters. */
  function QueryOf(p: ProductQueryParams, fs: seq<Filter>): Query {
    var args := Args(fs);
    Query(Number(Kinds(fs)), ResolveSort(p.sort), ResolveDirection(p.order),
          |args| + 1, args + [IntArg(EffectiveLimit(p.limit) + 1)])
  }

  /** The statement's structure once the cursor, if any, has been decoded. */
  function QueryFor(p: ProductQueryParams, cursor: Option<Cursor>): Query {
    QueryOf(p, Filters(p, cursor))
  }

  function Placeholder(k: nat): string {
    "$" + Itoa(k)
  }

  function KeysetSql(k: nat): string {
    " AND (p.created_at, p.product_id) > (" + Placeholder(k) + ", " + Placeholder(k + 1) + ")"
  }

  /** The search clause, which compares the name with its spaces removed. */
  function NameLikeSql(k: nat): string {
    " AND " + ColumnOf(NameLike) + " ILIKE " + Placeholder(k)
  }

  function EqualsSql(column: string, k: nat): string {
    " AND " + column + " = " + Placeholder(k)
  }

  function ColumnOf(kind: FilterKind): string {
    match kind
    case Keyset => "(p.created_at, p.product_id)"
    case NameLike => "REPLACE(p.name, ' ', '')"
    case CategoryIs => "p.category_id"
    case SellerIs => "p.seller_id"
    case AvailabilityIs => "p.availability"
    case RecommendationIs => "p.recommendation"
    case ProductTypeIs => "p.product_type"
  }

  /** The clause a condition appends to the WHERE. */
  function ConditionSql(c: Condition): string {
    match c.kind
    case Keyset => KeysetSql(c.placeholder)
    case NameLike => NameLikeSql(c.placeholder)
    case _ => EqualsSql(ColumnOf(c.kind), c.placeholder)
  }

  function WhereSql(cs: seq<Condition>): string {
    if cs == [] then [] else WhereSql(cs[..|cs| - 1]) + ConditionSql(cs[|cs| - 1])
  }

  /** The ORDER BY clause, always ending in the product_id tie-break. */
  function OrderBySql(column: string, direction: string): string {
    " ORDER BY " + column + " " + direction + ", p.product_id ASC"
  }

  function LimitSql(k: nat): string {
    " LIMIT " + Placeholder(k)
  }

  /** The text of a statement that starts with `base`: the conditions, then ORDER BY, then LIMIT. */
  function SqlText(base: string, q: Query): string {
    base + WhereSql(q.conditions) + OrderBySql(q.column, q.direction) + LimitSql(q.limitPlaceholder)
  }

  /** The statement's text. */
  function Render(q: Query): string {
    SqlText(BaseSelect, q)
  }

  /** The statement for a given run of filters, its text starting with `base`. */
  function StatementOn(base: string, p: ProductQueryParams, fs: seq<Filter>): Statement {
    var q := QueryOf(p, fs);
    Statement(SqlText(base, q), q.args, EffectiveLimit(p.limit))
  }

  /** What the store sends to the database once the cursor, if any, has been decoded. */
  function StatementFor(p: ProductQueryParams, cursor: Option<Cursor>): Statement {
    StatementOn(BaseSelect, p, Filters(p, cursor))
  }

  /** What the store sends to the database for these parameters. */
  function Prepare(p: ProductQueryParams): Result<Statement, CursorError> {
    match CursorOf(p)
    case Err(e) => Err(e)
    case Ok(cursor) => Ok(StatementFor(p, cursor))
  }

  /** Appending a filter appends its clause, numbered right after the arguments so far, and its values. */
  lemma AppendFilter(fs: seq<Filter>, f: Filter)
    ensures Kinds(fs + [f]) == Kinds(fs) + [KindOf(f)]
    ensures Args(fs + [f]) == Args(fs) + FilterArgs(f)
    ensures WhereSql(Number(Kinds(fs + [f]))) == WhereSql(Number(Kinds(fs))) + ConditionSql(Condition(KindOf(f), |Args(fs)| + 1))
  {
    var ks := Kinds(fs + [f]);
    assert ks == Kinds(fs) + [KindOf(f)];
    assert (fs + [f])[..|fs|] == fs;
    ArgsWidth(fs);
    AppendCondition(Kinds(fs), KindOf(f));
  }

  /** Numbering one more condition appends it, numbered after the placeholders before it. */
  lemma AppendCondition(ks: seq<FilterKind>, k: FilterKind)
    ensures WhereSql(Number(ks + [k])) == WhereSql(Number(ks)) + ConditionSql(Condition(k, Width(ks) + 1))
  {
    assert (ks + [k])[..|ks|] == ks;
    var cs := Number(ks + [k]);
    assert cs[..|cs| - 1] == Number(ks);
  }

  /** The argument list is exactly as long as the placeholders its conditions take. */
  lemma {:induction false} ArgsWidth(fs: seq<Filter>)
    ensures |Args(fs)| == Width(Kinds(fs))
  {
    if fs != [] {
      var init := fs[..|fs| - 1];
      ArgsWidth(init);
      assert Kinds(fs)[..|fs| - 1] == Kinds(init);
    }
  }

  /**
   * The builder's state after some clauses: the text that began as `base`, the
   * arguments and the next placeholder number, all in step with `fs`.
   */
  ghost predicate Built(base: string, query: string, args: seq<Arg>, placeholderCount: int, fs: seq<Filter>) {
    && query == base + WhereSql(Number(Kinds(fs)))
    && args == Args(fs)
    && placeholderCount == |args| + 1
  }

  lemma Associative<T>(a: seq<T>, b: seq<T>, c: seq<T>)
    ensures (a + b) + c == a + (b + c)
  {
  }

  /**
   * One if-block of the builder: when its parameter is set, append the filter's
   * clause with the next placeholder number, append its values, and advance the
   * counter past them; otherwise change nothing.
   */
  method AppendClauseIf(ghost base: string, query: string, args: seq<Arg>, placeholderCount: int,
                        ghost fs: seq<Filter>, filter: Option<Filter>)
    returns (query': string, args': seq<Arg>, placeholderCount': int)
    requires Built(base, query, args, placeholderCount, fs)
    ensures Built(base, query', args', placeholderCount', AddIf(fs, filter))
  {
    query', args', placeholderCount' := query, args, placeholderCount;
    if filter.Some? {
      var f := filter.value;
      AppendFilter(fs, f);
      var clause := ConditionSql(Condition(KindOf(f), placeholderCount));
      Associative(base, WhereSql(Number(Kinds(fs))), clause);
      query' := query + clause;
      args' := args + FilterArgs(f);
      placeholderCount' := placeholderCount + |FilterArgs(f)|;
    }
  }

  /**
   * The store's statement builder. The cursor is decoded first, and a bad one
   * stops the store before any SQL is written.
   */
  method ComposeQuery(p: ProductQueryParams) returns (r: Result<Statement, CursorError>)
    ensures r == Prepare(p)
  {
    var cursor: Option<Cursor> := None;
    if p.cursor != [] {
      var decoded := DecodeCursor(p.cursor);
      if decoded.Err? {
        return Err(decoded.error);
      }
      cursor := Some(decoded.value);
    }
    var statement := BuildStatement(p, cursor);
    r := Ok(statement);
  }

  /**
   * The WHERE part of the builder: the query text, the argument list and the next
   * placeholder number grow together, one if-block per parameter, in the order
   * cursor, search, category, seller, availability, recommendation, product type.
   */
  method AddFilters(base: string, p: ProductQueryParams, cursor: Option<Cursor>)
    returns (query: string, args: seq<Arg>, placeholderCount: int)
    ensures Built(base, query, args, placeholderCount, Filters(p, cursor))
  {
    query, args, placeholderCount := base, [], 1;
    ghost var fs: seq<Filter> := [];
    assert Built(base, query, args, placeholderCount, fs);
    query, args, placeholderCount := AppendClauseIf(base, query, args, placeholderCount, fs, KeysetFilter(cursor));
    fs := AddIf(fs, KeysetFilter(cursor));
    query, args, placeholderCount := AppendClauseIf(base, query, args, placeholderCount, fs, SearchFilter(p));
    fs := AddIf(fs, SearchFilter(p));
    query, args, placeholderCount := AppendClauseIf(base, query, args, placeholderCount, fs, CategoryFilter(p));
    fs := AddIf(fs, CategoryFilter(p));
    query, args, placeholderCount := AppendClauseIf(base, query, args, placeholderCount, fs, SellerFilter(p));
    fs := AddIf(fs, SellerFilter(p));
    query, args, placeholderCount := AppendClauseIf(base, query, args, placeholderCount, fs, AvailabilityFilter(p));
    fs := AddIf(fs, AvailabilityFilter(p));
    query, args, placeholderCount := AppendClauseIf(base, query, args, placeholderCount, fs, RecommendationFilter(p));
    fs := AddIf(fs, RecommendationFilter(p));
    query, args, placeholderCount := AppendClauseIf(base, query, args, placeholderCount, fs, ProductTypeFilter(p));
    fs := AddIf(fs, ProductTypeFilter(p));
    FiltersUnrolled(p, cursor);
  }

  /** Filters, one if-block at a time. */
  lemma FiltersUnrolled(p: ProductQueryParams, cursor: Option<Cursor>)
    ensures Filters(p, cursor)
      == AddIf(AddIf(AddIf(AddIf(AddIf(AddIf(AddIf([], KeysetFilter(cursor)), SearchFilter(p)), CategoryFilter(p)),
           SellerFilter(p)), AvailabilityFilter(p)), RecommendationFilter(p)), ProductTypeFilter(p))
  {
    var cs := Candidates(p, cursor);
    assert cs[..0] == [];
    PresentStep(cs, 0);
    PresentStep(cs, 1);
    PresentStep(cs, 2);
    PresentStep(cs, 3);
    PresentStep(cs, 4);
    PresentStep(cs, 5);
    PresentStep(cs, 6);
    assert cs[..7] == cs;
  }

  lemma PresentStep(os: seq<Option<Filter>>, k: nat)
    requires k < |os|
    ensures Present(os[..k + 1]) == AddIf(Present(os[..k]), os[k])
  {
    assert os[..k + 1][..k] == os[..k];
  }

  /** The statement structure `q` has the conditions and arguments of `fs`, then ORDER BY and LIMIT as given. */
  ghost predicate Shaped(q: Query, fs: seq<Filter>, column: string, direction: string, limit: int) {
    && q.conditions == Number(Kinds(fs)) && q.limitPlaceholder == |Args(fs)| + 1
    && q.args == Args(fs) + [IntArg(limit + 1)]
    && q.column == column && q.direction == direction
  }

  lemma QueryShaped(p: ProductQueryParams, fs: seq<Filter>)
    ensures Shaped(QueryOf(p, fs), fs, ResolveSort(p.sort), ResolveDirection(p.order), EffectiveLimit(p.limit))
  {
    QueryFields(p, fs);
  }

  /** The fields of the statement's structure, one by one. */
  lemma QueryFields(p: ProductQueryParams, fs: seq<Filter>)
    ensures QueryOf(p, fs).conditions == Number(Kinds(fs))
    ensures QueryOf(p, fs).column == ResolveSort(p.sort)
    ensures QueryOf(p, fs).direction == ResolveDirection(p.order)
    ensures QueryOf(p, fs).limitPlaceholder == |Args(fs)| + 1
    ensures QueryOf(p, fs).args == Args(fs) + [IntArg(EffectiveLimit(p.limit) + 1)]
  {
  }

  /** The ORDER BY column and direction, each looked up in its allow-list with a default. */
  method ResolveOrderBy(sort: GoString, order: GoString) returns (sortColumn: string, orderDirection: string)
    ensures sortColumn == ResolveSort(sort) && orderDirection == ResolveDirection(order)
  {
    sortColumn := DefaultSort;
    if sort in SortFields {
      sortColumn := SortFields[sort];
    }
    orderDirection := DefaultDirection;
    var lowered := AsciiLower(order);
    if lowered in OrderDirections {
      orderDirection := OrderDirections[lowered];
    }
  }

  /** The page size: 20 unless the requested limit lies in 1..100. */
  method ResolveLimit(requested: int) returns (limit: int)
    ensures limit == EffectiveLimit(requested)
  {
    limit := 20;
    if requested > 0 && requested <= 100 {
      limit := requested;
    }
  }

  /**
   * The whole statement: the WHERE part, then ORDER BY from the allow-lists with
   * the product_id tie-break, then LIMIT with one row more than the page size.
   */
  method BuildStatement(p: ProductQueryParams, cursor: Option<Cursor>) returns (s: Statement)
    ensures s == StatementFor(p, cursor)
  {
    s := BuildStatementOn(BaseSelect, p, cursor);
  }

  /** BuildStatement for any query head `base`. */
  method BuildStatementOn(base: string, p: ProductQueryParams, cursor: Option<Cursor>) returns (s: Statement)
    ensures s == StatementOn(base, p, Filters(p, cursor))
  {
    var query, args, placeholderCount := AddFilters(base, p, cursor);
    s := OrderAndLimit(base, p, query, args, placeholderCount, Filters(p, cursor));
  }

  /** The ORDER BY and LIMIT steps for whatever filters the WHERE part holds. */
  method OrderAndLimit(ghost base: string, p: ProductQueryParams, query: string, args: seq<Arg>, placeholderCount: int,
                       ghost fs: seq<Filter>) returns (s: Statement)
    requires Built(base, query, args, placeholderCount, fs)
    ensures s == StatementOn(base, p, fs)
  {
    var sortColumn, orderDirection := ResolveOrderBy(p.sort, p.order);
    var limit := ResolveLimit(p.limit);
    QueryShaped(p, fs);
    s := FinishStatement(base, query, args, placeholderCount, QueryOf(p, fs), fs, sortColumn, orderDirection, limit);
  }

  /**
   * After the WHERE part: ORDER BY the resolved column and direction with the
   * product_id tie-break, then LIMIT with one row more than the page size.
   */
  method FinishStatement(ghost base: string, query: string, args: seq<Arg>, placeholderCount: int,
                         ghost q: Query, ghost fs: seq<Filter>, sortColumn: string, orderDirection: string, limit: int)
    returns (s: Statement)
    requires Built(base, query, args, placeholderCount, fs)
    requires Shaped(q, fs, sortColumn, orderDirection, limit)
    ensures s == Statement(SqlText(base, q), q.args, limit)
  {
    var text := query + OrderBySql(sortColumn, orderDirection);
    text := text + LimitSql(placeholderCount);
    s := Statement(text, args + [IntArg(limit + 1)], limit);
  }

  // ---------------------------------------------------------------------------
  // What the statement means
  // ---------------------------------------------------------------------------

  /** The conditions in the order the store considers them. */
  const FilterOrder: seq<FilterKind> :=
    [Keyset, NameLike, CategoryIs, SellerIs, AvailabilityIs, RecommendationIs, ProductTypeIs]

  /** Which parameters are flags, in that order: a cursor was given, and each of the others is non-empty or non-zero. */
  function IsSet(p: ProductQueryParams, cursor: Option<Cursor>): (flags: seq<bool>)
    ensures |flags| == |FilterOrder|
  {
    [cursor.Some?, p.search != [], p.categoryId != 0, p.sellerId != [],
     p.availability != [], p.recommendation != [], p.productType != []]
  }

  /** The kinds whose flag is flags, in order. */
  function Selected(ks: seq<FilterKind>, flags: seq<bool>): seq<FilterKind>
    requires |ks| == |flags|
  {
    if ks == [] then []
    else Selected(ks[..|ks| - 1], flags[..|ks| - 1]) + (if flags[|ks| - 1] then [ks[|ks| - 1]] else [])
  }

  /** Each if-block adds one condition more exactly when its parameter is flags. */
  lemma {:induction false} PresentKinds(os: seq<Option<Filter>>, ks: seq<FilterKind>, flags: seq<bool>)
    requires |os| == |ks| == |flags|
    requires forall i :: 0 <= i < |os| ==> (os[i].Some? <==> flags[i])
    requires forall i :: 0 <= i < |os| && os[i].Some? ==> KindOf(os[i].value) == ks[i]
    ensures Kinds(Present(os)) == Selected(ks, flags)
  {
    if os != [] {
      var n := |os| - 1;
      PresentKinds(os[..n], ks[..n], flags[..n]);
      if os[n].Some? {
        AppendFilter(Present(os[..n]), os[n].value);
      } else {
        assert Selected(ks, flags) == Selected(ks[..n], flags[..n]) + [];
      }
    }
  }

  /** The filters present are exactly those whose parameter is flags, one each, in the store's order. */
  lemma FiltersShape(p: ProductQueryParams, cursor: Option<Cursor>)
    ensures Kinds(Filters(p, cursor)) == Selected(FilterOrder, IsSet(p, cursor))
  {
    PresentKinds(Candidates(p, cursor), FilterOrder, IsSet(p, cursor));
  }

  /**
   * The SQL text depends on the caller only through which parameters are set and
   * the allow-listed ORDER BY: two requests that agree on those get the same text,
   * whatever their search terms, ids or cursors hold.
   */
  lemma TextIndependent(p1: ProductQueryParams, c1: Option<Cursor>, p2: ProductQueryParams, c2: Option<Cursor>)
    requires IsSet(p1, c1) == IsSet(p2, c2)
    requires ResolveSort(p1.sort) == ResolveSort(p2.sort) && ResolveDirection(p1.order) == ResolveDirection(p2.order)
    ensures StatementFor(p1, c1).sql == StatementFor(p2, c2).sql
  {
    TextIndependentOn(BaseSelect, p1, c1, p2, c2);
  }

  /** TextIndependent for any query head `base`. */
  lemma TextIndependentOn(base: string, p1: ProductQueryParams, c1: Option<Cursor>, p2: ProductQueryParams, c2: Option<Cursor>)
    requires IsSet(p1, c1) == IsSet(p2, c2)
    requires ResolveSort(p1.sort) == ResolveSort(p2.sort) && ResolveDirection(p1.order) == ResolveDirection(p2.order)
    ensures StatementOn(base, p1, Filters(p1, c1)).sql == StatementOn(base, p2, Filters(p2, c2)).sql
  {
    var fs1, fs2 := Filters(p1, c1), Filters(p2, c2);
    assert Kinds(fs1) == Kinds(fs2) by {
      FiltersShape(p1, c1);
      FiltersShape(p2, c2);
    }
    assert |Args(fs1)| == |Args(fs2)| by {
      ArgsWidth(fs1);
      ArgsWidth(fs2);
    }
    QueryShaped(p1, fs1);
    QueryShaped(p2, fs2);
  }

  /** The only ORDER BY columns and directions: the allow-lists' values; nothing of the caller's text. */
  lemma OrderByAllowListed(sort: GoString, order: GoString)
    ensures ResolveSort(sort) in SortFields.Values
    ensures ResolveDirection(order) in OrderDirections.Values
  {
    assert SortFields["price"] == DefaultSort;
    assert OrderDirections["asc"] == DefaultDirection;
  }

  /**
   * The statement orders by the resolved column and direction, then by
   * product_id ascending, so rows with equal sort values come in a fixed order.
   */
  lemma OrderedWithTieBreak(p: ProductQueryParams, cursor: Option<Cursor>)
    ensures var q := QueryFor(p, cursor);
      StatementFor(p, cursor).sql
        == BaseSelect + WhereSql(q.conditions) + " ORDER BY " + ResolveSort(p.sort) + " "
           + ResolveDirection(p.order) + ", p.product_id ASC" + LimitSql(q.limitPlaceholder)
  {
    var fs := Filters(p, cursor);
    QueryFields(p, fs);
    var q := QueryOf(p, fs);
    OrderBySpelledOut(BaseSelect + WhereSql(q.conditions), q.column, q.direction, LimitSql(q.limitPlaceholder));
  }

  lemma OrderBySpelledOut(head: string, column: string, direction: string, tail: string)
    ensures head + OrderBySql(column, direction) + tail
      == head + " ORDER BY " + column + " " + direction + ", p.product_id ASC" + tail
  {
    var orderBy, space, tieBreak := " ORDER BY ", " ", ", p.product_id ASC";
    calc {
      head + OrderBySql(column, direction) + tail;
      head + (orderBy + column + space + direction + tieBreak) + tail;
      { Associative(head, orderBy + column + space + direction, tieBreak);
        Associative(head, orderBy + column + space, direction);
        Associative(head, orderBy + column, space);
        Associative(head, orderBy, column); }
      head + orderBy + column + space + direction + tieBreak + tail;
    }
  }

  /** The sort column: p.name exactly for "name", p.created_at exactly for "created_at", p.price otherwise. */
  lemma SortCases(sort: GoString)
    ensures ResolveSort(sort) == "p.name" <==> sort == "name"
    ensures ResolveSort(sort) == "p.created_at" <==> sort == "created_at"
    ensures ResolveSort(sort) == "p.price" <==> sort != "name" && sort != "created_at"
  {
    assert SortFields.Keys == {"name", "price", "created_at"};
  }

  /** The direction: DESC exactly when the order lower-cases to "desc", otherwise ASC; case does not matter. */
  lemma DirectionCases(order: GoString)
    ensures ResolveDirection(order) == "DESC" <==> AsciiLower(order) == "desc"
    ensures ResolveDirection(order) != "DESC" ==> ResolveDirection(order) == "ASC"
  {
    assert OrderDirections.Keys == {"asc", "desc"};
  }

  /**
   * The search argument is the term between two ILIKE wildcards with every space
   * removed, so spaces anywhere in the term do not change it.
   */
  lemma SearchPatternShape(search: GoString)
    ensures var r := SearchPattern(search);
      && |r| >= 2 && r[0] == '%' && r[|r| - 1] == '%'
      && r[1..|r| - 1] == RemoveSpaces(search) && ' ' !in r
  {
    var r := SearchPattern(search);
    assert r[1..|r| - 1] == RemoveSpaces(search);
    assert r == "%" + r[1..|r| - 1] + "%";
  }

  lemma SearchIgnoresSpaces(a: GoString, b: GoString)
    ensures SearchPattern(a + " " + b) == SearchPattern(a + b)
  {
    RemoveSpacesAppend(a + " ", b);
    RemoveSpacesAppend(a, " ");
    RemoveSpacesAppend(a, b);
    assert RemoveSpaces(" ") == [];
    assert RemoveSpaces(a) + [] == RemoveSpaces(a);
  }

  /** A filter is recovered from its kind and the values it binds. */
  lemma FilterRoundTrip(f: Filter)
    ensures FilterOf(KindOf(f), FilterArgs(f)) == Some(f)
  {
  }

  /** And those are the only values that give it back: the bound values determine the filter. */
  lemma FilterOfInverse(kind: FilterKind, values: seq<Arg>)
    requires FilterOf(kind, values).Some?
    ensures KindOf(FilterOf(kind, values).value) == kind
    ensures FilterArgs(FilterOf(kind, values).value) == values
  {
    assert values == [values[0]] || values == [values[0], values[1]];
  }

  /**
   * How the database reads the statement: condition c compares against the values
   * at $c.placeholder onwards, $k being args[k - 1]. None when a placeholder falls
   * outside the list or its values do not fit the condition.
   */
  function Bound(cs: seq<Condition>, args: seq<Arg>): Option<seq<Filter>> {
    if cs == [] then Some([])
    else
      var c := cs[|cs| - 1];
      if c.placeholder == 0 || c.placeholder - 1 + Arity(c.kind) > |args| then None
      else
        var init := Bound(cs[..|cs| - 1], args);
        var f := FilterOf(c.kind, args[c.placeholder - 1..c.placeholder - 1 + Arity(c.kind)]);
        if init.Some? && f.Some? then Some(init.value + [f.value]) else None
  }

  /** Numbered conditions over their argument list bind each filter to exactly its own values. */
  lemma {:induction false} BindNumbered(fs: seq<Filter>, extra: seq<Arg>)
    ensures Bound(Number(Kinds(fs)), Args(fs) + extra) == Some(fs)
  {
    if fs != [] {
      var init, last := fs[..|fs| - 1], fs[|fs| - 1];
      assert init + [last] == fs;
      NumberLast(fs);
      var args := Args(fs) + extra;
      var first := |Args(init)|;
      assert args == Args(init) + (FilterArgs(last) + extra) by {
        Associative(Args(init), FilterArgs(last), extra);
      }
      BindNumbered(init, FilterArgs(last) + extra);
      assert args[first..first + Arity(KindOf(last))] == FilterArgs(last);
      FilterRoundTrip(last);
      BoundLast(Number(Kinds(init)), Condition(KindOf(last), first + 1), args);
    }
  }

  /** The last filter's condition is numbered right after its predecessors' arguments, and its values come last. */
  lemma NumberLast(fs: seq<Filter>)
    requires fs != []
    ensures var init := fs[..|fs| - 1];
      && Number(Kinds(fs)) == Number(Kinds(init)) + [Condition(KindOf(fs[|fs| - 1]), |Args(init)| + 1)]
      && Args(fs) == Args(init) + FilterArgs(fs[|fs| - 1])
  {
    var init := fs[..|fs| - 1];
    assert fs == init + [fs[|fs| - 1]];
    assert Kinds(fs)[..|fs| - 1] == Kinds(init);
    ArgsWidth(init);
  }

  /** Bound on one more condition: the bindings so far, then the filter read from that condition's own values. */
  lemma BoundLast(cs: seq<Condition>, c: Condition, args: seq<Arg>)
    requires 1 <= c.placeholder && c.placeholder - 1 + Arity(c.kind) <= |args|
    ensures Bound(cs + [c], args)
      == var init := Bound(cs, args);
         var f := FilterOf(c.kind, args[c.placeholder - 1..c.placeholder - 1 + Arity(c.kind)]);
         if init.Some? && f.Some? then Some(init.value + [f.value]) else None
  {
    assert (cs + [c])[..|cs|] == cs;
  }

  /**
   * The statement binds every condition to the values of the filter it stands for,
   * and its last argument, at the LIMIT placeholder, asks for one row more than the
   * page size, which lies in 1..100.
   */
  lemma StatementBinds(p: ProductQueryParams, cursor: Option<Cursor>)
    ensures var q := QueryFor(p, cursor);
      && Bound(q.conditions, q.args) == Some(Filters(p, cursor))
      && q.limitPlaceholder == |q.args|
      && q.args[|q.args| - 1] == IntArg(EffectiveLimit(p.limit) + 1)
      && StatementFor(p, cursor).args == q.args
      && 1 <= StatementFor(p, cursor).limit <= 100
  {
    var fs := Filters(p, cursor);
    QueryFields(p, fs);
    BindNumbered(fs, [IntArg(EffectiveLimit(p.limit) + 1)]);
  }

  /** The store refuses the parameters exactly when a cursor is given and does not decode, with that error. */
  lemma PrepareFails(p: ProductQueryParams)
    ensures Prepare(p).Err? <==> p.cursor != [] && DecodeCursor(p.cursor).Err?
    ensures Prepare(p).Err? ==> Prepare(p).error == DecodeCursor(p.cursor).error
    ensures p.cursor == [] ==> Prepare(p) == Ok(StatementFor(p, None))
    ensures p.cursor != [] && DecodeCursor(p.cursor).Ok? ==>
      Prepare(p) == Ok(StatementFor(p, Some(DecodeCursor(p.cursor).value)))
  {
  }

  /** The page size the statement carries is the clamped limit. */
  lemma PreparedLimit(p: ProductQueryParams)
    ensures Prepare(p).Ok? ==> Prepare(p).value.limit == EffectiveLimit(p.limit)
  {
  }
}
