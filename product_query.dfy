/**
 * The paged "products with owners" endpoint: query-string defaults, the OR
 * search over name, brand and owner names, the id-ordered skip/take window with
 * the total match count, and the owner-name formatting. The database is an
 * in-memory table; `findMany` and `count` are functions over it.
 */
module ProductQuery {
  import opened Wrappers
  import Text
  import Numbers
  import Paging

  const DefaultLimit := "10"
  const DefaultOffset := "0"
  const NoOwners := "N/A"
  const OwnerSeparator := ", "
  const FailureStatus := 500
  const FailureMessage := "Failed to fetch products with owners"

  /** A product row with the names of its owners, in the order of the product-owner relation. */
  datatype ProductRecord = ProductRecord(id: int, name: string, brand: string, ownerNames: seq<string>)

  /** The raw `limit`, `offset` and `search` query parameters; `None` when absent. */
  datatype QueryParams = QueryParams(limit: Option<string>, offset: Option<string>, search: Option<string>)

  /** One entry of the response's `data`. */
  datatype ProductRow = ProductRow(id: int, productName: string, productBrand: string, productOwner: string)

  /** The JSON body: a page of rows with the echoed paging, or the status-500 failure. */
  datatype Response =
    | Ok(data: seq<ProductRow>, totalCount: nat, limit: int, offset: int)
    | Failed(status: int, message: string)

  /** The `where` clause: no condition, or the three-way OR on one search text. */
  datatype Where = All | AnyFieldContains(text: string)

  /** `searchParams.get(key) || default`: a missing or empty parameter takes the default. */
  function ParamOr(p: Option<string>, default: string): (r: string)
    ensures p.None? || p.value == "" ==> r == default
    ensures p.Some? && p.value != "" ==> r == p.value
  {
    if p.Some? && p.value != "" then p.value else default
  }

  /** The `whereClause`: an `OR` only for a non-empty search. */
  function WhereClause(search: string): (r: Where)
    ensures r.All? <==> search == ""
    ensures r.AnyFieldContains? ==> r.text == search
  {
    if search != "" then AnyFieldContains(search) else All
  }

  /** Some owner name contains the text (`products_owners: { some: ... }`). */
  predicate SomeOwnerContains(names: seq<string>, text: string) {
    exists i :: 0 <= i < |names| && Text.Contains(names[i], text)
  }

  predicate Matches(w: Where, p: ProductRecord)
    ensures w.All? ==> Matches(w, p)
    ensures w.AnyFieldContains? && w.text == "" ==> Matches(w, p)
  {
    Text.ContainsEmpty(p.name);
    match w
    case All => true
    case AnyFieldContains(text) =>
      Text.Contains(p.name, text) || Text.Contains(p.brand, text) || SomeOwnerContains(p.ownerNames, text)
  }

  function Matching(table: seq<ProductRecord>, w: Where): seq<ProductRecord> {
    Text.Filter(table, p => Matches(w, p))
  }

  predicate SortedById(s: seq<ProductRecord>) {
    forall i, j :: 0 <= i < j < |s| ==> s[i].id <= s[j].id
  }

  /** Every row of `s` has an id of at least `b`. */
  predicate AtLeast(b: int, s: seq<ProductRecord>) {
    forall i :: 0 <= i < |s| ==> b <= s[i].id
  }

  /** A row whose id bounds a sorted list from below can go in front of it. */
  lemma PrependSorted(x: ProductRecord, s: seq<ProductRecord>)
    requires SortedById(s) && AtLeast(x.id, s)
    ensures SortedById([x] + s)
  {
  }

  function InsertById(p: ProductRecord, s: seq<ProductRecord>): (r: seq<ProductRecord>)
    requires SortedById(s)
    ensures SortedById(r)
    ensures |r| == |s| + 1
    ensures multiset(r) == multiset(s) + multiset{p}
    ensures forall b :: AtLeast(b, s) && b <= p.id ==> AtLeast(b, r)
    decreases |s|
  {
    if s == [] then [p]
    else if p.id <= s[0].id then
      PrependSorted(p, s);
      [p] + s
    else
      var rest := InsertById(p, s[1..]);
      InsertBehindHead(p, s, rest);
      [s[0]] + rest
  }

  /** Putting the head back in front of the row inserted into the tail keeps the order and the rows. */
  lemma InsertBehindHead(p: ProductRecord, s: seq<ProductRecord>, rest: seq<ProductRecord>)
    requires s != [] && SortedById(s) && s[0].id < p.id
    requires SortedById(rest)
    requires multiset(rest) == multiset(s[1..]) + multiset{p}
    requires forall b :: AtLeast(b, s[1..]) && b <= p.id ==> AtLeast(b, rest)
    ensures SortedById([s[0]] + rest)
    ensures multiset([s[0]] + rest) == multiset(s) + multiset{p}
    ensures forall b :: AtLeast(b, s) && b <= p.id ==> AtLeast(b, [s[0]] + rest)
  {
    assert s == [s[0]] + s[1..];
    assert AtLeast(s[0].id, s[1..]);
    PrependSorted(s[0], rest);
    forall b | AtLeast(b, s) && b <= p.id
      ensures AtLeast(b, [s[0]] + rest)
    {
      assert AtLeast(b, s[1..]);
    }
  }

  /** `orderBy: { id: 'asc' }`: the same rows, in ascending id order. */
  function SortById(s: seq<ProductRecord>): (r: seq<ProductRecord>)
    ensures SortedById(r)
    ensures |r| == |s|
    ensures multiset(r) == multiset(s)
    decreases |s|
  {
    if s == [] then []
    else
      assert s == [s[0]] + s[1..];
      InsertById(s[0], SortById(s[1..]))
  }

  /** `findMany({ where, skip, take, orderBy: { id: 'asc' } })`. */
  function FindMany(table: seq<ProductRecord>, w: Where, take: nat, skip: nat): (r: seq<ProductRecord>)
    ensures |r| <= take
    ensures SortedById(r)
  {
    SkipTake(SortById(Matching(table, w)), take, skip)
  }

  /** `skip` rows dropped, then at most `take` rows kept; both positions clamped to the rows there are. */
  function SkipTake(rows: seq<ProductRecord>, take: nat, skip: nat): (r: seq<ProductRecord>)
    ensures |r| <= take
    ensures skip + take <= |rows| ==> |r| == take
    ensures skip >= |rows| ==> r == []
    ensures forall i :: 0 <= i < |r| ==> skip + i < |rows| && r[i] == rows[skip + i]
    ensures SortedById(rows) ==> SortedById(r)
  {
    rows[Paging.Min(skip, |rows|)..Paging.Min(skip + take, |rows|)]
  }

  /** Every row of a page is a row of the table that satisfies the filter. */
  lemma PageRowsMatch(table: seq<ProductRecord>, w: Where, take: nat, skip: nat, i: int)
    requires 0 <= i < |FindMany(table, w, take, skip)|
    ensures FindMany(table, w, take, skip)[i] in table
    ensures Matches(w, FindMany(table, w, take, skip)[i])
  {
    var m := Matching(table, w);
    var ordered := SortById(m);
    var x := FindMany(table, w, take, skip)[i];
    assert x in ordered;
    assert x in multiset(ordered);
    assert x in m;
  }

  /** `count({ where })`. */
  function Count(table: seq<ProductRecord>, w: Where): (r: nat)
    ensures r <= |table|
    ensures w.All? ==> r == |table|
  {
    AllKeepsTable(table);
    |Matching(table, w)|
  }

  /** `product_owner`: the owner names joined by ", ", or "N/A" when that is empty. */
  function OwnerLabel(names: seq<string>): (r: string)
    ensures r != ""
    ensures names == [] || names == [""] ==> r == NoOwners
    ensures names != [] && names != [""] ==> r == Text.Join(names, OwnerSeparator)
  {
    Text.JoinEmptyIff(names, OwnerSeparator);
    var joined := Text.Join(names, OwnerSeparator);
    if joined == "" then NoOwners else joined
  }

  function Format(p: ProductRecord): ProductRow {
    ProductRow(p.id, p.name, p.brand, OwnerLabel(p.ownerNames))
  }

  function FormatAll(ps: seq<ProductRecord>): (r: seq<ProductRow>)
    ensures |r| == |ps|
    ensures forall i :: 0 <= i < |r| ==> r[i] == Format(ps[i])
  {
    seq(|ps|, i requires 0 <= i < |ps| => Format(ps[i]))
  }

  /**
   * The `GET` handler. A `limit` or `offset` that does not parse (NaN), a
   * negative `offset` or a negative `limit` is refused by the ORM and answered
   * with status 500; otherwise the page, the total, and the parsed paging.
   */
  function Get(params: QueryParams, table: seq<ProductRecord>): (r: Response)
    ensures var limit := Numbers.ParseInt(ParamOr(params.limit, DefaultLimit));
      var offset := Numbers.ParseInt(ParamOr(params.offset, DefaultOffset));
      r.Ok? <==> limit.Some? && offset.Some? && limit.value >= 0 && offset.value >= 0
    ensures r.Failed? ==> r.status == FailureStatus && r.message == FailureMessage
    ensures r.Ok? ==> 0 <= |r.data| <= r.limit && |r.data| <= r.totalCount
    ensures r.Ok? ==> forall i, j :: 0 <= i < j < |r.data| ==> r.data[i].id <= r.data[j].id
  {
    Respond(
      Numbers.ParseInt(ParamOr(params.limit, DefaultLimit)),
      Numbers.ParseInt(ParamOr(params.offset, DefaultOffset)),
      ParamOr(params.search, ""),
      table)
  }

  /** The handler once the parameters are read: `limit` and `offset` as `parseInt` gave them. */
  function Respond(limit: Option<int>, offset: Option<int>, search: string, table: seq<ProductRecord>): (r: Response)
    ensures r.Ok? <==> limit.Some? && offset.Some? && limit.value >= 0 && offset.value >= 0
    ensures r.Failed? ==> r.status == FailureStatus && r.message == FailureMessage
    ensures r.Ok? ==> r.limit == limit.value && r.offset == offset.value
    ensures r.Ok? ==> 0 <= |r.data| <= r.limit && |r.data| <= r.totalCount
    ensures r.Ok? ==> forall i, j :: 0 <= i < j < |r.data| ==> r.data[i].id <= r.data[j].id
  {
    if limit.None? || offset.None? || limit.value < 0 || offset.value < 0 then
      Failed(FailureStatus, FailureMessage)
    else
      var w := WhereClause(search);
      var page := FindMany(table, w, limit.value, offset.value);
      PageWithinMatches(table, w, limit.value, offset.value);
      Ok(FormatAll(page), Count(table, w), limit.value, offset.value)
  }

  /** The page never holds more rows than the count reports. */
  lemma PageWithinMatches(table: seq<ProductRecord>, w: Where, take: nat, skip: nat)
    ensures |FindMany(table, w, take, skip)| <= Count(table, w)
  {
  }

  /**
   * `r` is a successful response whose rows are the formatted run of `ordered`
   * from `r.offset` on, at most `r.limit` of them, and whose total is the
   * number of rows in `ordered`.
   */
  predicate IsWindowOf(r: Response, ordered: seq<ProductRecord>) {
    && r.Ok? && r.offset >= 0 && r.limit >= 0
    && r.totalCount == |ordered|
    && r.data == FormatAll(ordered[Paging.Min(r.offset, |ordered|)..Paging.Min(r.offset + r.limit, |ordered|)])
  }

  /** The page is the `[offset, offset + limit)` run of the id-ordered matches, formatted. */
  lemma GetIsWindowOfMatches(params: QueryParams, table: seq<ProductRecord>)
    requires Get(params, table).Ok?
    ensures IsWindowOf(Get(params, table), SortById(Matching(table, WhereClause(ParamOr(params.search, "")))))
  {
    var limit := Numbers.ParseInt(ParamOr(params.limit, DefaultLimit));
    var offset := Numbers.ParseInt(ParamOr(params.offset, DefaultOffset));
    var search := ParamOr(params.search, "");
    GetResponds(params, table);
    RespondIsWindowOfMatches(limit, offset, search, table);
  }

  lemma GetResponds(params: QueryParams, table: seq<ProductRecord>)
    ensures Get(params, table) == Respond(
      Numbers.ParseInt(ParamOr(params.limit, DefaultLimit)),
      Numbers.ParseInt(ParamOr(params.offset, DefaultOffset)),
      ParamOr(params.search, ""),
      table)
  {
  }

  lemma RespondIsWindowOfMatches(limit: Option<int>, offset: Option<int>, search: string, table: seq<ProductRecord>)
    requires Respond(limit, offset, search, table).Ok?
    ensures IsWindowOf(Respond(limit, offset, search, table), SortById(Matching(table, WhereClause(search))))
  {
    RespondOk(limit, offset, search, table);
    OkIsWindowOf(SortById(Matching(table, WhereClause(search))), limit.value, offset.value);
  }

  /** A response built from `skip`/`take` on `ordered`, with its length as the total, is a window of it. */
  lemma OkIsWindowOf(ordered: seq<ProductRecord>, take: nat, skip: nat)
    ensures IsWindowOf(Ok(FormatAll(SkipTake(ordered, take, skip)), |ordered|, take, skip), ordered)
  {
    SkipTakeIsSlice(ordered, take, skip);
  }

  lemma SkipTakeIsSlice(rows: seq<ProductRecord>, take: nat, skip: nat)
    ensures SkipTake(rows, take, skip) == rows[Paging.Min(skip, |rows|)..Paging.Min(skip + take, |rows|)]
  {
  }

  /** An accepted request answers with the formatted page, the count, and the parsed paging. */
  lemma RespondOk(limit: Option<int>, offset: Option<int>, search: string, table: seq<ProductRecord>)
    requires Respond(limit, offset, search, table).Ok?
    ensures var w := WhereClause(search);
      Respond(limit, offset, search, table)
      == Ok(FormatAll(FindMany(table, w, limit.value, offset.value)), Count(table, w), limit.value, offset.value)
  {
  }

  /** No parameters at all: the first ten products of the whole table, from offset 0. */
  lemma DefaultParameters(table: seq<ProductRecord>)
    ensures Numbers.ParseInt(DefaultLimit) == Some(10)
    ensures Numbers.ParseInt(DefaultOffset) == Some(0)
    ensures var r := Get(QueryParams(None, None, None), table);
      r.Ok? && r.limit == 10 && r.offset == 0 && r.totalCount == |table|
      && r.data == FormatAll(FindMany(table, All, 10, 0))
  {
    DefaultsParse();
    assert Get(QueryParams(None, None, None), table) == Respond(Some(10), Some(0), "", table);
    AllKeepsTable(table);
  }

  /** With no filter every row of the table matches. */
  lemma AllKeepsTable(table: seq<ProductRecord>)
    ensures Matching(table, All) == table
  {
    assert forall i :: 0 <= i < |table| ==> Matches(All, table[i]);
  }

  lemma DefaultsParse()
    ensures Numbers.ParseInt(DefaultLimit) == Some(10)
    ensures Numbers.ParseInt(DefaultOffset) == Some(0)
  {
    Numbers.ReadDigits(DefaultLimit);
    Numbers.ReadDigits(DefaultOffset);
    assert DefaultLimit[..1] == "1";
    assert Numbers.DigitsValue("1") == 1;
    assert Numbers.DigitsValue(DefaultLimit) == 10;
    assert Numbers.DigitsValue(DefaultOffset) == 0;
  }

  /** An empty search applies no filter: every product matches. */
  lemma EmptySearchMatchesAll(p: ProductRecord, search: Option<string>)
    requires search.None? || search.value == ""
    ensures WhereClause(ParamOr(search, "")) == All
    ensures Matches(WhereClause(ParamOr(search, "")), p)
  {
  }

  /** A non-empty search matches a product iff its name, its brand or one of its owners' names contains the text. */
  lemma SearchMatchesAnyField(search: string, p: ProductRecord)
    requires search != ""
    ensures Matches(WhereClause(search), p) <==>
      Text.Contains(p.name, search) || Text.Contains(p.brand, search)
      || exists i :: 0 <= i < |p.ownerNames| && Text.Contains(p.ownerNames[i], search)
  {
  }

  /** Concrete labels: no owner is "N/A", names are joined by ", " in relation order, an empty name stays in the join. */
  lemma OwnerLabelScenarios()
    ensures OwnerLabel([]) == "N/A"
    ensures OwnerLabel(["Ann"]) == "Ann"
    ensures OwnerLabel(["Ann", "Bob"]) == "Ann, Bob"
    ensures OwnerLabel([""]) == "N/A"
    ensures OwnerLabel(["", "Bob"]) == ", Bob"
  {
  }
}
