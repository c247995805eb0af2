/** The product catalogue routes (routes/productRoutes.js): the field
    validation shared by create and update, the trimming and clamping of the
    stored values, the 404 rules of update and delete, and the listings
    (all, by category, search) in descending id order. The `tarasproducts`
    table is a map from id to row; `parseFloat` is a function parameter that
    gives `None` for NaN and for an infinite value. */
module ProductRoutes {
  import opened Common
  import opened Js

  /** `isMissing(v)`: undefined, null or a blank string. */
  predicate IsMissing(v: Json) {
    v.JUndef? || v.JNull? || (v.JStr? && Trim(v.s) == "")
  }

  /** A string is missing exactly when every character is whitespace. */
  lemma BlankIsMissing(s: string)
    ensures IsMissing(JStr(s)) <==> forall i :: 0 <= i < |s| ==> IsSpace(s[i])
  {
    if forall i :: 0 <= i < |s| ==> IsSpace(s[i]) {
      TrimAllSpace(s);
    } else {
      var t := TrimStart(s);
      TrimStartFacts(s);
      TrimEndFacts(t);
    }
  }

  /** `num(v)`: a number as it is, otherwise `parseFloat(String(v).trim())`;
      `None` stands for NaN, including a non-finite result. The renderings
      of undefined, null, the booleans and objects start with a letter or
      `[`, so `parseFloat` reads no number from them; only strings and
      arrays reach the `parseFloat` parameter. */
  function Num(v: Json, parseFloat: string -> Option<real>): (r: Option<real>)
    ensures v.JNum? ==> r == Some(v.n as real)
    ensures v.JNaN? || v.JUndef? || v.JNull? || v.JBool? || v.JObj? ==> r.None?
    ensures v.JStr? || v.JArr? ==> r == parseFloat(Trim(ToStr(v)))
  {
    match v
    case JNum(n) => Some(n as real)
    case JStr(_) => parseFloat(Trim(ToStr(v)))
    case JArr(_) => parseFloat(Trim(ToStr(v)))
    case _ => None
  }

  /** `parseInt(v, 10)`, which converts its argument with `String`. */
  function Count(v: Json): Option<int> {
    ParseInt(ToStr(v))
  }

  /** A number's own decimal rendering parses back to it. */
  lemma CountOfNumber(n: int)
    ensures Count(JNum(n)) == Some(n)
  {
    ParseIntOfIntToString(n);
  }

  /** A field `isMissing` does not reject. */
  predicate Present(body: Json, key: string) {
    !IsMissing(Get(body, key))
  }

  /** A field `num` parses. */
  predicate Priced(body: Json, key: string, parseFloat: string -> Option<real>) {
    Num(Get(body, key), parseFloat).Some?
  }

  /** The condition under which create and update do not answer 400. */
  predicate Valid(body: Json, parseFloat: string -> Option<real>) {
    && Present(body, "category") && Present(body, "brand") && Present(body, "product_name")
    && Present(body, "color") && Present(body, "size")
    && Priced(body, "original_price_b2b", parseFloat) && Priced(body, "discount_b2b", parseFloat)
    && Priced(body, "final_price_b2b", parseFloat) && Priced(body, "original_price_b2c", parseFloat)
    && Priced(body, "discount_b2c", parseFloat) && Priced(body, "final_price_b2c", parseFloat)
    && Count(Get(body, "total_count")).Some?
    && Present(body, "image_url")
  }

  /** Every text field is a string, so `.trim()` does not throw. */
  predicate AllText(body: Json) {
    && Get(body, "category").JStr? && Get(body, "brand").JStr? && Get(body, "product_name").JStr?
    && Get(body, "color").JStr? && Get(body, "size").JStr?
  }

  /** The six prices in column order. */
  datatype Prices = Prices(
    originalB2b: real, discountB2b: real, finalB2b: real,
    originalB2c: real, discountB2c: real, finalB2c: real)

  datatype Product = Product(
    category: string, brand: string, productName: string, color: string, size: string,
    prices: Prices, totalCount: int, imageUrl: Json)

  /** Non-empty, and neither starts nor ends with whitespace. */
  predicate Clean(s: string) {
    s != "" && !IsSpace(s[0]) && !IsSpace(s[|s| - 1])
  }

  /** What every stored row looks like. */
  predicate Normalised(p: Product) {
    && Clean(p.category) && Clean(p.brand) && Clean(p.productName) && Clean(p.color) && Clean(p.size)
    && p.totalCount >= 0 && !IsMissing(p.imageUrl)
  }

  datatype Input =
    | BadFields            // 400 'Missing or invalid product fields'
    | TrimThrows           // 500: `.trim()` on a text field that is not a string
    | Fields(p: Product)

  /** `body[key].trim()` for a string field. */
  function TextOf(body: Json, key: string): (r: string)
    requires Get(body, key).JStr? && Present(body, key)
    ensures Clean(r) && r == Trim(Get(body, key).s)
  {
    TrimFacts(Get(body, key).s);
    Trim(Get(body, key).s)
  }

  function PriceOf(body: Json, key: string, parseFloat: string -> Option<real>): real
    requires Priced(body, key, parseFloat)
  {
    Num(Get(body, key), parseFloat).value
  }

  /** `Math.max(0, parseInt(total_count, 10))`. */
  function Stock(body: Json): (r: int)
    requires Count(Get(body, "total_count")).Some?
    ensures r >= 0
    ensures Count(Get(body, "total_count")).value >= 0 ==> r == Count(Get(body, "total_count")).value
    ensures Count(Get(body, "total_count")).value < 0 ==> r == 0
  {
    var n := Count(Get(body, "total_count")).value;
    if n > 0 then n else 0
  }

  /** The validation and the parameter array of create and update. */
  function Parse(body: Json, parseFloat: string -> Option<real>): (r: Input)
    ensures r == BadFields <==> !Valid(body, parseFloat)
    ensures r == TrimThrows <==> Valid(body, parseFloat) && !AllText(body)
    ensures r.Fields? ==> Normalised(r.p)
    ensures r.Fields? ==>
      && r.p.category == Trim(Get(body, "category").s)
      && r.p.brand == Trim(Get(body, "brand").s)
      && r.p.productName == Trim(Get(body, "product_name").s)
      && r.p.color == Trim(Get(body, "color").s)
      && r.p.size == Trim(Get(body, "size").s)
      && r.p.imageUrl == Get(body, "image_url")
    ensures r.Fields? ==>
      && Num(Get(body, "original_price_b2b"), parseFloat) == Some(r.p.prices.originalB2b)
      && Num(Get(body, "discount_b2b"), parseFloat) == Some(r.p.prices.discountB2b)
      && Num(Get(body, "final_price_b2b"), parseFloat) == Some(r.p.prices.finalB2b)
      && Num(Get(body, "original_price_b2c"), parseFloat) == Some(r.p.prices.originalB2c)
      && Num(Get(body, "discount_b2c"), parseFloat) == Some(r.p.prices.discountB2c)
      && Num(Get(body, "final_price_b2c"), parseFloat) == Some(r.p.prices.finalB2c)
    ensures r.Fields? ==>
      var n := Count(Get(body, "total_count")).value;
      (n >= 0 ==> r.p.totalCount == n) && (n < 0 ==> r.p.totalCount == 0)
  {
    if !Valid(body, parseFloat) then BadFields
    else if !AllText(body) then TrimThrows
    else
      var prices := Prices(
        PriceOf(body, "original_price_b2b", parseFloat), PriceOf(body, "discount_b2b", parseFloat),
        PriceOf(body, "final_price_b2b", parseFloat), PriceOf(body, "original_price_b2c", parseFloat),
        PriceOf(body, "discount_b2c", parseFloat), PriceOf(body, "final_price_b2c", parseFloat));
      Fields(Product(TextOf(body, "category"), TextOf(body, "brand"), TextOf(body, "product_name"),
                     TextOf(body, "color"), TextOf(body, "size"),
                     prices, Stock(body), Get(body, "image_url")))
  }

  /** The body a client gets by sending a stored row back unchanged. */
  function Resubmitted(body: Json, p: Product): Json
    requires body.JObj?
  {
    JObj(body.fields["category" := JStr(p.category)]["brand" := JStr(p.brand)]
           ["product_name" := JStr(p.productName)]["color" := JStr(p.color)]["size" := JStr(p.size)]
           ["total_count" := JNum(p.totalCount)])
  }

  /** Normalisation is idempotent: sending back the stored text fields and
      count with the same prices and image stores the same row. */
  lemma {:induction false} ResubmitStoresSame(body: Json, parseFloat: string -> Option<real>)
    requires Parse(body, parseFloat).Fields?
    ensures body.JObj?
    ensures Parse(Resubmitted(body, Parse(body, parseFloat).p), parseFloat) == Parse(body, parseFloat)
  {
    var p := Parse(body, parseFloat).p;
    ResubmittedParts(body, p, parseFloat);
  }

  /** Each part of the resubmitted body parses to the stored value. */
  lemma ResubmittedParts(body: Json, p: Product, parseFloat: string -> Option<real>)
    requires Valid(body, parseFloat) && AllText(body) && Normalised(p)
    ensures body.JObj?
    ensures var b := Resubmitted(body, p);
      && Valid(b, parseFloat) && AllText(b)
      && TextOf(b, "category") == p.category && TextOf(b, "brand") == p.brand
      && TextOf(b, "product_name") == p.productName && TextOf(b, "color") == p.color
      && TextOf(b, "size") == p.size && Stock(b) == p.totalCount
      && PriceOf(b, "original_price_b2b", parseFloat) == PriceOf(body, "original_price_b2b", parseFloat)
      && PriceOf(b, "discount_b2b", parseFloat) == PriceOf(body, "discount_b2b", parseFloat)
      && PriceOf(b, "final_price_b2b", parseFloat) == PriceOf(body, "final_price_b2b", parseFloat)
      && PriceOf(b, "original_price_b2c", parseFloat) == PriceOf(body, "original_price_b2c", parseFloat)
      && PriceOf(b, "discount_b2c", parseFloat) == PriceOf(body, "discount_b2c", parseFloat)
      && PriceOf(b, "final_price_b2c", parseFloat) == PriceOf(body, "final_price_b2c", parseFloat)
      && Get(b, "image_url") == Get(body, "image_url")
  {
    assert Get(body, "category").JStr?;
    var b := Resubmitted(body, p);
    SameText(body, p);
    SamePrices(body, p);
    CleanText(b, "category");
    CleanText(b, "brand");
    CleanText(b, "product_name");
    CleanText(b, "color");
    CleanText(b, "size");
    CountOfNumber(p.totalCount);
  }

  /** A clean string field is present and trims to itself. */
  lemma CleanText(b: Json, key: string)
    requires Get(b, key).JStr? && Clean(Get(b, key).s)
    ensures Present(b, key) && TextOf(b, key) == Get(b, key).s
  {
    TrimNoEdgeSpace(Get(b, key).s);
  }

  lemma SameText(body: Json, p: Product)
    requires body.JObj?
    ensures var b := Resubmitted(body, p);
      && Get(b, "category") == JStr(p.category)
      && Get(b, "brand") == JStr(p.brand)
      && Get(b, "product_name") == JStr(p.productName)
      && Get(b, "color") == JStr(p.color)
      && Get(b, "size") == JStr(p.size)
      && Get(b, "total_count") == JNum(p.totalCount)
  {
  }

  /** Overwriting the text fields and the count leaves the prices and the
      image alone. */
  lemma SamePrices(body: Json, p: Product)
    requires body.JObj?
    ensures var b := Resubmitted(body, p);
      && Get(b, "original_price_b2b") == Get(body, "original_price_b2b")
      && Get(b, "discount_b2b") == Get(body, "discount_b2b")
      && Get(b, "final_price_b2b") == Get(body, "final_price_b2b")
      && Get(b, "original_price_b2c") == Get(body, "original_price_b2c")
      && Get(b, "discount_b2c") == Get(body, "discount_b2c")
      && Get(b, "final_price_b2c") == Get(body, "final_price_b2c")
      && Get(b, "image_url") == Get(body, "image_url")
  {
  }

  // ---------------------------------------------------------------------
  // Writes
  // ---------------------------------------------------------------------

  datatype Row = Row(id: int, product: Product)

  datatype Reply =
    | BadRequest        // 400
    | ServerError       // 500
    | NotFound          // 404
    | Created(row: Row)
    | Updated(row: Row)
    | Deleted(row: Row)
    | Found(row: Row)
    | Rows(rows: seq<Row>)

  datatype Outcome = Outcome(reply: Reply, table: map<int, Product>)

  /** `POST /`: `newId` is the id the table's sequence hands out. */
  function Create(table: map<int, Product>, body: Json, parseFloat: string -> Option<real>, newId: int): (o: Outcome)
    ensures o.reply.Created? <==> Parse(body, parseFloat).Fields?
    ensures o.reply.Created? ==>
      o.reply.row == Row(newId, Parse(body, parseFloat).p) && o.table == table[newId := o.reply.row.product]
    ensures o.reply == BadRequest <==> !Valid(body, parseFloat)
    ensures !o.reply.Created? ==> o.table == table && (o.reply == BadRequest || o.reply == ServerError)
  {
    match Parse(body, parseFloat)
    case BadFields => Outcome(BadRequest, table)
    case TrimThrows => Outcome(ServerError, table)
    case Fields(p) => Outcome(Created(Row(newId, p)), table[newId := p])
  }

  /** `PUT /:id`: validation comes first, so an invalid body gets 400 even
      for an id that does not exist. */
  function Update(table: map<int, Product>, id: nat, body: Json, parseFloat: string -> Option<real>): (o: Outcome)
    ensures o.reply.Updated? <==> Parse(body, parseFloat).Fields? && id in table
    ensures o.reply.Updated? ==>
      o.reply.row == Row(id, Parse(body, parseFloat).p) && o.table == table[id := o.reply.row.product]
    ensures o.reply == NotFound <==> Parse(body, parseFloat).Fields? && id !in table
    ensures o.reply == BadRequest <==> !Valid(body, parseFloat)
    ensures !o.reply.Updated? ==> o.table == table
    ensures o.table.Keys == table.Keys
  {
    match Parse(body, parseFloat)
    case BadFields => Outcome(BadRequest, table)
    case TrimThrows => Outcome(ServerError, table)
    case Fields(p) =>
      if id !in table then Outcome(NotFound, table)
      else Outcome(Updated(Row(id, p)), table[id := p])
  }

  /** `DELETE /:id`: the deleted row is returned. */
  function Delete(table: map<int, Product>, id: nat): (o: Outcome)
    ensures o.reply == NotFound <==> id !in table
    ensures id in table ==> o.reply == Deleted(Row(id, table[id]))
    ensures id !in o.table && o.table.Keys == table.Keys - {id}
    ensures forall k :: k in o.table ==> o.table[k] == table[k]
  {
    if id !in table then Outcome(NotFound, table)
    else Outcome(Deleted(Row(id, table[id])), table - {id})
  }

  /** `GET /:id`. */
  function Fetch(table: map<int, Product>, id: nat): (r: Reply)
    ensures r == NotFound <==> id !in table
    ensures id in table ==> r == Found(Row(id, table[id]))
  {
    if id in table then Found(Row(id, table[id])) else NotFound
  }

  /** Updating twice with the same body is the same as updating once. */
  lemma UpdateIdempotent(table: map<int, Product>, id: nat, body: Json, parseFloat: string -> Option<real>)
    ensures var once := Update(table, id, body, parseFloat);
      Update(once.table, id, body, parseFloat) == once
  {
  }

  /** After an update, a read of the id returns the new row. */
  lemma UpdateThenFetch(table: map<int, Product>, id: nat, body: Json, parseFloat: string -> Option<real>)
    requires Update(table, id, body, parseFloat).reply.Updated?
    ensures Fetch(Update(table, id, body, parseFloat).table, id) == Found(Update(table, id, body, parseFloat).reply.row)
  {
  }

  /** A second delete of the same id answers 404 and changes nothing. */
  lemma DeleteTwice(table: map<int, Product>, id: nat)
    ensures var once := Delete(table, id);
      Delete(once.table, id) == Outcome(NotFound, once.table)
  {
  }

  /** Deleting a freshly created row restores the table. */
  lemma CreateThenDelete(table: map<int, Product>, body: Json, parseFloat: string -> Option<real>, newId: nat)
    requires newId !in table
    requires Create(table, body, parseFloat, newId).reply.Created?
    ensures Delete(Create(table, body, parseFloat, newId).table, newId).table == table
  {
    var p := Parse(body, parseFloat).p;
    assert Create(table, body, parseFloat, newId).table == table[newId := p];
    RemoveFresh(table, newId, p);
  }

  lemma RemoveFresh(table: map<int, Product>, k: int, p: Product)
    requires k !in table
    ensures table[k := p] - {k} == table
  {
    assert (table[k := p] - {k}).Keys == table.Keys;
  }

  // ---------------------------------------------------------------------
  // Listings
  // ---------------------------------------------------------------------

  predicate Ascending(ks: seq<int>) {
    forall i, j :: 0 <= i < j < |ks| ==> ks[i] < ks[j]
  }

  /** The rows of the keys `ks` (ascending) that `keep` accepts, newest
      first. */
  function Select(table: map<int, Product>, ks: seq<int>, keep: Product -> bool): (r: seq<Row>)
    requires Ascending(ks)
    ensures forall row :: row in r <==>
      row.id in ks && row.id in table && table[row.id] == row.product && keep(row.product)
    ensures forall i, j :: 0 <= i < j < |r| ==> r[i].id > r[j].id
  {
    if ks == [] then []
    else
      var rest := Select(table, ks[1..], keep);
      assert forall i :: 0 <= i < |rest| ==> rest[i] in rest && rest[i].id in ks[1..];
      var here := if ks[0] in table && keep(table[ks[0]]) then [Row(ks[0], table[ks[0]])] else [];
      rest + here
  }

  /** `SELECT * FROM tarasproducts WHERE ... ORDER BY id DESC`. */
  ghost function Listing(table: map<int, Product>, keep: Product -> bool): (r: seq<Row>)
    ensures forall row :: row in r <==> row.id in table && table[row.id] == row.product && keep(row.product)
    ensures forall i, j :: 0 <= i < j < |r| ==> r[i].id > r[j].id
  {
    Select(table, SortedKeys(table.Keys), keep)
  }

  /** Rows in strictly descending id order, as `ORDER BY id DESC` returns
      them from a table keyed by id. */
  predicate NewestFirst(rows: seq<Row>) {
    forall i, j :: 0 <= i < j < |rows| ==> rows[i].id > rows[j].id
  }

  /** `GET /`: by category when the `category` query parameter is truthy,
      else everything. */
  ghost function ListAll(table: map<int, Product>, query: Json): (r: Reply)
    ensures r.Rows? && NewestFirst(r.rows)
    ensures !Truthy(Get(query, "category")) ==>
      forall row :: row in r.rows <==> row.id in table && table[row.id] == row.product
    ensures Truthy(Get(query, "category")) ==>
      forall row :: row in r.rows <==> row.id in table && table[row.id] == row.product
                                       && row.product.category == ToStr(Get(query, "category"))
  {
    var category := Get(query, "category");
    if Truthy(category) then Rows(Listing(table, (p: Product) => p.category == ToStr(category)))
    else Rows(Listing(table, (p: Product) => true))
  }

  /** `GET /category/:category`. */
  ghost function ByCategory(table: map<int, Product>, category: string): (r: Reply)
    ensures r.Rows? && NewestFirst(r.rows)
    ensures forall row :: row in r.rows <==> row.id in table && table[row.id] == row.product
                                             && row.product.category == category
  {
    Rows(Listing(table, (p: Product) => p.category == category))
  }

  /** `req.query.q || req.query.query`, trimmed; `None` for 400. */
  function SearchText(query: Json): (r: Option<string>)
    ensures var q := Or(Get(query, "q"), Get(query, "query"));
      r.Some? <==> Truthy(q) && Trim(ToStr(q)) != ""
    ensures r.Some? ==> Clean(r.value)
  {
    var q := Or(Get(query, "q"), Get(query, "query"));
    if !Truthy(q) || Trim(ToStr(q)) == "" then None
    else
      TrimFacts(ToStr(q));
      Some(Trim(ToStr(q)))
  }

  /** The ILIKE pattern `%text%`. */
  function Pattern(text: string): (r: string)
    ensures |r| == |text| + 2 && r[0] == '%' && r[|r| - 1] == '%' && r[1..|r| - 1] == text
  {
    "%" + text + "%"
  }

  /** `TRIM(column) ILIKE '%text%'`: the text occurs in the column, ignoring
      case. */
  predicate ILikeInfix(column: string, text: string) {
    Contains(ToLower(Trim(column)), ToLower(text))
  }

  predicate SearchHit(p: Product, text: string) {
    ILikeInfix(p.productName, text) || ILikeInfix(p.category, text)
    || ILikeInfix(p.brand, text) || ILikeInfix(p.color, text)
  }

  /** `GET /search`. */
  ghost function Search(table: map<int, Product>, query: Json): (r: Reply)
    ensures r == BadRequest <==> SearchText(query).None?
    ensures r.Rows? ==> NewestFirst(r.rows)
    ensures r.Rows? ==>
      forall row :: row in r.rows <==> row.id in table && table[row.id] == row.product
                                       && SearchHit(row.product, SearchText(query).value)
  {
    var text := SearchText(query);
    if text.None? then BadRequest
    else Rows(Listing(table, (p: Product) => SearchHit(p, text.value)))
  }

  /** A product whose stored name contains the query text, in any case, is
      found by the search. */
  lemma SearchFindsName(table: map<int, Product>, id: int, text: string)
    requires id in table && Clean(text)
    requires Contains(ToLower(table[id].productName), ToLower(text))
    requires Normalised(table[id])
    ensures Search(table, JObj(map["q" := JStr(text)])) == Rows(Listing(table, (p: Product) => SearchHit(p, text)))
    ensures Row(id, table[id]) in Search(table, JObj(map["q" := JStr(text)])).rows
  {
    QueryText(text);
    NameHit(table[id], text);
  }

  /** `?q=text` with text that has no edge spaces searches for exactly it. */
  lemma QueryText(text: string)
    requires Clean(text)
    ensures SearchText(JObj(map["q" := JStr(text)])) == Some(text)
  {
    var query := JObj(map["q" := JStr(text)]);
    assert Get(query, "q") == JStr(text);
    TrimNoEdgeSpace(text);
  }

  lemma NameHit(p: Product, text: string)
    requires Clean(p.productName)
    requires Contains(ToLower(p.productName), ToLower(text))
    ensures SearchHit(p, text)
  {
    TrimNoEdgeSpace(p.productName);
  }
}
