/** The web-order routes (routes/salesRoutes.js): `POST /web/place` computes
    the order totals from the cart lines, inserts the sale and one row per
    line inside one transaction, and `GET /web/by-user` lists a customer's web
    sales with their lines attached. Money is in whole units of the smallest
    currency unit; `None` stands for NaN, which JavaScript arithmetic
    propagates. */
module SalesRoutes {
  import opened Common
  import opened Js
  import Routes = ShiprocketRoutes

  // ---------------------------------------------------------------------
  // Arithmetic on numbers that may be NaN
  // ---------------------------------------------------------------------

  function Plus(a: Option<int>, b: Option<int>): Option<int> {
    if a.Some? && b.Some? then Some(a.value + b.value) else None
  }

  function Minus(a: Option<int>, b: Option<int>): Option<int> {
    if a.Some? && b.Some? then Some(a.value - b.value) else None
  }

  function Times(a: Option<int>, b: Option<int>): Option<int> {
    if a.Some? && b.Some? then Some(a.value * b.value) else None
  }

  /** `Math.max(x, 0)`, NaN staying NaN. */
  function MaxZero(a: Option<int>): Option<int> {
    if a.Some? then Some(if a.value > 0 then a.value else 0) else None
  }

  /** `Math.floor(x / 100)`: the divisor is positive, so Dafny's division
      already rounds down. */
  function FloorPercent(x: Option<int>): (r: Option<int>)
    ensures r.Some? <==> x.Some?
    ensures r.Some? ==> 100 * r.value <= x.value < 100 * r.value + 100
  {
    if x.Some? then Some(x.value / 100) else None
  }

  // ---------------------------------------------------------------------
  // Line and order totals
  // ---------------------------------------------------------------------

  /** `Number(it?.mrp ?? it?.price ?? 0)`. */
  function Mrp(it: Json): Option<int> {
    NumberOf(Coalesce(Coalesce(Get(it, "mrp"), Get(it, "price")), JNum(0)))
  }

  /** `Number(it?.price ?? 0)`. */
  function Price(it: Json): Option<int> {
    NumberOf(Coalesce(Get(it, "price"), JNum(0)))
  }

  /** `Number(it?.qty ?? 1)`. */
  function Qty(it: Json): Option<int> {
    NumberOf(Coalesce(Get(it, "qty"), JNum(1)))
  }

  /** The line's contribution to the bag total: `mrp * qty`. */
  function LineBag(it: Json): Option<int> {
    Times(Mrp(it), Qty(it))
  }

  /** The line's discount: `Math.max(mrp - price, 0) * qty`. */
  function LineDiscount(it: Json): Option<int> {
    Times(MaxZero(Minus(Mrp(it), Price(it))), Qty(it))
  }

  /** The bag total the loop accumulates over `items`. */
  function BagTotal(items: seq<Json>): Option<int> {
    if items == [] then Some(0)
    else Plus(BagTotal(items[..|items| - 1]), LineBag(items[|items| - 1]))
  }

  /** The discount total the loop accumulates over `items`. */
  function DiscountTotal(items: seq<Json>): Option<int> {
    if items == [] then Some(0)
    else Plus(DiscountTotal(items[..|items| - 1]), LineDiscount(items[|items| - 1]))
  }

  /** Every line's mrp, price and quantity are numbers. */
  predicate AllNumeric(items: seq<Json>) {
    forall i :: 0 <= i < |items| ==> Mrp(items[i]).Some? && Price(items[i]).Some? && Qty(items[i]).Some?
  }

  /** What the customer pays per line before coupons: `min(mrp, price) * qty`. */
  function LineNet(it: Json): int
    requires Mrp(it).Some? && Price(it).Some? && Qty(it).Some?
  {
    var m := Mrp(it).value;
    var p := Price(it).value;
    (if m < p then m else p) * Qty(it).value
  }

  /** Σ min(mrp, price) × qty. */
  function NetTotal(items: seq<Json>): int
    requires AllNumeric(items)
  {
    if items == [] then 0
    else NetTotal(items[..|items| - 1]) + LineNet(items[|items| - 1])
  }

  /** With numeric lines both totals are numbers, and the bag total (on mrp)
      minus the discount total is what the lines cost at the lower of mrp and
      price. */
  lemma {:induction false} BagMinusDiscountIsNet(items: seq<Json>)
    requires AllNumeric(items)
    ensures BagTotal(items).Some? && DiscountTotal(items).Some?
    ensures BagTotal(items).value - DiscountTotal(items).value == NetTotal(items)
  {
    if items != [] {
      var init := items[..|items| - 1];
      assert AllNumeric(init) by {
        forall i | 0 <= i < |init| ensures Mrp(init[i]).Some? && Price(init[i]).Some? && Qty(init[i]).Some? {
          assert init[i] == items[i];
        }
      }
      BagMinusDiscountIsNet(init);
      var it := items[|items| - 1];
      assert Mrp(it).Some? && Price(it).Some? && Qty(it).Some?;
      LineBagMinusDiscount(it);
    }
  }

  /** One line: `mrp * qty - max(mrp - price, 0) * qty == min(mrp, price) * qty`. */
  lemma LineBagMinusDiscount(it: Json)
    requires Mrp(it).Some? && Price(it).Some? && Qty(it).Some?
    ensures LineBag(it).Some? && LineDiscount(it).Some?
    ensures LineBag(it).value - LineDiscount(it).value == LineNet(it)
  {
    OptionNet(Mrp(it), Price(it), Qty(it));
  }

  /** The same identity on the three numbers, whatever line they come from. */
  lemma OptionNet(m: Option<int>, p: Option<int>, q: Option<int>)
    requires m.Some? && p.Some? && q.Some?
    ensures Times(m, q).Some? && Times(MaxZero(Minus(m, p)), q).Some?
    ensures Times(m, q).value - Times(MaxZero(Minus(m, p)), q).value
      == (if m.value < p.value then m.value else p.value) * q.value
  {
    MinTimes(m.value, p.value, q.value);
  }

  lemma MinTimes(m: int, p: int, q: int)
    ensures m * q - (if m - p > 0 then m - p else 0) * q == (if m < p then m else p) * q
  {
    if m - p > 0 {
      SubtractProducts(m, m - p, q);
    }
  }

  lemma SubtractProducts(a: int, b: int, c: int)
    ensures a * c - b * c == (a - b) * c
  {
  }

  /** One line whose quantity is not a number makes the bag total NaN. */
  lemma {:induction false} NonNumericQtyPoisonsBag(items: seq<Json>, k: int)
    requires 0 <= k < |items| && Qty(items[k]).None?
    ensures BagTotal(items).None?
  {
    if k < |items| - 1 {
      NonNumericQtyPoisonsBag(items[..|items| - 1], k);
    }
  }

  /** The totals loop of `POST /web/place`. */
  method ComputeTotals(items: seq<Json>) returns (bagTotal: Option<int>, discountTotal: Option<int>)
    ensures bagTotal == BagTotal(items)
    ensures discountTotal == DiscountTotal(items)
  {
    bagTotal := Some(0);
    discountTotal := Some(0);
    for i := 0 to |items|
      invariant bagTotal == BagTotal(items[..i])
      invariant discountTotal == DiscountTotal(items[..i])
    {
      var it := items[i];
      var mrp := Mrp(it);
      var price := Price(it);
      var qty := Qty(it);
      assert items[..i + 1][..i] == items[..i];
      bagTotal := Plus(bagTotal, Times(mrp, qty));
      discountTotal := Plus(discountTotal, Times(MaxZero(Minus(mrp, price)), qty));
    }
    assert items[..|items|] == items;
  }

  /** The totals returned to the client and stored when it sent none. */
  datatype Breakdown = Breakdown(
    bagTotal: Option<int>, discountTotal: Option<int>, couponPct: Option<int>,
    couponDiscount: Option<int>, convenience: Option<int>, giftWrap: Option<int>, payable: Option<int>)

  /** `Math.floor((bagTotal - discountTotal) * couponPct / 100)`. */
  function CouponDiscount(bagTotal: Option<int>, discountTotal: Option<int>, couponPct: Option<int>): (r: Option<int>)
    ensures r.Some? <==> bagTotal.Some? && discountTotal.Some? && couponPct.Some?
  {
    FloorPercent(Times(Minus(bagTotal, discountTotal), couponPct))
  }

  /** The breakdown computed from the accumulated totals and the client's
      `totals` object (coupon percentage, convenience fee, gift wrap;
      missing fields count as 0). */
  function BreakdownOf(bagTotal: Option<int>, discountTotal: Option<int>, totals: Json): Breakdown {
    var couponPct := NumberOf(Coalesce(Get(totals, "couponPct"), JNum(0)));
    var coupon := CouponDiscount(bagTotal, discountTotal, couponPct);
    var convenience := NumberOf(Coalesce(Get(totals, "convenience"), JNum(0)));
    var giftWrap := NumberOf(Coalesce(Get(totals, "giftWrap"), JNum(0)));
    Breakdown(bagTotal, discountTotal, couponPct, coupon, convenience, giftWrap,
      Plus(Plus(Minus(Minus(bagTotal, discountTotal), coupon), convenience), giftWrap))
  }

  /** Without any extra fields, the payable amount is the net line total. */
  lemma PayableWithoutExtras(items: seq<Json>)
    requires AllNumeric(items)
    ensures BreakdownOf(BagTotal(items), DiscountTotal(items), JObj(map[])).payable == Some(NetTotal(items))
  {
    BagMinusDiscountIsNet(items);
  }

  /** A coupon between 0 and 100 percent on a non-negative net amount takes
      off between nothing and all of it, rounded down in the shop's favour. */
  lemma CouponWithinNet(bagTotal: int, discountTotal: int, pct: int)
    requires bagTotal - discountTotal >= 0 && 0 <= pct <= 100
    ensures var c := CouponDiscount(Some(bagTotal), Some(discountTotal), Some(pct)).value;
      0 <= c <= bagTotal - discountTotal
      && 100 * c <= (bagTotal - discountTotal) * pct
  {
    var net := bagTotal - discountTotal;
    var c := CouponDiscount(Some(bagTotal), Some(discountTotal), Some(pct)).value;
    assert 100 * c <= net * pct < 100 * c + 100;
    assert net * pct <= net * 100;
  }

  // ---------------------------------------------------------------------
  // Placing an order
  // ---------------------------------------------------------------------

  /** The `totals` column: the client's own object verbatim when it sent
      one, else the computed breakdown. */
  datatype StoredTotals = ClientTotals(given: Json) | ComputedTotals(breakdown: Breakdown)

  /** A `sales` row written by the web checkout. `userId` is `None` when
      the table has no `user_id` column. */
  datatype SaleRow = SaleRow(
    source: string, userId: Option<Json>, customerEmail: Json, customerName: Json,
    customerMobile: Json, shippingAddress: Json, status: string, paymentStatus: Json,
    totals: StoredTotals, branchId: Json, total: Option<int>)

  /** A `sale_items` row. Numeric columns hold `Number(...)` results. */
  datatype SaleItemRow = SaleItemRow(
    saleId: Json, variantId: Json, qty: Json, price: Json, mrp: Json,
    size: Json, colour: Json, imageUrl: Json, eanCode: Json)

  /** The answers of `POST /web/place`. */
  datatype PlaceReply =
    | ItemsRequired                         // 400 'items required'
    | ServerError                           // 500 after ROLLBACK
    | Placed(id: Json, totals: Breakdown)   // status 'PLACED'

  /** `req.body.items` when it is a non-empty array. */
  function ItemsOf(body: Json): Option<seq<Json>> {
    var items := Get(Or(body, JObj(map[])), "items");
    if items.JArr? && items.elems != [] then Some(items.elems) else None
  }

  /** The sale row inserted for `body`. `userIdColumn` says whether the table
      has a `user_id` column and `foundUserId` is the id of the user whose
      e-mail matches `login_email` (null when none does). */
  function SaleRowOf(body: Json, bd: Breakdown, userIdColumn: bool, foundUserId: Json): SaleRow {
    var b := Or(body, JObj(map[]));
    var loginEmail := Get(b, "login_email");
    var totals := Get(b, "totals");
    SaleRow(
      "WEB",
      if userIdColumn then Some(if Truthy(loginEmail) then foundUserId else JNull) else None,
      Or(Or(loginEmail, Get(b, "customer_email")), JNull),
      Or(Get(b, "customer_name"), JNull),
      Or(Get(b, "customer_mobile"), JNull),
      if Truthy(Get(b, "shipping_address")) then Get(b, "shipping_address") else JNull,
      "PLACED",
      Or(Get(b, "payment_status"), JStr("COD")),
      if Truthy(totals) then ClientTotals(totals) else ComputedTotals(bd),
      Or(Get(b, "branch_id"), JNull),
      bd.payable)
  }

  /** The `sale_items` row written for line `it` of sale `saleId`. */
  function ItemRowOf(saleId: Json, it: Json): SaleItemRow {
    SaleItemRow(
      saleId,
      ToNumber(Coalesce(Get(it, "variant_id"), Get(it, "product_id"))),
      ToNumber(Coalesce(Get(it, "qty"), JNum(1))),
      ToNumber(Coalesce(Get(it, "price"), JNum(0))),
      if !Nullish(Get(it, "mrp")) then ToNumber(Get(it, "mrp")) else JNull,
      Coalesce(Coalesce(Get(it, "size"), Get(it, "selected_size")), JNull),
      Coalesce(Coalesce(Coalesce(Get(it, "colour"), Get(it, "color")), Get(it, "selected_color")), JNull),
      Coalesce(Get(it, "image_url"), JNull),
      Coalesce(Coalesce(Get(it, "ean_code"), Get(it, "barcode_value")), JNull))
  }

  /** The rows written for all lines, in line order. */
  function ItemRows(saleId: Json, items: seq<Json>): (rows: seq<SaleItemRow>)
    ensures |rows| == |items|
    ensures forall i :: 0 <= i < |items| ==> rows[i] == ItemRowOf(saleId, items[i])
  {
    if items == [] then []
    else
      var prev := ItemRows(saleId, items[..|items| - 1]);
      assert forall i :: 0 <= i < |items| - 1 ==> items[..|items| - 1][i] == items[i];
      prev + [ItemRowOf(saleId, items[|items| - 1])]
  }
  /** The rows of the first `i` lines have been appended to `before`. */
  predicate InsertedSoFar(before: seq<SaleItemRow>, saleId: Json, items: seq<Json>, i: nat, now: seq<SaleItemRow>) {
    i <= |items| && now == before + ItemRows(saleId, items[..i])
  }

  lemma ItemRowsStep(before: seq<SaleItemRow>, saleId: Json, items: seq<Json>, i: nat, now: seq<SaleItemRow>)
    requires i < |items| && InsertedSoFar(before, saleId, items, i, now)
    ensures InsertedSoFar(before, saleId, items, i + 1, now + [ItemRowOf(saleId, items[i])])
  {
    assert items[..i + 1][..i] == items[..i];
  }

  lemma ItemRowsAll(before: seq<SaleItemRow>, saleId: Json, items: seq<Json>, now: seq<SaleItemRow>)
    requires InsertedSoFar(before, saleId, items, |items|, now)
    ensures now == before + ItemRows(saleId, items)
  {
    assert items[..|items|] == items;
  }

  /** Each line row keeps the line's own sale, variant (or product) and
      quantity, a missing quantity being 1. */
  lemma ItemRowDefaults(saleId: Json, it: Json)
    ensures ItemRowOf(saleId, it).saleId == saleId
    ensures Nullish(Get(it, "qty")) ==> ItemRowOf(saleId, it).qty == JNum(1)
    ensures Nullish(Get(it, "variant_id")) && Get(it, "product_id").JNum? ==>
      ItemRowOf(saleId, it).variantId == Get(it, "product_id")
    ensures !Nullish(Get(it, "variant_id")) ==> ItemRowOf(saleId, it).variantId == ToNumber(Get(it, "variant_id"))
  {
  }

  /** The sale row's fixed values and fallbacks: a web source, status
      PLACED, the login e-mail before the customer e-mail, the client's own
      totals when it sent any, and always the server's payable amount. */
  lemma SaleRowDefaults(body: Json, bd: Breakdown, userIdColumn: bool, foundUserId: Json)
    ensures var row := SaleRowOf(body, bd, userIdColumn, foundUserId);
      && row.source == "WEB" && row.status == "PLACED" && row.total == bd.payable
    ensures var b := Or(body, JObj(map[]));
      var row := SaleRowOf(body, bd, userIdColumn, foundUserId);
      && (Truthy(Get(b, "login_email")) ==> row.customerEmail == Get(b, "login_email"))
      && (!Truthy(Get(b, "login_email")) && Truthy(Get(b, "customer_email")) ==>
            row.customerEmail == Get(b, "customer_email"))
      && (Truthy(Get(b, "totals")) ==> row.totals == ClientTotals(Get(b, "totals")))
      && (!Truthy(Get(b, "totals")) ==> row.totals == ComputedTotals(bd))
      && (Truthy(Get(b, "payment_status")) ==> row.paymentStatus == Get(b, "payment_status"))
      && (userIdColumn <==> row.userId.Some?)
  {
  }

  /** The sale row of a checkout with no payment status is cash on delivery
      for the courier routes too. */
  lemma DefaultPaymentIsCod(body: Json, bd: Breakdown, userIdColumn: bool, foundUserId: Json)
    requires !Truthy(Get(Or(body, JObj(map[])), "payment_status"))
    ensures SaleRowOf(body, bd, userIdColumn, foundUserId).paymentStatus == JStr("COD")
    ensures Routes.PickCod(JObj(map["payment_status" := SaleRowOf(body, bd, userIdColumn, foundUserId).paymentStatus]))
  {
    var row := JObj(map["payment_status" := JStr("COD")]);
    assert Get(row, "payment_status") == JStr("COD");
    TrimNoEdgeSpace("COD");
    assert Routes.AsUpper(JStr("COD")) == ToUpper("COD");
    assert ToUpper("COD") == "COD";
  }

  /** The sales tables as the checkout sees them. */
  class SalesStore {
    var sales: seq<SaleRow>
    var saleItems: seq<SaleItemRow>

    constructor (sales: seq<SaleRow>, saleItems: seq<SaleItemRow>)
      ensures this.sales == sales && this.saleItems == saleItems
    {
      this.sales := sales;
      this.saleItems := saleItems;
    }

    /** `POST /web/place`. `failAt` names the insert that throws, if any:
        0 for the sale row, k for the k-th line row. The sale id is
        `newId`. */
    method Place(body: Json, userIdColumn: bool, foundUserId: Json, newId: Json, failAt: Option<nat>)
      returns (reply: PlaceReply)
      modifies this
      ensures ItemsOf(body).None? ==> reply == ItemsRequired && sales == old(sales) && saleItems == old(saleItems)
      ensures ItemsOf(body).Some? && failAt.Some? && failAt.value <= |ItemsOf(body).value| ==>
        reply == ServerError && sales == old(sales) && saleItems == old(saleItems)
      ensures ItemsOf(body).Some? && (failAt.None? || failAt.value > |ItemsOf(body).value|) ==>
        var items := ItemsOf(body).value;
        var bd := BreakdownOf(BagTotal(items), DiscountTotal(items), Get(Or(body, JObj(map[])), "totals"));
        && reply == Placed(newId, bd)
        && sales == old(sales) + [SaleRowOf(body, bd, userIdColumn, foundUserId)]
        && saleItems == old(saleItems) + ItemRows(newId, items)
    {
      var maybeItems := ItemsOf(body);
      if maybeItems.None? {
        return ItemsRequired;
      }
      var items := maybeItems.value;
      // BEGIN
      var salesBefore, itemsBefore := sales, saleItems;
      var bagTotal, discountTotal := ComputeTotals(items);
      var bd := BreakdownOf(bagTotal, discountTotal, Get(Or(body, JObj(map[])), "totals"));
      if failAt == Some(0) {
        sales, saleItems := salesBefore, itemsBefore;  // ROLLBACK
        return ServerError;
      }
      sales := sales + [SaleRowOf(body, bd, userIdColumn, foundUserId)];
      var failed := InsertLines(newId, items, failAt);
      if failed {
        sales, saleItems := salesBefore, itemsBefore;  // ROLLBACK
        return ServerError;
      }
      // COMMIT
      reply := Placed(newId, bd);
    }

    /** The line-insert loop; `failAt == Some(k)` makes the k-th insert
        throw, leaving the rows written before it. */
    method InsertLines(saleId: Json, items: seq<Json>, failAt: Option<nat>) returns (failed: bool)
      modifies this`saleItems
      ensures failed <==> failAt.Some? && 1 <= failAt.value <= |items|
      ensures !failed ==> saleItems == old(saleItems) + ItemRows(saleId, items)
    {
      ghost var before := saleItems;
      for i := 0 to |items|
        invariant InsertedSoFar(before, saleId, items, i, saleItems)
        invariant failAt.Some? && 1 <= failAt.value <= |items| ==> failAt.value > i
      {
        if failAt == Some(i + 1) {
          return true;
        }
        ItemRowsStep(before, saleId, items, i, saleItems);
        saleItems := saleItems + [ItemRowOf(saleId, items[i])];
      }
      ItemRowsAll(before, saleId, items, saleItems);
      failed := false;
    }
  }

  // ---------------------------------------------------------------------
  // Listing a customer's web sales
  // ---------------------------------------------------------------------

  /** `String(s.id)`, the key of a sale in the `bySale` map. */
  function SaleKey(s: Json): string {
    ToStr(Get(s, "id"))
  }

  /** `String(it.sale_id)`, the key a line is filed under. */
  function LineKey(it: Json): string {
    ToStr(Get(it, "sale_id"))
  }

  /** A sale record of the listing: the sale row with its lines. */
  datatype SaleWithItems = SaleWithItems(sale: Json, items: seq<Json>)

  /** The lines filed under key `k`, in the order the query returned them. */
  function LinesFor(lines: seq<Json>, k: string): (r: seq<Json>)
    ensures |r| <= |lines|
    ensures forall x :: x in r ==> x in lines && LineKey(x) == k
  {
    if lines == [] then []
    else
      var prev := LinesFor(lines[..|lines| - 1], k);
      var it := lines[|lines| - 1];
      if LineKey(it) == k then prev + [it] else prev
  }

  /** Some listed sale has key `k`. */
  predicate HasKey(sales: seq<Json>, k: string) {
    exists i :: 0 <= i < |sales| && SaleKey(sales[i]) == k
  }

  /** A key of a prefix is a key of the whole, and the keys of `sales` are
      those of all but its last sale together with the last one's. */
  lemma HasKeyInit(sales: seq<Json>, k: string)
    requires sales != []
    ensures HasKey(sales, k) <==> HasKey(sales[..|sales| - 1], k) || SaleKey(sales[|sales| - 1]) == k
  {
    var init := sales[..|sales| - 1];
    if HasKey(sales, k) && SaleKey(sales[|sales| - 1]) != k {
      var i :| 0 <= i < |sales| && SaleKey(sales[i]) == k;
      assert init[i] == sales[i];
    }
    if HasKey(init, k) {
      var i :| 0 <= i < |init| && SaleKey(init[i]) == k;
      assert init[i] == sales[i];
    }
  }

  /** The sale keys in first-occurrence order (the insertion order of a
      JavaScript `Map`). */
  function KeysInOrder(sales: seq<Json>): (ks: seq<string>)
    ensures forall k :: k in ks <==> HasKey(sales, k)
    ensures forall i, j :: 0 <= i < j < |ks| ==> ks[i] != ks[j]
  {
    if sales == [] then []
    else
      var prev := KeysInOrder(sales[..|sales| - 1]);
      var k := SaleKey(sales[|sales| - 1]);
      assert forall k' :: HasKey(sales, k') <==> HasKey(sales[..|sales| - 1], k') || k == k' by {
        forall k' ensures HasKey(sales, k') <==> HasKey(sales[..|sales| - 1], k') || k == k' {
          HasKeyInit(sales, k');
        }
      }
      if k in prev then prev else prev + [k]
  }

  /** The row a key maps to: `Map.set` on an existing key replaces the value,
      so the last sale with that key. */
  function LastSaleWith(sales: seq<Json>, k: string): (s: Json)
    requires HasKey(sales, k)
    ensures s in sales && SaleKey(s) == k
  {
    HasKeyInit(sales, k);
    if SaleKey(sales[|sales| - 1]) == k then sales[|sales| - 1]
    else LastSaleWith(sales[..|sales| - 1], k)
  }

  /** What `GET /web/by-user` returns for the listed sales and their lines. */
  function Listing(sales: seq<Json>, lines: seq<Json>): seq<SaleWithItems> {
    var ks := KeysInOrder(sales);
    seq(|ks|, i requires 0 <= i < |ks| => SaleWithItems(LastSaleWith(sales, ks[i]), LinesFor(lines, ks[i])))
  }

  /** The first loop of the `bySale` grouping: one record per sale key, in
      insertion order, each with no lines yet. */
  method FileSales(sales: seq<Json>) returns (keys: seq<string>, bySale: map<string, SaleWithItems>)
    ensures keys == KeysInOrder(sales)
    ensures forall k :: k in bySale <==> k in keys
    ensures forall k :: k in bySale ==> bySale[k] == SaleWithItems(LastSaleWith(sales, k), [])
  {
    keys := [];
    bySale := map[];
    for i := 0 to |sales|
      invariant keys == KeysInOrder(sales[..i])
      invariant forall k :: k in bySale <==> k in keys
      invariant forall k :: k in bySale ==> bySale[k] == SaleWithItems(LastSaleWith(sales[..i], k), [])
    {
      assert sales[..i + 1][..i] == sales[..i];
      var k := SaleKey(sales[i]);
      if k !in bySale {
        keys := keys + [k];
      }
      bySale := bySale[k := SaleWithItems(sales[i], [])];
    }
    assert sales[..|sales|] == sales;
  }

  /** The second loop: each line is pushed onto the record of its sale, if
      that sale is listed. */
  method AttachLines(sales: seq<Json>, keys: seq<string>, filed: map<string, SaleWithItems>, lines: seq<Json>)
    returns (bySale: map<string, SaleWithItems>)
    requires keys == KeysInOrder(sales)
    requires forall k :: k in filed <==> k in keys
    requires forall k :: k in filed ==> k in keys && filed[k] == SaleWithItems(LastSaleWith(sales, k), [])
    ensures forall k :: k in bySale <==> k in keys
    ensures forall k :: k in bySale ==> k in keys && bySale[k] == SaleWithItems(LastSaleWith(sales, k), LinesFor(lines, k))
  {
    bySale := filed;
    for j := 0 to |lines|
      invariant forall k :: k in bySale <==> k in keys
      invariant forall k :: k in bySale ==> k in keys && bySale[k] == SaleWithItems(LastSaleWith(sales, k), LinesFor(lines[..j], k))
    {
      assert lines[..j + 1][..j] == lines[..j];
      var k := LineKey(lines[j]);
      if k in bySale {
        var rec := bySale[k];
        bySale := bySale[k := rec.(items := rec.items + [lines[j]])];
      }
    }
    assert lines[..|lines|] == lines;
  }

  /** The `bySale` grouping, read back in insertion order. */
  method GroupBySale(sales: seq<Json>, lines: seq<Json>) returns (out: seq<SaleWithItems>)
    ensures out == Listing(sales, lines)
  {
    var keys, filed := FileSales(sales);
    var bySale := AttachLines(sales, keys, filed, lines);
    out := seq(|keys|, i requires 0 <= i < |keys| => bySale[keys[i]]);
  }

  /** Every line whose sale is listed is attached to that sale's record. */
  lemma {:induction false} LineReachesItsSale(lines: seq<Json>, j: int)
    requires 0 <= j < |lines|
    ensures lines[j] in LinesFor(lines, LineKey(lines[j]))
  {
    if j < |lines| - 1 {
      LineReachesItsSale(lines[..|lines| - 1], j);
    }
  }

  /** A line whose sale is not listed appears in no record. */
  lemma LineOfUnlistedSaleIsDropped(sales: seq<Json>, lines: seq<Json>, x: Json)
    requires forall i :: 0 <= i < |sales| ==> SaleKey(sales[i]) != LineKey(x)
    ensures forall r :: r in Listing(sales, lines) ==> x !in r.items
  {
    var ks := KeysInOrder(sales);
    forall r | r in Listing(sales, lines)
      ensures x !in r.items
    {
      var i :| 0 <= i < |ks| && Listing(sales, lines)[i] == r;
      assert r.items == LinesFor(lines, ks[i]);
      assert ks[i] != LineKey(x);
    }
  }

  /** When the sale keys are distinct (sale ids are a primary key) the
      listing keeps the sales in the order the query returned them. */
  lemma {:induction false} ListingKeepsSaleOrder(sales: seq<Json>, lines: seq<Json>)
    requires forall i, j :: 0 <= i < j < |sales| ==> SaleKey(sales[i]) != SaleKey(sales[j])
    ensures |Listing(sales, lines)| == |sales|
    ensures forall i :: 0 <= i < |sales| ==> Listing(sales, lines)[i].sale == sales[i]
  {
    DistinctKeysInOrder(sales);
    forall i | 0 <= i < |sales|
      ensures LastSaleWith(sales, SaleKey(sales[i])) == sales[i]
    {
      var s := LastSaleWith(sales, SaleKey(sales[i]));
      var m :| 0 <= m < |sales| && sales[m] == s;
      assert SaleKey(sales[m]) == SaleKey(sales[i]);
      assert m == i;
    }
  }

  lemma {:induction false} DistinctKeysInOrder(sales: seq<Json>)
    requires forall i, j :: 0 <= i < j < |sales| ==> SaleKey(sales[i]) != SaleKey(sales[j])
    ensures |KeysInOrder(sales)| == |sales|
    ensures forall i :: 0 <= i < |sales| ==> KeysInOrder(sales)[i] == SaleKey(sales[i])
  {
    if sales != [] {
      var init := sales[..|sales| - 1];
      DistinctKeysInOrder(init);
      var k := SaleKey(sales[|sales| - 1]);
      forall i | 0 <= i < |init|
        ensures SaleKey(init[i]) != k
      {
        assert init[i] == sales[i];
      }
      assert !HasKey(init, k);
    }
  }

  /** The answers of `GET /web/by-user`. */
  datatype ByUserReply = EmailRequired | Sales(records: seq<SaleWithItems>)

  /** `GET /web/by-user?email=...`. `userId` is the id of the user with that
      e-mail (null when none), `sales` and `lines` what the two queries
      returned. */
  method ListByUser(email: Json, userId: Json, sales: seq<Json>, lines: seq<Json>) returns (r: ByUserReply)
    ensures r == EmailRequired <==> Routes.TrimmedOr(email) == ""
    ensures r.Sales? && !Truthy(userId) ==> r.records == []
    ensures r.Sales? && Truthy(userId) ==> r.records == Listing(sales, lines)
  {
    var e := ToLower(Routes.TrimmedOr(email));
    if e == "" {
      return EmailRequired;
    }
    if !Truthy(userId) {
      return Sales([]);
    }
    if |sales| == 0 {
      return Sales([]);
    }
    var out := GroupBySale(sales, lines);
    r := Sales(out);
  }
}
