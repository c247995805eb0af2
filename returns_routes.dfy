/** The return and replacement routes (routes/returnsRoutes.js): the
    seven-day eligibility rule, the creation of a return request with its
    item rows, and the admin approval and rejection of a request. Query
    results, the current time and the outcome of the reverse-pickup call
    are parameters; the `return_requests` table is a map from request id to
    row and `return_items` a sequence of rows. */
module ReturnsRoutes {
  import opened Common
  import opened Js

  // ---------------------------------------------------------------------
  // Eligibility
  // ---------------------------------------------------------------------

  /** The return window: seven days in milliseconds. */
  const WindowMs: int := 7 * 24 * 3600 * 1000

  /** The columns of a `sales` row that the routes read; a timestamp is
      milliseconds since the epoch, `None` standing for SQL null. */
  datatype SaleRecord = SaleRecord(createdAt: Option<int>, customerEmail: Json, customerMobile: Json)

  /** A `shipments` row of the sale; the query returns them newest first. */
  datatype ShipmentRow = ShipmentRow(status: Json, createdAt: Option<int>)

  datatype Eligibility =
    | SaleNotFound
    | NotDelivered
    | WindowExceeded
    | Eligible(sale: SaleRecord)

  /** The `reason` text the route sends for each refusal. */
  function Reason(e: Eligibility): string {
    match e
    case SaleNotFound => "Sale not found"
    case NotDelivered => "Order not delivered yet"
    case WindowExceeded => "Return window (7 days) exceeded"
    case Eligible(_) => ""
  }

  /** `String(r.status || '').toUpperCase() === 'DELIVERED'`. */
  predicate IsDelivered(status: Json) {
    ToUpper(ToStr(Or(status, JStr("")))) == "DELIVERED"
  }

  /** The index `Array.prototype.find` stops at: the first delivered row. */
  function FirstDelivered(ss: seq<ShipmentRow>): (r: Option<nat>)
    ensures r.None? <==> forall j :: 0 <= j < |ss| ==> !IsDelivered(ss[j].status)
    ensures r.Some? ==> r.value < |ss| && IsDelivered(ss[r.value].status)
    ensures r.Some? ==> forall j :: 0 <= j < r.value ==> !IsDelivered(ss[j].status)
  {
    if ss == [] then None
    else if IsDelivered(ss[0].status) then Some(0)
    else
      var rest := FirstDelivered(ss[1..]);
      if rest.None? then None else Some(rest.value + 1)
  }

  /** `new Date(t).getTime()` on a column value: SQL null reads as the epoch. */
  function Millis(t: Option<int>): int {
    if t.Some? then t.value else 0
  }

  /** `find(...)?.created_at || sale.created_at`. */
  function DeliveredAt(sale: SaleRecord, ss: seq<ShipmentRow>): Option<int> {
    var k := FirstDelivered(ss);
    if k.Some? && ss[k.value].createdAt.Some? then ss[k.value].createdAt else sale.createdAt
  }

  /** `isEligible`: the checks in the order the source makes them. */
  function IsEligible(sale: Option<SaleRecord>, ss: seq<ShipmentRow>, now: int): (r: Eligibility)
    ensures r == SaleNotFound <==> sale.None?
    ensures r == NotDelivered <==> sale.Some? && forall j :: 0 <= j < |ss| ==> !IsDelivered(ss[j].status)
    ensures r.Eligible? <==>
      && sale.Some?
      && (exists j :: 0 <= j < |ss| && IsDelivered(ss[j].status))
      && now - Millis(DeliveredAt(sale.value, ss)) <= WindowMs
    ensures r.Eligible? ==> r.sale == sale.value
  {
    if sale.None? then SaleNotFound
    else
      var delivered := FirstDelivered(ss).Some?;
      var within := delivered && now - Millis(DeliveredAt(sale.value, ss)) <= WindowMs;
      if !delivered then NotDelivered
      else if !within then WindowExceeded
      else Eligible(sale.value)
  }

  /** The delivery time is the newest delivered shipment's, when that row
      has one, whatever the older rows say. */
  lemma NewestDeliveryCounts(sale: SaleRecord, ss: seq<ShipmentRow>, k: nat)
    requires k < |ss| && IsDelivered(ss[k].status) && ss[k].createdAt.Some?
    requires forall j :: 0 <= j < k ==> !IsDelivered(ss[j].status)
    ensures DeliveredAt(sale, ss) == ss[k].createdAt
  {
    assert FirstDelivered(ss) == Some(k);
  }

  /** The window is inclusive: exactly seven days after delivery is still
      in time, one millisecond later is not. */
  lemma WindowIsInclusive(sale: SaleRecord, ss: seq<ShipmentRow>, k: nat)
    requires k < |ss| && IsDelivered(ss[k].status)
    ensures IsEligible(Some(sale), ss, Millis(DeliveredAt(sale, ss)) + WindowMs).Eligible?
    ensures IsEligible(Some(sale), ss, Millis(DeliveredAt(sale, ss)) + WindowMs + 1) == WindowExceeded
  {
  }

  /** A request eligible now was eligible at every earlier moment, and one
      whose window has passed stays refused. */
  lemma EligibilityOnlyExpires(sale: Option<SaleRecord>, ss: seq<ShipmentRow>, earlier: int, later: int)
    requires earlier <= later
    ensures IsEligible(sale, ss, later).Eligible? ==> IsEligible(sale, ss, earlier).Eligible?
    ensures IsEligible(sale, ss, earlier) == WindowExceeded ==> IsEligible(sale, ss, later) == WindowExceeded
  {
  }

  /** The status test ignores case. */
  lemma DeliveredIgnoresCase()
    ensures IsDelivered(JStr("delivered")) && IsDelivered(JStr("Delivered"))
    ensures !IsDelivered(JNull) && !IsDelivered(JStr("SHIPPED"))
  {
    assert ToUpper("delivered") == "DELIVERED";
    assert ToUpper("Delivered") == "DELIVERED";
    assert ToUpper("") == "";
    assert ToUpper("SHIPPED")[0] == 'S';
  }

  // ---------------------------------------------------------------------
  // Item placeholders
  // ---------------------------------------------------------------------

  /** `$n`. */
  function Placeholder(n: nat): string {
    "$" + NatToString(n)
  }

  /** The number of the k-th placeholder (k in 0..5) of item i. */
  function ParamNumber(i: nat, k: nat): nat {
    6 * i + k + 1
  }

  /** `$first,$first+1,...` with `count` placeholders. */
  function PlaceholderList(first: nat, count: nat): string
    decreases count
  {
    if count == 0 then ""
    else if count == 1 then Placeholder(first)
    else Placeholder(first) + "," + PlaceholderList(first + 1, count - 1)
  }

  /** The placeholder group of item i: `($6i+1,...,$6i+6)`. */
  function Group(i: nat): string {
    "(" + PlaceholderList(ParamNumber(i, 0), 6) + ")"
  }

  /** The `params` array for n items: group i at index i. */
  function Groups(n: nat): (r: seq<string>)
    ensures |r| == n
    ensures forall i :: 0 <= i < n ==> r[i] == Group(i)
  {
    if n == 0 then []
    else
      var prev := Groups(n - 1);
      var r := prev + [Group(n - 1)];
      assert forall i :: 0 <= i < n - 1 ==> r[i] == prev[i];
      r
  }

  /** The six values pushed for one item: request id, variant, quantity,
      reason code, condition note, and the null pad. */
  function ItemValues(requestId: Json, it: Json): (r: seq<Json>)
    ensures |r| == 6 && r[5] == JNull && r[0] == requestId
  {
    [requestId, Get(it, "variant_id"), Get(it, "qty"),
     Or(Get(it, "reason_code"), JNull), Or(Get(it, "condition_note"), JNull), JNull]
  }

  /** The whole `values` array, item after item. */
  function ValuesFor(requestId: Json, items: seq<Json>): (r: seq<Json>)
    ensures |r| == 6 * |items|
  {
    if items == [] then []
    else ValuesFor(requestId, items[..|items| - 1]) + ItemValues(requestId, items[|items| - 1])
  }

  /** `values` splits into consecutive blocks of six, block i holding item i. */
  lemma {:induction false} ValuesBlock(requestId: Json, items: seq<Json>, i: nat, k: nat)
    requires i < |items| && k < 6
    ensures ValuesFor(requestId, items)[6 * i + k] == ItemValues(requestId, items[i])[k]
  {
    var n := |items| - 1;
    if i < n {
      ValuesBlock(requestId, items[..n], i, k);
      assert items[..n][i] == items[i];
    }
  }

  /** Every parameter number p in 1..6n is used by exactly the placeholder
      k of group i with p = 6i+k+1, and `values[p-1]` holds column k of item
      i; in particular the last value of each item is the null pad. */
  lemma {:induction false} PlaceholderNumbering(requestId: Json, items: seq<Json>, p: nat)
    requires 1 <= p <= 6 * |items|
    ensures var i, k := (p - 1) / 6, (p - 1) % 6;
      && i < |items| && ParamNumber(i, k) == p
      && ValuesFor(requestId, items)[p - 1] == ItemValues(requestId, items[i])[k]
      && (k == 5 ==> ValuesFor(requestId, items)[p - 1] == JNull)
  {
    var i, k := (p - 1) / 6, (p - 1) % 6;
    ValuesBlock(requestId, items, i, k);
  }

  /** A placeholder reads back as its own number. */
  lemma PlaceholderNames(n: nat)
    ensures var s := Placeholder(n); s[0] == '$' && DigitsValue(s[1..]) == n
  {
    assert Placeholder(n)[1..] == NatToString(n);
    NatToStringValue(n);
  }

  /** The `items.forEach` loop that fills `params` and `values`. */
  method BuildItemParams(requestId: Json, items: seq<Json>) returns (params: seq<string>, values: seq<Json>)
    ensures params == Groups(|items|)
    ensures values == ValuesFor(requestId, items)
  {
    params, values := [], [];
    for i := 0 to |items|
      invariant params == Groups(i)
      invariant values == ValuesFor(requestId, items[..i])
    {
      params := params + [Group(i)];
      ValuesStep(requestId, items, i);
      values := values + ItemValues(requestId, items[i]);
    }
    assert items[..|items|] == items;
  }

  lemma ValuesStep(requestId: Json, items: seq<Json>, i: nat)
    requires i < |items|
    ensures ValuesFor(requestId, items[..i + 1]) == ValuesFor(requestId, items[..i]) + ItemValues(requestId, items[i])
  {
    assert items[..i + 1][..i] == items[..i];
  }

  // ---------------------------------------------------------------------
  // Requests
  // ---------------------------------------------------------------------

  datatype ReturnRequest = ReturnRequest(
    saleId: Json, customerEmail: Json, customerMobile: Json,
    kind: string, reason: Json, notes: Json, status: string)

  datatype ReturnItem = ReturnItem(requestId: int, variantId: Json, qty: Json, reasonCode: Json, conditionNote: Json)

  /** `type === 'REPLACE' ? 'REPLACE' : 'RETURN'`. */
  function RequestKind(t: Json): (r: string)
    ensures r == "REPLACE" || r == "RETURN"
    ensures r == "REPLACE" <==> t == JStr("REPLACE")
  {
    if StrictEq(t, JStr("REPLACE")) then "REPLACE" else "RETURN"
  }

  /** The row inserted for an eligible request. */
  function RequestOf(body: Json, sale: SaleRecord): (r: ReturnRequest)
    ensures r.status == "REQUESTED" && r.saleId == Get(body, "sale_id")
    ensures r.kind == RequestKind(Get(body, "type"))
    ensures !Truthy(Get(body, "notes")) ==> r.notes == JNull
  {
    ReturnRequest(Get(body, "sale_id"), Or(sale.customerEmail, JNull), Or(sale.customerMobile, JNull),
      RequestKind(Get(body, "type")), Or(Get(body, "reason"), JNull), Or(Get(body, "notes"), JNull),
      "REQUESTED")
  }

  /** `Array.isArray(items) && items.length`. */
  function ItemsToInsert(body: Json): (r: seq<Json>)
    ensures r != [] ==> Get(body, "items") == JArr(r)
  {
    var v := Get(body, "items");
    if v.JArr? then v.elems else []
  }

  /** The `return_items` rows the insert writes: the first five values of
      each block. */
  function ItemRowsOf(requestId: int, items: seq<Json>): (rows: seq<ReturnItem>)
    ensures |rows| == |items|
    ensures forall i :: 0 <= i < |items| ==>
      var v := ItemValues(JNum(requestId), items[i]);
      rows[i] == ReturnItem(requestId, v[1], v[2], v[3], v[4])
  {
    if items == [] then []
    else
      var prev := ItemRowsOf(requestId, items[..|items| - 1]);
      assert forall i :: 0 <= i < |items| - 1 ==> items[..|items| - 1][i] == items[i];
      var v := ItemValues(JNum(requestId), items[|items| - 1]);
      prev + [ReturnItem(requestId, v[1], v[2], v[3], v[4])]
  }

  function NotesAfterReject(notes: Json, body: Json): (r: Json)
    ensures r.JStr?
    ensures notes.JStr? ==> notes.s <= r.s
    ensures notes.JNull? ==> "\nRejected: " <= r.s
  {
    var prior := if notes.JNull? then "" else ToStr(notes);
    JStr(prior + "\nRejected: " + ToStr(Or(Get(body, "reason"), JStr(""))))
  }

  datatype CreateReply = Ineligible(why: Eligibility) | CreateFailed | Created(id: int, request: ReturnRequest)

  datatype AdminReply = RequestNotFound | AdminFailed | Done

  class ReturnStore {
    var requests: map<int, ReturnRequest>
    var items: seq<ReturnItem>

    constructor (requests: map<int, ReturnRequest>, items: seq<ReturnItem>)
      ensures this.requests == requests && this.items == items
    {
      this.requests := requests;
      this.items := items;
    }

    /** `POST /returns`. `sale` and `ss` are the eligibility queries' rows,
        `newId` the id the database gives the request, and `itemsInsertOk`
        whether the item insert succeeds. The request insert is not undone
        when the item insert fails: there is no transaction. */
    method Create(body: Json, sale: Option<SaleRecord>, ss: seq<ShipmentRow>, now: int,
                  newId: int, itemsInsertOk: bool)
      returns (reply: CreateReply)
      modifies this
      ensures !IsEligible(sale, ss, now).Eligible? ==>
        reply == Ineligible(IsEligible(sale, ss, now)) && requests == old(requests) && items == old(items)
      ensures IsEligible(sale, ss, now).Eligible? ==>
        requests == old(requests)[newId := RequestOf(body, sale.value)]
      ensures IsEligible(sale, ss, now).Eligible? && ItemsToInsert(body) != [] && !itemsInsertOk ==>
        reply == CreateFailed && items == old(items)
      ensures IsEligible(sale, ss, now).Eligible? && (ItemsToInsert(body) == [] || itemsInsertOk) ==>
        && reply == Created(newId, RequestOf(body, sale.value))
        && items == old(items) + ItemRowsOf(newId, ItemsToInsert(body))
    {
      var el := IsEligible(sale, ss, now);
      if !el.Eligible? {
        return Ineligible(el);
      }
      var row := RequestOf(body, el.sale);
      requests := requests[newId := row];
      var inserted := InsertItems(newId, ItemsToInsert(body), itemsInsertOk);
      reply := if inserted then Created(newId, row) else CreateFailed;
    }

    /** The item insert of `POST /returns`: nothing for an empty list,
        otherwise one statement carrying all the rows, which writes all of
        them or, when `ok` is false, none. */
    method InsertItems(requestId: int, list: seq<Json>, ok: bool) returns (inserted: bool)
      modifies this`items
      ensures inserted <==> list == [] || ok
      ensures inserted ==> items == old(items) + ItemRowsOf(requestId, list)
      ensures !inserted ==> items == old(items)
    {
      if list == [] {
        return true;
      }
      var params, values := BuildItemParams(JNum(requestId), list);
      if !ok {
        return false;
      }
      items := items + ItemRowsOf(requestId, list);
      inserted := true;
    }

    /** `POST /returns` as written: the item statement at
        routes/returnsRoutes.js:59 names `reason_code` twice in its column
        list, which PostgreSQL rejects, so every non-empty item list fails.
        An eligible request with items is then stored without any item row
        and answered with the 500 reply. */
    method CreateAsWritten(body: Json, sale: Option<SaleRecord>, ss: seq<ShipmentRow>, now: int, newId: int)
      returns (reply: CreateReply)
      modifies this
      ensures IsEligible(sale, ss, now).Eligible? && ItemsToInsert(body) != [] ==>
        && reply == CreateFailed
        && requests == old(requests)[newId := RequestOf(body, sale.value)]
        && items == old(items)
      ensures IsEligible(sale, ss, now).Eligible? && ItemsToInsert(body) == [] ==>
        && reply == Created(newId, RequestOf(body, sale.value))
        && requests == old(requests)[newId := RequestOf(body, sale.value)]
        && items == old(items)
      ensures !IsEligible(sale, ss, now).Eligible? ==>
        reply == Ineligible(IsEligible(sale, ss, now)) && requests == old(requests) && items == old(items)
    {
      reply := Create(body, sale, ss, now, newId, false);
    }

    /** `POST /returns/:id/approve`. `saleFound` says whether the request's
        sale still exists (reading its branch throws otherwise) and
        `reverse` is the reverse-pickup outcome, `None` when it throws. */
    method Approve(id: int, saleFound: bool, reverse: Option<Json>) returns (reply: AdminReply)
      modifies this`requests
      ensures id !in old(requests) ==> reply == RequestNotFound && requests == old(requests)
      ensures id in old(requests) && (!saleFound || reverse.None?) ==>
        reply == AdminFailed && requests == old(requests)
      ensures id in old(requests) && saleFound && reverse.Some? ==>
        reply == Done && requests == old(requests)[id := old(requests)[id].(status := "APPROVED")]
    {
      if id !in requests {
        return RequestNotFound;
      }
      if !saleFound || reverse.None? {
        return AdminFailed;
      }
      requests := requests[id := requests[id].(status := "APPROVED")];
      reply := Done;
    }

    /** `POST /returns/:id/reject`: whatever the request's status, it
        becomes REJECTED and the reason is appended to its notes. */
    method Reject(id: int, body: Json) returns (reply: AdminReply)
      modifies this`requests
      ensures id !in old(requests) ==> reply == RequestNotFound && requests == old(requests)
      ensures id in old(requests) ==>
        var r := old(requests)[id];
        reply == Done && requests == old(requests)[id := r.(status := "REJECTED", notes := NotesAfterReject(r.notes, body))]
    {
      if id !in requests {
        return RequestNotFound;
      }
      var r := requests[id];
      requests := requests[id := r.(status := "REJECTED", notes := NotesAfterReject(r.notes, body))];
      reply := Done;
    }
  }

}
