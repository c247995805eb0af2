/** The courier client of services/shiprocketService.js: a `Shiprocket`
    object that holds a lazily fetched bearer token and sends requests to the
    courier's REST API, plus the two payloads it builds (a pickup warehouse
    from a branch row, an ad-hoc order from a shipment request).

    The HTTP transport is a parameter `server` mapping each request sent to
    its reply; `Threw` stands for an axios rejection. The database read of
    `init` is the `accounts` sequence (token column of shiprocket_accounts,
    ordered by id). */
module ShiprocketService {
  import opened Common
  import opened Js

  datatype HttpMethod = HttpGet | HttpPost

  /** What a request carries in its body. */
  datatype Body =
    | NoBody
    | PickupBody(pickup: WarehousePayload)
    | OrderBody(order: OrderPayload)
    | AwbBody(shipmentId: Json)
    | LabelBody(shipmentIds: seq<Json>)
    | JsonBody(json: Json)

  /** One request sent to the courier API, with its Authorization header. */
  datatype ApiCall = ApiCall(verb: HttpMethod, path: string, body: Body, authorization: string)

  /** The `data` of a reply, or a thrown error. */
  datatype Reply = Threw | Ok(data: Json)

  /** The request `createOrderShipment` sends with the token `token`. */
  function OrderCall(req: ShipmentRequest, orderDate: string, token: string): ApiCall {
    ApiCall(HttpPost, "/orders/create/adhoc", OrderBody(OrderPayloadOf(req, orderDate)), "Bearer " + token)
  }

  /** The AWB request of `assignAWBAndLabel`. */
  function AwbCall(shipmentId: Json, token: string): ApiCall {
    ApiCall(HttpPost, "/courier/assign/awb", AwbBody(shipmentId), "Bearer " + token)
  }

  /** The label request of `assignAWBAndLabel`. */
  function LabelCall(shipmentId: Json, token: string): ApiCall {
    ApiCall(HttpPost, "/courier/generate/label", LabelBody([shipmentId]), "Bearer " + token)
  }

  // ---------------------------------------------------------------------
  // Payloads

  datatype WarehousePayload = WarehousePayload(
    pickupLocation: Json, name: Json, email: Json, phone: Json, address: Json,
    address2: string, city: Json, state: Json, country: string, pinCode: Json)

  /** A branch row as read from the branches table. */
  datatype BranchRow = BranchRow(
    id: int, name: Json, email: Json, phone: Json, address: Json,
    city: Json, state: Json, pincode: Json)

  /** The pickup-location payload sent for a branch
      (services/shiprocketService.js:27-39). */
  function WarehousePayloadOf(branch: BranchRow): (p: WarehousePayload)
    ensures p.pickupLocation == branch.name && p.name == branch.name
    ensures p.country == "India" && p.address2 == ""
    ensures Truthy(branch.email) ==> p.email == branch.email
    ensures !Truthy(branch.email) ==> p.email == JStr("support@example.com")
    ensures Truthy(branch.phone) ==> p.phone == branch.phone
    ensures !Truthy(branch.phone) ==> p.phone == JStr("9999999999")
    ensures p.pinCode == branch.pincode && p.city == branch.city && p.state == branch.state
  {
    WarehousePayload(
      branch.name, branch.name,
      Or(branch.email, JStr("support@example.com")),
      Or(branch.phone, JStr("9999999999")),
      branch.address, "", branch.city, branch.state, "India", branch.pincode)
  }

  datatype Address = Address(line1: Json, line2: Json, city: Json, state: Json, pincode: Json)
  datatype Customer = Customer(name: Json, email: Json, phone: Json, address: Address)
  datatype OrderItem = OrderItem(name: Json, variantId: Json, qty: Json, price: Json)

  /** The `order` argument: items, payment method and the optional
      `dimensions` object and `weight`. */
  datatype Order = Order(items: seq<OrderItem>, paymentMethod: Json, dimensions: Json, weight: Json)

  datatype ShipmentRequest = ShipmentRequest(
    channelOrderId: string, pickupLocation: Json, order: Order, customer: Customer)

  datatype PayloadItem = PayloadItem(name: Json, sku: string, units: Json, sellingPrice: Json)

  /** The weight field: a given truthy weight, or the 0.5 kg default. */
  datatype Weight = GivenWeight(kg: Json) | HalfKilogram

  datatype OrderPayload = OrderPayload(
    orderId: string, orderDate: string, pickupLocation: Json,
    billingCustomerName: Json, billingLastName: string,
    billingAddress: Json, billingAddress2: Json, billingCity: Json,
    billingPincode: Json, billingState: Json, billingCountry: string,
    billingEmail: Json, billingPhone: Json, shippingIsBilling: bool,
    orderItems: seq<PayloadItem>, paymentMethod: string, subTotal: Json,
    length: Json, breadth: Json, height: Json, weight: Weight)

  function PayloadItemOf(it: OrderItem): PayloadItem {
    PayloadItem(
      Or(it.name, JStr("Variant " + ToStr(it.variantId))),
      ToStr(it.variantId),
      it.qty,
      ToNumber(Or(it.price, JNum(0))))
  }

  /** `Number(it.price || 0) * Number(it.qty || 0)`; NaN when either side is. */
  function LineAmount(it: OrderItem): Option<int> {
    match (NumberOf(Or(it.price, JNum(0))), NumberOf(Or(it.qty, JNum(0))))
    case (Some(p), Some(q)) => Some(p * q)
    case _ => None
  }

  function AddAmounts(a: Option<int>, b: Option<int>): Option<int> {
    if a.Some? && b.Some? then Some(a.value + b.value) else None
  }

  /** The `reduce` that computes `sub_total`, starting from 0; any NaN line
      makes the whole sum NaN. */
  function SubTotal(items: seq<OrderItem>): (r: Option<int>)
    ensures r.Some? <==> forall i :: 0 <= i < |items| ==> LineAmount(items[i]).Some?
  {
    if items == [] then Some(0)
    else
      var init := items[..|items| - 1];
      assert forall i :: 0 <= i < |init| ==> init[i] == items[i];
      AddAmounts(SubTotal(init), LineAmount(items[|items| - 1]))
  }

  /** The ad-hoc order payload (services/shiprocketService.js:46-72). */
  function OrderPayloadOf(req: ShipmentRequest, orderDate: string): (p: OrderPayload)
    ensures p.orderId == req.channelOrderId && p.pickupLocation == req.pickupLocation
    ensures p.paymentMethod == (if StrictEq(req.order.paymentMethod, JStr("COD")) then "COD" else "Prepaid")
    ensures |p.orderItems| == |req.order.items|
    ensures forall i :: 0 <= i < |p.orderItems| ==>
      p.orderItems[i].sku == ToStr(req.order.items[i].variantId) &&
      p.orderItems[i].units == req.order.items[i].qty
    ensures p.subTotal == (if SubTotal(req.order.items).Some? then JNum(SubTotal(req.order.items).value) else JNaN)
    ensures p.weight == (if Truthy(req.order.weight) then GivenWeight(req.order.weight) else HalfKilogram)
    ensures p.billingCountry == "India" && p.shippingIsBilling
  {
    var c := req.customer;
    var a := c.address;
    var sub := SubTotal(req.order.items);
    OrderPayload(
      req.channelOrderId, orderDate, req.pickupLocation,
      Or(c.name, JStr("Customer")), "",
      Or(a.line1, JStr("")), Or(a.line2, JStr("")), Or(a.city, JStr("")),
      Or(a.pincode, JStr("")), Or(a.state, JStr("")), "India",
      Or(c.email, JStr("na@example.com")), Or(c.phone, JStr("9999999999")), true,
      seq(|req.order.items|, i requires 0 <= i < |req.order.items| => PayloadItemOf(req.order.items[i])),
      if StrictEq(req.order.paymentMethod, JStr("COD")) then "COD" else "Prepaid",
      if sub.Some? then JNum(sub.value) else JNaN,
      Or(Get(req.order.dimensions, "length"), JNum(10)),
      Or(Get(req.order.dimensions, "breadth"), JNum(10)),
      Or(Get(req.order.dimensions, "height"), JNum(5)),
      if Truthy(req.order.weight) then GivenWeight(req.order.weight) else HalfKilogram)
  }

  /** `v` is the value `given || default` yields: the given value when it
      is truthy, the default otherwise. */
  predicate Defaulted(v: Json, given: Json, default: Json) {
    (Truthy(given) ==> v == given) && (!Truthy(given) ==> v == default)
  }

  /** Each `||` default of the payload: the customer's name, e-mail and
      phone, the five address fields (empty when missing), the three
      dimensions (10 by 10 by 5), and per item the name (`Variant <id>`
      when missing) and the selling price (the number of the price, 0 when
      missing). */
  lemma PayloadDefaults(req: ShipmentRequest, orderDate: string)
    ensures var p := OrderPayloadOf(req, orderDate);
      var c := req.customer;
      && Defaulted(p.billingCustomerName, c.name, JStr("Customer"))
      && Defaulted(p.billingEmail, c.email, JStr("na@example.com"))
      && Defaulted(p.billingPhone, c.phone, JStr("9999999999"))
      && Defaulted(p.billingAddress, c.address.line1, JStr(""))
      && Defaulted(p.billingAddress2, c.address.line2, JStr(""))
      && Defaulted(p.billingCity, c.address.city, JStr(""))
      && Defaulted(p.billingPincode, c.address.pincode, JStr(""))
      && Defaulted(p.billingState, c.address.state, JStr(""))
      && p.billingLastName == ""
      && Defaulted(p.length, Get(req.order.dimensions, "length"), JNum(10))
      && Defaulted(p.breadth, Get(req.order.dimensions, "breadth"), JNum(10))
      && Defaulted(p.height, Get(req.order.dimensions, "height"), JNum(5))
      && forall i :: 0 <= i < |p.orderItems| ==>
        var it := req.order.items[i];
        && Defaulted(p.orderItems[i].name, it.name, JStr("Variant " + ToStr(it.variantId)))
        && p.orderItems[i].sellingPrice == ToNumber(if Truthy(it.price) then it.price else JNum(0))
  {
  }

  /** `sub_total` is additive over the item list. */
  lemma {:induction false} SubTotalAppend(a: seq<OrderItem>, b: seq<OrderItem>)
    ensures SubTotal(a + b) == AddAmounts(SubTotal(a), SubTotal(b))
    decreases |b|
  {
    if b == [] {
      assert a + b == a;
    } else {
      var b' := b[..|b| - 1];
      assert (a + b)[..|a + b| - 1] == a + b';
      SubTotalAppend(a, b');
    }
  }

  /** An item whose price or quantity is absent (null or undefined) adds 0. */
  lemma MissingCountsAsZero(items: seq<OrderItem>, it: OrderItem)
    requires Nullish(it.price) || Nullish(it.qty)
    requires NumberOf(Or(it.price, JNum(0))).Some? && NumberOf(Or(it.qty, JNum(0))).Some?
    ensures SubTotal(items + [it]) == SubTotal(items)
  {
    assert (items + [it])[..|items + [it]| - 1] == items;
  }

  /** For items whose price and quantity are plain numbers, the sub-total is
      the sum of price times quantity. */
  lemma {:induction false} SubTotalOfNumbers(items: seq<OrderItem>, prices: seq<int>, qtys: seq<int>)
    requires |prices| == |items| == |qtys|
    requires forall i :: 0 <= i < |items| ==> items[i].price == JNum(prices[i]) && items[i].qty == JNum(qtys[i])
    ensures SubTotal(items) == Some(Dot(prices, qtys))
  {
    if items != [] {
      var n := |items| - 1;
      var init, ps, qs := items[..n], prices[..n], qtys[..n];
      assert forall i :: 0 <= i < n ==> init[i] == items[i] && ps[i] == prices[i] && qs[i] == qtys[i];
      SubTotalOfNumbers(init, ps, qs);
      NumberLine(items[n], prices[n], qtys[n]);
      DotLast(prices, qtys);
      assert SubTotal(items) == AddAmounts(SubTotal(init), LineAmount(items[n]));
    }
  }

  lemma NumberLine(it: OrderItem, p: int, q: int)
    requires it.price == JNum(p) && it.qty == JNum(q)
    ensures LineAmount(it) == Some(p * q)
  {
    assert Or(JNum(p), JNum(0)) == JNum(p) && Or(JNum(q), JNum(0)) == JNum(q);
  }

  /** Sum of `prices[i] * qtys[i]`. */
  function Dot(prices: seq<int>, qtys: seq<int>): int
    requires |prices| == |qtys|
  {
    if prices == [] then 0 else prices[0] * qtys[0] + Dot(prices[1..], qtys[1..])
  }

  lemma {:induction false} DotLast(prices: seq<int>, qtys: seq<int>)
    requires |prices| == |qtys| > 0
    ensures Dot(prices, qtys) ==
      Dot(prices[..|prices| - 1], qtys[..|qtys| - 1]) + prices[|prices| - 1] * qtys[|qtys| - 1]
  {
    if |prices| > 1 {
      DotLast(prices[1..], qtys[1..]);
      assert prices[1..][..|prices| - 2] == prices[..|prices| - 1][1..];
      assert qtys[1..][..|qtys| - 2] == qtys[..|qtys| - 1][1..];
    }
  }

  // ---------------------------------------------------------------------
  // The client object

  /** The token `init` stores: the first account's token if truthy, else null. */
  function StoredToken(accounts: seq<Option<string>>): (t: Option<string>)
    ensures t.Some? <==> |accounts| > 0 && accounts[0].Some? && accounts[0].value != ""
    ensures t.Some? ==> t.value == accounts[0].value
  {
    if |accounts| > 0 && accounts[0].Some? && accounts[0].value != "" then accounts[0] else None
  }

  class Shiprocket {
    /** The shiprocket_accounts tokens, ordered by id (what `pool` reads). */
    const accounts: seq<Option<string>>
    /** The cached bearer token; null until `init`. */
    var token: Option<string>
    /** Every request sent so far, in order. */
    var sent: seq<ApiCall>

    constructor (accounts: seq<Option<string>>)
      ensures this.accounts == accounts && token == None && sent == []
    {
      this.accounts := accounts;
      token := None;
      sent := [];
    }

    /** `init`: reads the stored token; reports failure ('Shiprocket token
        missing') when there is none. */
    method Init() returns (ok: bool)
      modifies this`token
      ensures token == StoredToken(accounts)
      ensures ok <==> token.Some?
    {
      token := StoredToken(accounts);
      ok := token.Some?;
    }

    /** `api`: initialises only when no token is cached, then sends one
        request carrying the cached token. */
    method Api(m: HttpMethod, path: string, body: Body, server: ApiCall -> Reply) returns (r: Reply)
      modifies this`token, this`sent
      ensures old(token).Some? ==> token == old(token)
      ensures old(token).None? ==> token == StoredToken(accounts)
      ensures token.None? ==> r == Threw && sent == old(sent)
      ensures token.Some? ==>
        sent == old(sent) + [ApiCall(m, path, body, "Bearer " + token.value)] &&
        r == server(ApiCall(m, path, body, "Bearer " + token.value))
    {
      if token.None? {
        var ok := Init();
        if !ok {
          return Threw;
        }
      }
      var call := ApiCall(m, path, body, "Bearer " + token.value);
      sent := sent + [call];
      r := server(call);
    }

    method UpsertWarehouseFromBranch(branch: BranchRow, server: ApiCall -> Reply) returns (r: Reply)
      modifies this`token, this`sent
      ensures old(token).Some? ==> token == old(token)
      ensures old(token).None? ==> token == StoredToken(accounts)
      ensures token.None? ==> r == Threw && sent == old(sent)
      ensures token.Some? ==>
        var call := ApiCall(HttpPost, "/settings/company/addpickup", PickupBody(WarehousePayloadOf(branch)), "Bearer " + token.value);
        sent == old(sent) + [call] && r == server(call)
    {
      r := Api(HttpPost, "/settings/company/addpickup", PickupBody(WarehousePayloadOf(branch)), server);
    }

    method CreateOrderShipment(req: ShipmentRequest, orderDate: string, server: ApiCall -> Reply) returns (r: Reply)
      modifies this`token, this`sent
      ensures old(token).Some? ==> token == old(token)
      ensures old(token).None? ==> token == StoredToken(accounts)
      ensures token.None? ==> r == Threw && sent == old(sent)
      ensures token.Some? ==>
        var call := OrderCall(req, orderDate, token.value);
        && call == ApiCall(HttpPost, "/orders/create/adhoc", OrderBody(OrderPayloadOf(req, orderDate)), "Bearer " + token.value)
        && sent == old(sent) + [call] && r == server(call)
    {
      r := Api(HttpPost, "/orders/create/adhoc", OrderBody(OrderPayloadOf(req, orderDate)), server);
    }

    /** `assignAWBAndLabel`: the AWB request first, then the label request
        with the shipment id wrapped in a one-element list. A rejection of
        either propagates (`None`). */
    method AssignAwbAndLabel(shipmentId: Json, server: ApiCall -> Reply) returns (r: Option<(Json, Json)>)
      requires token.Some?
      modifies this`token, this`sent
      ensures token == old(token)
      ensures var awbCall := AwbCall(shipmentId, token.value);
        var labelCall := LabelCall(shipmentId, token.value);
        && awbCall == ApiCall(HttpPost, "/courier/assign/awb", AwbBody(shipmentId), "Bearer " + token.value)
        && labelCall == ApiCall(HttpPost, "/courier/generate/label", LabelBody([shipmentId]), "Bearer " + token.value)
        && if server(awbCall).Threw? then
          sent == old(sent) + [awbCall] && r == None
        else
          sent == old(sent) + [awbCall, labelCall] &&
          r == (if server(labelCall).Threw? then None else Some((server(awbCall).data, server(labelCall).data)))
    {
      var awb := Api(HttpPost, "/courier/assign/awb", AwbBody(shipmentId), server);
      if awb.Threw? {
        return None;
      }
      var labelReply := Api(HttpPost, "/courier/generate/label", LabelBody([shipmentId]), server);
      if labelReply.Threw? {
        return None;
      }
      r := Some((awb.data, labelReply.data));
    }
  }

  /** A client that was initialised sends every request with that token and
      never initialises again: two calls in a row send exactly two requests
      carrying the same bearer. */
  method TwoCallsShareToken(accounts: seq<Option<string>>, server: ApiCall -> Reply, a: Body, b: Body)
    returns (calls: seq<ApiCall>)
    ensures StoredToken(accounts).None? ==> calls == []
    ensures StoredToken(accounts).Some? ==>
      |calls| == 2 && calls[0].authorization == calls[1].authorization == "Bearer " + StoredToken(accounts).value
  {
    var sr := new Shiprocket(accounts);
    var _ := sr.Api(HttpPost, "/a", a, server);
    var _ := sr.Api(HttpPost, "/b", b, server);
    calls := sr.sent;
  }
}
