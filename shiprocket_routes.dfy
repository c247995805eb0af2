/** The courier routes (routes/shiprocketRoutes.js): the pure pickers that
    normalise a sale row into pincodes, a COD flag and document URLs, the
    warehouse import that maps each active branch to one of the courier's
    pickup locations, the order-id list sent to the invoice and manifest
    printers, and the guards of the status webhook and of the pincode check.
    Database rows are `Json` objects; query results and courier replies are
    inputs. */
module ShiprocketRoutes {
  import opened Common
  import opened Js
  import SR = ShiprocketService
  import OF = OrderFulfillment

  // ---------------------------------------------------------------------
  // Normalisation helpers
  // ---------------------------------------------------------------------

  /** `asUpper(v)`: `String(v ?? '')`, trimmed and upper-cased. The result
      carries no lower-case letter and no surrounding whitespace. */
  function AsUpper(v: Json): (r: string)
    ensures Nullish(v) ==> r == ""
    ensures forall i :: 0 <= i < |r| ==> !('a' <= r[i] <= 'z')
    ensures r != [] ==> !IsSpace(r[0]) && !IsSpace(r[|r| - 1])
  {
    var t := Trim(ToStr(Coalesce(v, JStr(""))));
    TrimFacts(ToStr(Coalesce(v, JStr(""))));
    ToUpperIdempotent(t);
    ToUpper(t)
  }

  /** Normalising an already normalised value changes nothing. */
  lemma AsUpperIdempotent(v: Json)
    ensures AsUpper(JStr(AsUpper(v))) == AsUpper(v)
  {
    var u := AsUpper(v);
    TrimNoEdgeSpace(u);
    var t := Trim(ToStr(Coalesce(v, JStr(""))));
    ToUpperIdempotent(t);
  }

  /** `norm(s)` of the warehouse import: `String(s ?? '')`, trimmed and
      lower-cased. */
  function Norm(v: Json): (r: string)
    ensures Nullish(v) ==> r == ""
    ensures forall i :: 0 <= i < |r| ==> !('A' <= r[i] <= 'Z')
  {
    ToLower(Trim(ToStr(Coalesce(v, JStr("")))))
  }

  /** `String(v || '').trim()`. */
  function TrimmedOr(v: Json): (r: string)
    ensures !Truthy(v) ==> r == ""
    ensures r != [] ==> !IsSpace(r[0]) && !IsSpace(r[|r| - 1])
  {
    TrimFacts(ToStr(Or(v, JStr(""))));
    Trim(ToStr(Or(v, JStr(""))))
  }

  /** `safeJsonParse(v)`: a falsy value is null, an object or array is kept,
      anything else is handed to `JSON.parse` (the `parse` parameter, `None`
      when it throws), a failure giving null. */
  function SafeJsonParse(v: Json, parse: string -> Option<Json>): (r: Json)
    ensures !Truthy(v) ==> r == JNull
    ensures (v.JObj? || v.JArr?) ==> r == v
    ensures r == v || r == JNull || parse(ToStr(v)) == Some(r)
  {
    if !Truthy(v) then JNull
    else if v.JObj? || v.JArr? then v
    else parse(ToStr(v)).GetOr(JNull)
  }

  // ---------------------------------------------------------------------
  // Pincode and COD pickers
  // ---------------------------------------------------------------------

  /** The sale columns that may hold the delivery pincode, in order. */
  const DirectPinPaths: seq<seq<string>> :=
    [["delivery_pincode"], ["pincode"], ["shipping_pincode"], ["customer_pincode"]]

  /** The shipping-address keys that may hold it, in order. */
  const AddressPinPaths: seq<seq<string>> := [["pincode"], ["pin_code"], ["postal_code"], ["zip"]]

  /** The parsed shipping address of a sale row. */
  function AddressOf(sale: Json, parse: string -> Option<Json>): Json {
    SafeJsonParse(Get(sale, "shipping_address"), parse)
  }

  /** `pickDeliveryPincode(sale)`. The last operand of each `||` chain only
      matters through its truthiness, so the chains end in `undefined`. */
  function PickDeliveryPincode(sale: Json, parse: string -> Option<Json>): string {
    var direct := FirstTruthy(sale, DirectPinPaths, JUndef);
    if Truthy(direct) then Trim(ToStr(direct))
    else
      var pin := FirstTruthy(AddressOf(sale, parse), AddressPinPaths, JUndef);
      if Truthy(pin) then Trim(ToStr(pin)) else ""
  }

  /** The first non-empty sale column wins, trimmed. */
  lemma DeliveryPinFromSale(sale: Json, parse: string -> Option<Json>, i: int)
    requires 0 <= i < |DirectPinPaths| && Truthy(Path(sale, DirectPinPaths[i]))
    requires forall j :: 0 <= j < i ==> !Truthy(Path(sale, DirectPinPaths[j]))
    ensures PickDeliveryPincode(sale, parse) == Trim(ToStr(Path(sale, DirectPinPaths[i])))
  {
    FirstTruthyIsFirst(sale, DirectPinPaths, JUndef, i);
  }

  /** With no sale column set, the first non-empty address key wins, trimmed. */
  lemma DeliveryPinFromAddress(sale: Json, parse: string -> Option<Json>, i: int)
    requires forall j :: 0 <= j < |DirectPinPaths| ==> !Truthy(Path(sale, DirectPinPaths[j]))
    requires 0 <= i < |AddressPinPaths| && Truthy(Path(AddressOf(sale, parse), AddressPinPaths[i]))
    requires forall j :: 0 <= j < i ==> !Truthy(Path(AddressOf(sale, parse), AddressPinPaths[j]))
    ensures PickDeliveryPincode(sale, parse) == Trim(ToStr(Path(AddressOf(sale, parse), AddressPinPaths[i])))
  {
    FirstTruthyIsFirst(AddressOf(sale, parse), AddressPinPaths, JUndef, i);
  }

  /** With nothing set anywhere the pincode is empty. */
  lemma DeliveryPinAbsent(sale: Json, parse: string -> Option<Json>)
    requires forall j :: 0 <= j < |DirectPinPaths| ==> !Truthy(Path(sale, DirectPinPaths[j]))
    requires forall j :: 0 <= j < |AddressPinPaths| ==> !Truthy(Path(AddressOf(sale, parse), AddressPinPaths[j]))
    ensures PickDeliveryPincode(sale, parse) == ""
  {
  }

  /** A shipping address that does not parse counts as no address at all:
      only the sale's own columns can then supply the pincode. */
  lemma UnparseableAddressIsAbsent(sale: Json, parse: string -> Option<Json>)
    requires Get(sale, "shipping_address").JStr?
    requires parse(Get(sale, "shipping_address").s) == None
    ensures PickDeliveryPincode(sale, parse) ==
      (var d := FirstTruthy(sale, DirectPinPaths, JUndef); if Truthy(d) then Trim(ToStr(d)) else "")
  {
    assert AddressOf(sale, parse) == JNull;
    var pin := FirstTruthy(JNull, AddressPinPaths, JUndef);
    forall j | 0 <= j < |AddressPinPaths|
      ensures !Truthy(Path(JNull, AddressPinPaths[j]))
    {
      assert Path(JNull, AddressPinPaths[j]) == Path(JUndef, AddressPinPaths[j][1..]);
    }
    assert pin == JUndef;
  }

  /** The delivery pincode never carries surrounding whitespace. */
  lemma DeliveryPinTrimmed(sale: Json, parse: string -> Option<Json>)
    ensures Trim(PickDeliveryPincode(sale, parse)) == PickDeliveryPincode(sale, parse)
  {
    var direct := FirstTruthy(sale, DirectPinPaths, JUndef);
    if Truthy(direct) {
      TrimIdempotent(ToStr(direct));
    } else {
      var pin := FirstTruthy(AddressOf(sale, parse), AddressPinPaths, JUndef);
      if Truthy(pin) {
        TrimIdempotent(ToStr(pin));
      } else {
        assert PickDeliveryPincode(sale, parse) == "";
        TrimNoEdgeSpace("");
      }
    }
  }

  /** `pickCod(sale)`: the normalised payment status is `COD`, or the
      normalised payment method (or mode) mentions `COD` or `CASH`. */
  predicate PickCod(sale: Json) {
    var ps := AsUpper(Get(sale, "payment_status"));
    var pm := AsUpper(Or(Get(sale, "payment_method"), Get(sale, "payment_mode")));
    ps == "COD" || Contains(pm, "COD") || Contains(pm, "CASH")
  }

  /** A sale that the fulfilment driver sends to the courier as `COD` is also
      cash on delivery for these routes (the converse does not hold: the
      routes also trim the status and read the payment method). */
  lemma FulfilmentCodIsRouteCod(sale: OF.Sale)
    requires OF.PaymentMethodFor(sale) == "COD"
    ensures PickCod(JObj(map["payment_status" := sale.paymentStatus]))
  {
    var row := JObj(map["payment_status" := sale.paymentStatus]);
    var ps := sale.paymentStatus;
    if Truthy(ps) {
      var s := ToStr(ps);
      assert ToUpper(s) == "COD";
      assert UpperChar(s[0]) == 'C' && UpperChar(s[2]) == 'D';
      TrimNoEdgeSpace(s);
      assert AsUpper(Get(row, "payment_status")) == ToUpper(s);
    }
  }

  /** A payment method written "Cash on delivery" selects COD whatever the
      payment status says. */
  lemma CashOnDeliveryIsCod(status: Json)
    ensures PickCod(JObj(map["payment_status" := status, "payment_method" := JStr("Cash on delivery")]))
  {
    var row := JObj(map["payment_status" := status, "payment_method" := JStr("Cash on delivery")]);
    assert Get(row, "payment_method") == JStr("Cash on delivery");
    assert Or(Get(row, "payment_method"), Get(row, "payment_mode")) == JStr("Cash on delivery");
    CashTextHasCash();
  }

  lemma CashTextHasCash()
    ensures Contains(AsUpper(JStr("Cash on delivery")), "CASH")
  {
    var text := "Cash on delivery";
    assert Coalesce(JStr(text), JStr("")) == JStr(text);
    TrimNoEdgeSpace(text);
    var pm := ToUpper(text);
    assert AsUpper(JStr(text)) == pm;
    assert pm[0] == 'C' && pm[1] == 'A' && pm[2] == 'S' && pm[3] == 'H';
    assert pm[..4] == "CASH";
    assert InfixAt(pm, "CASH", 0);
  }

  /** An accepted pickup pincode: `String(v || '').trim()` when it is
      exactly six characters long. */
  function AcceptedPin(v: Json): (r: Option<string>)
    ensures r.Some? ==> |r.value| == 6 && r.value == TrimmedOr(v)
    ensures r.None? <==> |TrimmedOr(v)| != 6
  {
    var p := TrimmedOr(v);
    if p != "" && |p| == 6 then Some(p) else None
  }

  /** `getPickupPincodeForSale(sale)`. The three lookups are inputs: the
      pincode of the branch's courier warehouse, of the branch itself, and of
      some active branch (`undefined` when the query found no row). The first
      two are consulted only when the sale names a branch. */
  function PickupPincodeForSale(sale: Json, warehousePin: Json, branchPin: Json, anyPin: Json): (r: string)
    ensures r == "" || |r| == 6
    ensures Truthy(Get(sale, "branch_id")) && AcceptedPin(warehousePin).Some? ==> r == AcceptedPin(warehousePin).value
    ensures Truthy(Get(sale, "branch_id")) && AcceptedPin(warehousePin).None? && AcceptedPin(branchPin).Some?
      ==> r == AcceptedPin(branchPin).value
    ensures r != "" ==>
      Some(r) == AcceptedPin(anyPin)
      || (Truthy(Get(sale, "branch_id")) && (Some(r) == AcceptedPin(warehousePin) || Some(r) == AcceptedPin(branchPin)))
    ensures r == "" <==>
      AcceptedPin(anyPin).None?
      && (!Truthy(Get(sale, "branch_id")) || (AcceptedPin(warehousePin).None? && AcceptedPin(branchPin).None?))
  {
    var branchId := Or(Get(sale, "branch_id"), JNull);
    if Truthy(branchId) && AcceptedPin(warehousePin).Some? then AcceptedPin(warehousePin).value
    else if Truthy(branchId) && AcceptedPin(branchPin).Some? then AcceptedPin(branchPin).value
    else AcceptedPin(anyPin).GetOr("")
  }

  // ---------------------------------------------------------------------
  // Document URL pickers
  // ---------------------------------------------------------------------

  const LabelPaths: seq<seq<string>> :=
    [["label_url"], ["label", "label_url"], ["data", "label_url"], ["data", "label", "label_url"]]
  const ManifestPaths: seq<seq<string>> := [["manifest_url"], ["data", "manifest_url"]]
  const InvoicePaths: seq<seq<string>> := [["invoice_url"], ["data", "invoice_url"]]

  /** `pickLabelUrl(data)`: the first present value among the label paths,
      else null. */
  function PickLabelUrl(data: Json): (r: Json)
    ensures r == JNull <==> forall i :: 0 <= i < |LabelPaths| ==> !Truthy(Path(data, LabelPaths[i]))
    ensures r != JNull ==> Truthy(r) && exists i :: 0 <= i < |LabelPaths| && r == Path(data, LabelPaths[i])
  {
    FirstTruthy(data, LabelPaths, JNull)
  }

  /** `pickManifestUrl(data)`. */
  function PickManifestUrl(data: Json): (r: Json)
    ensures r == JNull <==> forall i :: 0 <= i < |ManifestPaths| ==> !Truthy(Path(data, ManifestPaths[i]))
    ensures r != JNull ==> Truthy(r) && exists i :: 0 <= i < |ManifestPaths| && r == Path(data, ManifestPaths[i])
  {
    FirstTruthy(data, ManifestPaths, JNull)
  }

  /** `pickInvoiceUrl(data)`. */
  function PickInvoiceUrl(data: Json): (r: Json)
    ensures r == JNull <==> forall i :: 0 <= i < |InvoicePaths| ==> !Truthy(Path(data, InvoicePaths[i]))
    ensures r != JNull ==> Truthy(r) && exists i :: 0 <= i < |InvoicePaths| && r == Path(data, InvoicePaths[i])
  {
    FirstTruthy(data, InvoicePaths, JNull)
  }

  /** The label picker returns the first present path: a top-level
      `label_url` beats a nested one. */
  lemma LabelUrlPrefersEarlierPaths(data: Json, i: int)
    requires 0 <= i < |LabelPaths| && Truthy(Path(data, LabelPaths[i]))
    requires forall j :: 0 <= j < i ==> !Truthy(Path(data, LabelPaths[j]))
    ensures PickLabelUrl(data) == Path(data, LabelPaths[i])
  {
    FirstTruthyIsFirst(data, LabelPaths, JNull, i);
  }

  /** The manifest picker returns the first present path. */
  lemma ManifestUrlPrefersEarlierPaths(data: Json, i: int)
    requires 0 <= i < |ManifestPaths| && Truthy(Path(data, ManifestPaths[i]))
    requires forall j :: 0 <= j < i ==> !Truthy(Path(data, ManifestPaths[j]))
    ensures PickManifestUrl(data) == Path(data, ManifestPaths[i])
  {
    FirstTruthyIsFirst(data, ManifestPaths, JNull, i);
  }

  /** The invoice picker returns the first present path. */
  lemma InvoiceUrlPrefersEarlierPaths(data: Json, i: int)
    requires 0 <= i < |InvoicePaths| && Truthy(Path(data, InvoicePaths[i]))
    requires forall j :: 0 <= j < i ==> !Truthy(Path(data, InvoicePaths[j]))
    ensures PickInvoiceUrl(data) == Path(data, InvoicePaths[i])
  {
    FirstTruthyIsFirst(data, InvoicePaths, JNull, i);
  }

  // ---------------------------------------------------------------------
  // Warehouse import
  // ---------------------------------------------------------------------

  /** The pickup's trimmed `pin_code`. */
  function PinKey(p: Json): string {
    TrimmedOr(Get(p, "pin_code"))
  }

  /** The pickup's normalised city. */
  function CityKey(p: Json): string {
    Norm(Get(p, "city"))
  }

  /** `ps.findIndex(p => key(p) === target)`, `None` for -1. */
  function FindBy(ps: seq<Json>, key: Json -> string, target: string): (r: Option<nat>)
    ensures r.Some? ==> r.value < |ps| && key(ps[r.value]) == target
    ensures r.Some? ==> forall j :: 0 <= j < r.value ==> key(ps[j]) != target
    ensures r.None? ==> forall j :: 0 <= j < |ps| ==> key(ps[j]) != target
  {
    if ps == [] then None
    else if key(ps[0]) == target then Some(0)
    else match FindBy(ps[1..], key, target)
      case None => None
      case Some(k) => Some(k + 1)
  }

  /** `ps.find(...)`: the element found, or undefined. */
  function Found(ps: seq<Json>, k: Option<nat>): Json {
    if k.Some? && k.value < |ps| then ps[k.value] else JUndef
  }

  /** The pickup chosen for branch row `b`: the first pickup with the
      branch's pincode, else (when the branch has a city) the first pickup in
      the same city. A falsy result means no match. */
  function Best(b: Json, ps: seq<Json>): Json {
    var bpin := TrimmedOr(Get(b, "pincode"));
    var byPin := if bpin != "" then Found(ps, FindBy(ps, PinKey, bpin)) else JNull;
    if !Truthy(byPin) && Truthy(Get(b, "city"))
    then Found(ps, FindBy(ps, CityKey, Norm(Get(b, "city"))))
    else byPin
  }

  /** `best.pickup_location || best.name || b.name`. */
  function PickupName(best: Json, b: Json): Json {
    Or(Or(Get(best, "pickup_location"), Get(best, "name")), Get(b, "name"))
  }

  /** `best.pickup_id || best.id || best.rto_address_id || 0`. */
  function PickupId(best: Json): Json {
    Or(Or(Or(Get(best, "pickup_id"), Get(best, "id")), Get(best, "rto_address_id")), JNum(0))
  }

  /** A row of `shiprocket_warehouses`, keyed by branch id. */
  datatype WarehouseRow = WarehouseRow(
    warehouseId: Json, name: Json, pincode: string, city: Json, state: Json, address: Json, phone: Json)

  /** The row upserted for branch `b` mapped to pickup `best`: pickup
      details win over the branch's own, which win over ''. */
  function RowFor(b: Json, best: Json): WarehouseRow {
    WarehouseRow(
      PickupId(best), PickupName(best, b),
      ToStr(Or(Or(Get(best, "pin_code"), Get(b, "pincode")), JStr(""))),
      Or(Or(Get(best, "city"), Get(b, "city")), JStr("")),
      Or(Or(Get(best, "state"), Get(b, "state")), JStr("")),
      Or(Or(Get(best, "address"), Get(b, "address")), JStr("")),
      Or(Get(b, "phone"), JStr("")))
  }

  /** One entry of the import's `results`; `NoMatch` is the entry carrying
      'No matching pickup found in Shiprocket'. */
  datatype ImportResult =
    | Mapped(branchId: Json, mappedTo: Json, pickupId: Json)
    | NoMatch(branchId: Json)

  /** The result entry for branch row `b`. */
  function EntryFor(b: Json, ps: seq<Json>): (r: ImportResult)
    ensures r.branchId == Get(b, "id")
    ensures r.NoMatch? <==> !Truthy(Best(b, ps))
  {
    var best := Best(b, ps);
    if !Truthy(best) then NoMatch(Get(b, "id"))
    else Mapped(Get(b, "id"), PickupName(best, b), PickupId(best))
  }

  /** The results of importing `bs`: one entry per branch, in branch order. */
  function ImportResults(bs: seq<Json>, ps: seq<Json>): (r: seq<ImportResult>)
    ensures |r| == |bs|
    ensures forall i :: 0 <= i < |bs| ==> r[i] == EntryFor(bs[i], ps)
  {
    MapSeq((b: Json) => EntryFor(b, ps), bs)
  }

  /** The warehouse table after upserting a row for every matched branch of
      `bs`, in order. */
  function Upserted(rows: map<Json, WarehouseRow>, bs: seq<Json>, ps: seq<Json>): map<Json, WarehouseRow> {
    if bs == [] then rows
    else
      var prev := Upserted(rows, bs[..|bs| - 1], ps);
      var b := bs[|bs| - 1];
      var best := Best(b, ps);
      if Truthy(best) then prev[Get(b, "id") := RowFor(b, best)] else prev
  }

  /** A pickup whose pin code equals the branch's trimmed pincode is chosen,
      the first such one, and the city is not consulted. */
  lemma PinMatchWins(b: Json, ps: seq<Json>, k: int)
    requires TrimmedOr(Get(b, "pincode")) != ""
    requires 0 <= k < |ps| && PinKey(ps[k]) == TrimmedOr(Get(b, "pincode"))
    requires forall j :: 0 <= j < k ==> PinKey(ps[j]) != TrimmedOr(Get(b, "pincode"))
    ensures Best(b, ps) == ps[k]
    ensures EntryFor(b, ps) == Mapped(Get(b, "id"), PickupName(ps[k], b), PickupId(ps[k]))
  {
    var bpin := TrimmedOr(Get(b, "pincode"));
    var f := FindBy(ps, PinKey, bpin);
    assert f == Some(k);
    assert ps[k].JObj?;
    assert Found(ps, f) == ps[k];
    assert Truthy(ps[k]);
    var byPin := if bpin != "" then Found(ps, FindBy(ps, PinKey, bpin)) else JNull;
    assert byPin == ps[k];
  }

  /** Without a pincode match, the first pickup in the branch's city (after
      trimming and lower-casing both) is chosen. */
  lemma CityMatchIsFallback(b: Json, ps: seq<Json>, k: int)
    requires forall j :: 0 <= j < |ps| ==> PinKey(ps[j]) != TrimmedOr(Get(b, "pincode"))
    requires Truthy(Get(b, "city"))
    requires 0 <= k < |ps| && CityKey(ps[k]) == Norm(Get(b, "city")) && ps[k].JObj?
    requires forall j :: 0 <= j < k ==> CityKey(ps[j]) != Norm(Get(b, "city"))
    ensures Best(b, ps) == ps[k]
    ensures EntryFor(b, ps).Mapped?
  {
    var bpin := TrimmedOr(Get(b, "pincode"));
    var byPin := if bpin != "" then Found(ps, FindBy(ps, PinKey, bpin)) else JNull;
    if bpin != "" {
      assert FindBy(ps, PinKey, bpin).None?;
    }
    assert !Truthy(byPin);
    var f := FindBy(ps, CityKey, Norm(Get(b, "city")));
    assert f == Some(k);
    assert Found(ps, f) == ps[k];
    assert Truthy(ps[k]);
  }

  /** With neither a pincode nor a city match the branch gets an error
      entry. */
  lemma NoMatchIsError(b: Json, ps: seq<Json>)
    requires forall j :: 0 <= j < |ps| ==> PinKey(ps[j]) != TrimmedOr(Get(b, "pincode"))
    requires !Truthy(Get(b, "city")) || forall j :: 0 <= j < |ps| ==> CityKey(ps[j]) != Norm(Get(b, "city"))
    ensures EntryFor(b, ps) == NoMatch(Get(b, "id"))
  {
    var bpin := TrimmedOr(Get(b, "pincode"));
    if bpin != "" {
      assert FindBy(ps, PinKey, bpin).None?;
    }
    if Truthy(Get(b, "city")) {
      assert FindBy(ps, CityKey, Norm(Get(b, "city"))).None?;
    }
  }

  /** A branch id none of whose branches matched keeps its old row (or its
      absence): unmatched branches are never upserted. */
  lemma {:induction false} UnmatchedKeyUntouched(rows: map<Json, WarehouseRow>, bs: seq<Json>, ps: seq<Json>, k: Json)
    requires forall i :: 0 <= i < |bs| && Get(bs[i], "id") == k ==> !Truthy(Best(bs[i], ps))
    ensures k in Upserted(rows, bs, ps) <==> k in rows
    ensures k in rows ==> Upserted(rows, bs, ps)[k] == rows[k]
  {
    if bs != [] {
      UnmatchedKeyUntouched(rows, bs[..|bs| - 1], ps, k);
    }
  }

  /** The row stored for a matched branch is the one built from its pickup,
      unless a later branch with the same id overwrote it. */
  lemma {:induction false} MatchedKeyHoldsItsRow(rows: map<Json, WarehouseRow>, bs: seq<Json>, ps: seq<Json>, i: int)
    requires 0 <= i < |bs| && Truthy(Best(bs[i], ps))
    requires forall j :: i < j < |bs| ==> Get(bs[j], "id") != Get(bs[i], "id")
    ensures Get(bs[i], "id") in Upserted(rows, bs, ps)
    ensures Upserted(rows, bs, ps)[Get(bs[i], "id")] == RowFor(bs[i], Best(bs[i], ps))
  {
    if i < |bs| - 1 {
      MatchedKeyHoldsItsRow(rows, bs[..|bs| - 1], ps, i);
    }
  }

  /** The `shiprocket_warehouses` table, upserted on `branch_id`. */
  class WarehouseTable {
    var rows: map<Json, WarehouseRow>

    constructor (rows: map<Json, WarehouseRow>)
      ensures this.rows == rows
    {
      this.rows := rows;
    }

    /** `INSERT ... ON CONFLICT (branch_id) DO UPDATE`. */
    method Upsert(branchId: Json, row: WarehouseRow)
      modifies this
      ensures rows == old(rows)[branchId := row]
    {
      rows := rows[branchId := row];
    }
  }

  /** One more branch adds its entry to the results and, when it matched,
      its row to the table. */
  lemma ImportStep(rows: map<Json, WarehouseRow>, bs: seq<Json>, ps: seq<Json>, i: nat)
    requires i < |bs|
    ensures ImportResults(bs[..i + 1], ps) == ImportResults(bs[..i], ps) + [EntryFor(bs[i], ps)]
    ensures Upserted(rows, bs[..i + 1], ps) ==
      if Truthy(Best(bs[i], ps)) then Upserted(rows, bs[..i], ps)[Get(bs[i], "id") := RowFor(bs[i], Best(bs[i], ps))]
      else Upserted(rows, bs[..i], ps)
  {
    MapSeqStep((b: Json) => EntryFor(b, ps), bs, i);
    assert bs[..i + 1][..i] == bs[..i];
    assert bs[..i + 1][i] == bs[i];
  }

  /** `POST /shiprocket/warehouses/import` after the pickup list has been
      fetched: one result per active branch, in branch order, and an upsert
      for each branch that matched. */
  method ImportWarehouses(db: WarehouseTable, branches: seq<Json>, pickups: seq<Json>)
    returns (results: seq<ImportResult>)
    modifies db
    ensures results == ImportResults(branches, pickups)
    ensures db.rows == Upserted(old(db.rows), branches, pickups)
  {
    results := [];
    var i := 0;
    while i < |branches|
      invariant 0 <= i <= |branches|
      invariant results == ImportResults(branches[..i], pickups)
      invariant db.rows == Upserted(old(db.rows), branches[..i], pickups)
    {
      var b := branches[i];
      var bpincode := TrimmedOr(Get(b, "pincode"));
      var best := JNull;
      if bpincode != "" {
        best := Found(pickups, FindBy(pickups, PinKey, bpincode));
      }
      if !Truthy(best) && Truthy(Get(b, "city")) {
        best := Found(pickups, FindBy(pickups, CityKey, Norm(Get(b, "city"))));
      }
      assert best == Best(b, pickups);
      ImportStep(old(db.rows), branches, pickups, i);
      if !Truthy(best) {
        results := results + [NoMatch(Get(b, "id"))];
      } else {
        db.Upsert(Get(b, "id"), RowFor(b, best));
        results := results + [Mapped(Get(b, "id"), PickupName(best, b), PickupId(best))];
      }
      i := i + 1;
    }
    assert branches[..|branches|] == branches;
  }

  // ---------------------------------------------------------------------
  // Order ids for the invoice and manifest printers
  // ---------------------------------------------------------------------

  /** `rows.map(r => r.shiprocket_order_id).filter(v => v != null)`. */
  function OrderIdsOf(rows: seq<Json>): (ids: seq<Json>)
    ensures |ids| <= |rows|
    ensures forall x :: x in ids <==> !Nullish(x) && exists i :: 0 <= i < |rows| && Get(rows[i], "shiprocket_order_id") == x
  {
    if rows == [] then []
    else
      var prev := OrderIdsOf(rows[..|rows| - 1]);
      var v := Get(rows[|rows| - 1], "shiprocket_order_id");
      assert forall i :: 0 <= i < |rows| - 1 ==> rows[..|rows| - 1][i] == rows[i];
      if Nullish(v) then prev else prev + [v]
  }

  predicate NoDuplicates(xs: seq<Json>) {
    forall i, j :: 0 <= i < j < |xs| ==> xs[i] != xs[j]
  }

  /** The position of the first occurrence of `x` in `xs`. */
  function IndexOf(xs: seq<Json>, x: Json): (k: nat)
    requires x in xs
    ensures k < |xs| && xs[k] == x
    ensures forall j :: 0 <= j < k ==> xs[j] != x
  {
    if xs[0] == x then 0 else 1 + IndexOf(xs[1..], x)
  }

  /** `Array.from(new Set(xs))`: duplicates removed, first occurrences kept. */
  function Dedup(xs: seq<Json>): (r: seq<Json>)
    ensures NoDuplicates(r)
    ensures forall x :: x in r <==> x in xs
    ensures |r| <= |xs|
  {
    if xs == [] then []
    else
      var prev := Dedup(xs[..|xs| - 1]);
      var x := xs[|xs| - 1];
      assert forall y :: y in xs <==> y in xs[..|xs| - 1] || y == x;
      if x in prev then prev else prev + [x]
  }

  /** The deduplicated ids keep the order of their first occurrences. */
  lemma {:induction false} DedupKeepsFirstOccurrenceOrder(xs: seq<Json>, i: int, j: int)
    requires 0 <= i < j < |Dedup(xs)|
    ensures IndexOf(xs, Dedup(xs)[i]) < IndexOf(xs, Dedup(xs)[j])
  {
    var init := xs[..|xs| - 1];
    var prev := Dedup(init);
    var x := xs[|xs| - 1];
    var a := Dedup(xs)[i];
    var b := Dedup(xs)[j];
    IndexOfPrefix(xs, init, a);
    if j < |prev| {
      DedupKeepsFirstOccurrenceOrder(init, i, j);
      IndexOfPrefix(xs, init, b);
    } else {
      assert b == x && x !in prev;
      assert x !in init;
      var kb := IndexOf(xs, b);
      assert kb == |xs| - 1;
    }
  }

  /** First occurrences found in a prefix are first occurrences in the whole. */
  lemma IndexOfPrefix(xs: seq<Json>, init: seq<Json>, x: Json)
    requires |init| <= |xs| && init == xs[..|init|] && x in init
    ensures IndexOf(xs, x) == IndexOf(init, x)
  {
    var k := IndexOf(init, x);
    assert xs[k] == x;
    var m := IndexOf(xs, x);
    assert m <= k;
    assert m < |init| && init[m] == x;
  }

  /** Removing duplicates twice removes nothing more. */
  lemma DedupIdempotent(xs: seq<Json>)
    ensures Dedup(Dedup(xs)) == Dedup(xs)
  {
    DedupOfDistinct(Dedup(xs));
  }

  lemma {:induction false} DedupOfDistinct(xs: seq<Json>)
    requires NoDuplicates(xs)
    ensures Dedup(xs) == xs
  {
    if xs != [] {
      var init := xs[..|xs| - 1];
      assert NoDuplicates(init);
      DedupOfDistinct(init);
      assert xs[|xs| - 1] !in init;
      assert init + [xs[|xs| - 1]] == xs;
    }
  }

  /** The outcome of collecting the order ids to print. */
  datatype PrintIds =
    | NoShipments    // 404 'No shipments found for this sale'
    | NoOrderIds     // 404 'No Shiprocket order ids found'
    | Print(ids: seq<Json>)

  /** The id list sent by `GET /shiprocket/invoice/:saleId` and
      `GET /shiprocket/manifest/print/:saleId`, from the sale's shipment
      rows. */
  function OrderIdsToPrint(rows: seq<Json>): (r: PrintIds)
    ensures r.NoShipments? <==> rows == []
    ensures r.NoOrderIds? <==>
      rows != [] && forall i :: 0 <= i < |rows| ==> Nullish(Get(rows[i], "shiprocket_order_id"))
    ensures r.Print? ==> r.ids != [] && NoDuplicates(r.ids) && r.ids == Dedup(OrderIdsOf(rows))
  {
    if rows == [] then NoShipments
    else
      var ids := Dedup(OrderIdsOf(rows));
      assert ids == [] <==> OrderIdsOf(rows) == [] by {
        if OrderIdsOf(rows) != [] {
          assert OrderIdsOf(rows)[0] in ids;
        }
      }
      assert OrderIdsOf(rows) != [] <==> exists i :: 0 <= i < |rows| && !Nullish(Get(rows[i], "shiprocket_order_id")) by {
        if OrderIdsOf(rows) != [] {
          assert OrderIdsOf(rows)[0] in OrderIdsOf(rows);
        }
        if i :| 0 <= i < |rows| && !Nullish(Get(rows[i], "shiprocket_order_id")) {
          assert Get(rows[i], "shiprocket_order_id") in OrderIdsOf(rows);
        }
      }
      if ids == [] then
        NoOrderIds
      else
        Print(ids)
  }

  // ---------------------------------------------------------------------
  // Webhook and pincode check
  // ---------------------------------------------------------------------

  /** A `shipments` row as far as the webhook touches it. */
  datatype ShipmentRecord = ShipmentRecord(shipmentId: Json, status: Json)

  /** The (shipment id, status) pair the webhook applies, when both are
      present at the top level or under `data`. */
  function WebhookUpdate(body: Json): (r: Option<(Json, Json)>)
    ensures r.Some? ==> Truthy(r.value.0) && Truthy(r.value.1)
  {
    var payload := Or(body, JObj(map[]));
    var sid := Or(Or(Get(payload, "shipment_id"), Path(payload, ["data", "shipment_id"])), JNull);
    var st := Or(Or(Get(payload, "current_status"), Path(payload, ["data", "current_status"])), JNull);
    if Truthy(sid) && Truthy(st) then Some((sid, st)) else None
  }

  /** The webhook's answer and the shipments table after it. */
  datatype WebhookResult = WebhookResult(ok: bool, rows: seq<ShipmentRecord>)

  /** `POST /shiprocket/webhook`; `dbFails` says the update threw. The SQL
      comparison of the id column with the parameter is taken on string
      forms. */
  function Webhook(body: Json, rows: seq<ShipmentRecord>, dbFails: bool): (r: WebhookResult)
    ensures r.ok
    ensures |r.rows| == |rows|
    ensures WebhookUpdate(body).None? || dbFails ==> r.rows == rows
    ensures forall i :: 0 <= i < |rows| ==> r.rows[i].shipmentId == rows[i].shipmentId
    ensures forall i :: 0 <= i < |rows| && r.rows[i].status != rows[i].status ==>
      WebhookUpdate(body).Some? && r.rows[i].status == WebhookUpdate(body).value.1
      && ToStr(rows[i].shipmentId) == ToStr(WebhookUpdate(body).value.0)
    ensures WebhookUpdate(body).Some? && !dbFails ==> forall i :: 0 <= i < |rows| ==>
      ToStr(rows[i].shipmentId) == ToStr(WebhookUpdate(body).value.0) ==> r.rows[i].status == WebhookUpdate(body).value.1
  {
    match WebhookUpdate(body)
    case None => WebhookResult(true, rows)
    case Some((sid, st)) =>
      if dbFails then WebhookResult(true, rows)
      else
        WebhookResult(true, seq(|rows|, i requires 0 <= i < |rows| =>
          if ToStr(rows[i].shipmentId) == ToStr(sid) then rows[i].(status := st) else rows[i]))
  }

  /** The answers of `GET /shiprocket/pincode`. */
  datatype PincodeReply =
    | InvalidPincode     // 400
    | NoPickupPincode    // 500 'No pickup pincode configured'
    | CheckFailed        // 500, the token or the courier call failed
    | Serviceability(serviceable: bool, estDelivery: Json, codAvailable: bool)

  /** `data.data.available_courier_companies` when it is an array, else []. */
  function CourierList(data: Json): seq<Json> {
    var l := Path(data, ["data", "available_courier_companies"]);
    if l.JArr? then l.elems else []
  }

  /** `GET /shiprocket/pincode?pincode=...`. `activePin` is the pincode of the
      first active branch (`undefined` without one), `courier` the outcome of
      obtaining the token and asking the courier for serviceability. */
  function PincodeCheck(query: Json, activePin: Json, courier: SR.Reply): (r: PincodeReply)
    ensures r == InvalidPincode <==> |TrimmedOr(query)| != 6
    ensures r == NoPickupPincode <==> |TrimmedOr(query)| == 6 && TrimmedOr(activePin) == ""
    ensures r.Serviceability? ==> courier.Ok?
    ensures r.Serviceability? ==> (r.serviceable <==> CourierList(courier.data) != [])
    ensures r.Serviceability? ==> (r.codAvailable <==>
      exists i :: 0 <= i < |CourierList(courier.data)| && NumberOf(Get(CourierList(courier.data)[i], "cod")) == Some(1))
    ensures r.Serviceability? && !r.serviceable ==> r.estDelivery == JNull && !r.codAvailable
  {
    var deliveryPin := TrimmedOr(query);
    if deliveryPin == "" || |deliveryPin| != 6 then InvalidPincode
    else if TrimmedOr(activePin) == "" then NoPickupPincode
    else match courier
      case Threw => CheckFailed
      case Ok(data) =>
        var list := CourierList(data);
        Serviceability(
          |list| > 0,
          if |list| > 0 then Or(Get(list[0], "etd"), JNull) else JNull,
          exists i :: 0 <= i < |list| && NumberOf(Get(list[i], "cod")) == Some(1))
  }

  /** As written, services/shiprocketService.js defines no
      `checkServiceability`, so the courier step always throws (a
      TypeError caught by the handler). A pincode and pickup pincode that
      pass the checks then always get the 500 reply, and no request ever
      receives a serviceability answer. */
  lemma PincodeCheckAsWritten(query: Json, activePin: Json)
    ensures !PincodeCheck(query, activePin, SR.Threw).Serviceability?
    ensures |TrimmedOr(query)| == 6 && TrimmedOr(activePin) != "" ==>
      PincodeCheck(query, activePin, SR.Threw) == CheckFailed
  {
  }
}
