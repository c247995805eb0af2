/** The split planner and fulfilment driver of services/orderFulfillment.js.

    For every line item a branch is picked (a forced branch, else the
    branches whose stock covers the quantity, preferring the delivery
    pincode, then the nearest, then the first, with a fallback branch when
    none qualifies); items are grouped by branch; then one courier order is
    created per group. Stock is only read here.

    Inputs that the source fetches are parameters: the branch_variant_stock
    rows joined with branches (`stock`, `branchPins`), whether the customer's
    location is known and the distance from it to each branch (`located`,
    `dist`: the haversine formula is not modelled), the warehouse mapping,
    and the courier's replies. */
module OrderFulfillment {
  import opened Common
  import opened Js
  import SR = ShiprocketService

  // ---------------------------------------------------------------------
  // Branch choice for one item

  /** SHIPROCKET_FORCE_BRANCH_ID and SHIPROCKET_FALLBACK_BRANCH_ID. */
  datatype Config = Config(forceBranch: Option<int>, fallbackBranch: Option<int>)

  datatype StockRow = StockRow(branchId: int, variantId: int, onHand: int, reserved: int)

  /** A row of `candidateBranches`: a branch id with its pincode. */
  datatype Candidate = Candidate(id: int, pincode: Json)

  /** Everything the planner reads besides the sale. */
  datatype Ctx = Ctx(
    cfg: Config,
    stock: seq<StockRow>,
    branchPins: map<int, Json>,
    located: bool,
    dist: int -> int)

  /** The stock condition of services/orderFulfillment.js:43. */
  predicate Covers(row: StockRow, variantId: int, qty: int) {
    row.variantId == variantId && row.onHand - row.reserved >= qty
  }

  /** The rows of `candidateBranches`, in table order: each stock row of the
      variant whose available quantity covers `qty`, joined to its branch. */
  function Candidates(stock: seq<StockRow>, branchPins: map<int, Json>, variantId: int, qty: int): (rows: seq<Candidate>)
    ensures |rows| <= |stock|
  {
    if stock == [] then []
    else
      var s := stock[0];
      var rest := Candidates(stock[1..], branchPins, variantId, qty);
      if Covers(s, variantId, qty) && s.branchId in branchPins
      then [Candidate(s.branchId, branchPins[s.branchId])] + rest
      else rest
  }

  /** Every candidate comes from a stock row that covers the quantity. */
  lemma {:induction false} CandidateHasStock(stock: seq<StockRow>, branchPins: map<int, Json>, variantId: int, qty: int, c: Candidate)
    requires c in Candidates(stock, branchPins, variantId, qty)
    ensures exists s :: s in stock && s.branchId == c.id && Covers(s, variantId, qty)
  {
    var s := stock[0];
    if !(Covers(s, variantId, qty) && s.branchId in branchPins && c == Candidate(s.branchId, branchPins[s.branchId])) {
      CandidateHasStock(stock[1..], branchPins, variantId, qty, c);
      var t :| t in stock[1..] && t.branchId == c.id && Covers(t, variantId, qty);
      assert t in stock;
    }
  }

  /** Every stock row that covers the quantity, at a known branch, yields a
      candidate. */
  lemma {:induction false} StockYieldsCandidate(stock: seq<StockRow>, branchPins: map<int, Json>, variantId: int, qty: int, i: nat)
    requires i < |stock| && Covers(stock[i], variantId, qty) && stock[i].branchId in branchPins
    ensures Candidate(stock[i].branchId, branchPins[stock[i].branchId]) in Candidates(stock, branchPins, variantId, qty)
  {
    if i > 0 {
      StockYieldsCandidate(stock[1..], branchPins, variantId, qty, i - 1);
    }
  }

  /** The candidates whose pincode, as a string, equals the delivery pincode;
      none at all when the sale has no pincode. */
  function SamePin(rows: seq<Candidate>, pin: Json): (r: seq<Candidate>)
    ensures |r| <= |rows|
    ensures !Truthy(pin) ==> r == []
  {
    if rows == [] || !Truthy(pin) then []
    else
      var rest := SamePin(rows[1..], pin);
      if ToStr(rows[0].pincode) == ToStr(pin) then [rows[0]] + rest else rest
  }

  /** The pincode matches are exactly the candidates with that pincode. */
  lemma {:induction false} SamePinMembers(rows: seq<Candidate>, pin: Json, c: Candidate)
    ensures c in SamePin(rows, pin) <==> c in rows && Truthy(pin) && ToStr(c.pincode) == ToStr(pin)
  {
    if rows != [] && Truthy(pin) {
      SamePinMembers(rows[1..], pin, c);
      assert c in rows <==> c == rows[0] || c in rows[1..];
    }
  }

  /** The pool the choice is made from: the pincode matches if any, else all. */
  function Pool(rows: seq<Candidate>, pin: Json): seq<Candidate> {
    var same := SamePin(rows, pin);
    if same != [] then same else rows
  }

  /** The first candidate of least distance: the head of a stable sort by
      distance. */
  function FirstNearest(pool: seq<Candidate>, dist: int -> int): (k: nat)
    requires pool != []
    ensures k < |pool|
    ensures forall j :: 0 <= j < |pool| ==> dist(pool[k].id) <= dist(pool[j].id)
    ensures forall j :: 0 <= j < k ==> dist(pool[j].id) > dist(pool[k].id)
  {
    if |pool| == 1 then 0
    else
      var k := FirstNearest(pool[..|pool| - 1], dist);
      if dist(pool[|pool| - 1].id) < dist(pool[k].id) then |pool| - 1 else k
  }

  /** `sale.shipping_address?.pincode || sale.pincode || null`. */
  function DeliveryPin(shippingAddress: Json, salePincode: Json): Json {
    Or(Or(Get(shippingAddress, "pincode"), salePincode), JNull)
  }

  /** `pickBranchForItem` (services/orderFulfillment.js:49-70). */
  function PickBranch(ctx: Ctx, pin: Json, variantId: int, qty: int): Option<int> {
    if ctx.cfg.forceBranch.Some? then ctx.cfg.forceBranch
    else
      var rows := Candidates(ctx.stock, ctx.branchPins, variantId, qty);
      if rows == [] then ctx.cfg.fallbackBranch
      else
        var pool := Pool(rows, pin);
        Some(pool[if ctx.located then FirstNearest(pool, ctx.dist) else 0].id)
  }

  /** Without a forced branch, a chosen branch that is not the fallback
      holds a stock row covering the quantity. */
  lemma PickedBranchHasStock(ctx: Ctx, pin: Json, variantId: int, qty: int)
    requires ctx.cfg.forceBranch.None?
    requires Candidates(ctx.stock, ctx.branchPins, variantId, qty) != []
    ensures PickBranch(ctx, pin, variantId, qty).Some?
    ensures exists s :: s in ctx.stock && s.branchId == PickBranch(ctx, pin, variantId, qty).value && Covers(s, variantId, qty)
  {
    var rows := Candidates(ctx.stock, ctx.branchPins, variantId, qty);
    var pool := Pool(rows, pin);
    var k := if ctx.located then FirstNearest(pool, ctx.dist) else 0;
    SamePinMembers(rows, pin, pool[k]);
    CandidateHasStock(ctx.stock, ctx.branchPins, variantId, qty, pool[k]);
  }

  /** When some candidate has the delivery pincode, the chosen branch is one
      of those. */
  lemma PickedBranchPrefersPincode(ctx: Ctx, pin: Json, variantId: int, qty: int, c: Candidate)
    requires ctx.cfg.forceBranch.None?
    requires c in Candidates(ctx.stock, ctx.branchPins, variantId, qty)
    requires Truthy(pin) && ToStr(c.pincode) == ToStr(pin)
    ensures exists d ::
      d in Candidates(ctx.stock, ctx.branchPins, variantId, qty) &&
      Some(d.id) == PickBranch(ctx, pin, variantId, qty) && ToStr(d.pincode) == ToStr(pin)
  {
    var rows := Candidates(ctx.stock, ctx.branchPins, variantId, qty);
    var pool := Pool(rows, pin);
    SamePinMembers(rows, pin, c);
    var k := if ctx.located then FirstNearest(pool, ctx.dist) else 0;
    assert pool[k] in SamePin(rows, pin);
    SamePinMembers(rows, pin, pool[k]);
  }

  /** With a known location the chosen branch is no farther than any branch
      of the pool; without one it is the first of the pool. */
  lemma PickedBranchIsNearest(ctx: Ctx, pin: Json, variantId: int, qty: int)
    requires ctx.cfg.forceBranch.None?
    requires Candidates(ctx.stock, ctx.branchPins, variantId, qty) != []
    ensures var pool := Pool(Candidates(ctx.stock, ctx.branchPins, variantId, qty), pin);
      var r := PickBranch(ctx, pin, variantId, qty);
      r.Some? &&
      (ctx.located ==> forall c :: c in pool ==> ctx.dist(r.value) <= ctx.dist(c.id)) &&
      (!ctx.located ==> r.value == pool[0].id)
  {
    var pool := Pool(Candidates(ctx.stock, ctx.branchPins, variantId, qty), pin);
    if ctx.located {
      var k := FirstNearest(pool, ctx.dist);
      forall c | c in pool
        ensures ctx.dist(pool[k].id) <= ctx.dist(c.id)
      {
        var j :| 0 <= j < |pool| && pool[j] == c;
      }
    }
  }

  // ---------------------------------------------------------------------
  // Planning

  datatype PlanError =
    | InvalidItem          // 'Invalid item variant/qty'
    | OutOfStock(variantId: int)  // 'Out of stock for variant <id>'
    | StockQueryFailed     // the stock query given a NaN quantity

  datatype Outcome<T> = Done(value: T) | Failed(error: PlanError)

  /** One line item after its branch was chosen; `item` is the normalised
      copy `{ ...it, variant_id, qty }`. */
  datatype Line = Line(branch: int, variantId: int, qty: int, item: Json)

  datatype Group = Group(branchId: int, items: seq<Json>)

  /** `Number(it?.variant_id ?? it?.variantId ?? it?.id ?? 0)`. */
  function ItemVariant(it: Json): Option<int> {
    NumberOf(Coalesce(Coalesce(Coalesce(Get(it, "variant_id"), Get(it, "variantId")), Get(it, "id")), JNum(0)))
  }

  /** `Number(it?.qty ?? it?.quantity ?? 1)`. */
  function ItemQty(it: Json): (q: Option<int>)
    ensures Nullish(Get(it, "qty")) && Nullish(Get(it, "quantity")) ==> q == Some(1)
  {
    NumberOf(Coalesce(Coalesce(Get(it, "qty"), Get(it, "quantity")), JNum(1)))
  }

  /** The guard `!variantId || qty <= 0` (a NaN quantity passes it). */
  predicate InvalidLine(it: Json) {
    var v := ItemVariant(it);
    var q := ItemQty(it);
    v.None? || v.value == 0 || (q.Some? && q.value <= 0)
  }

  /** `{ ...it, variant_id: v, qty: q }` (non-object items spread to `{}`). */
  function Spread(it: Json, v: int, q: int): (r: Json)
    ensures Get(r, "variant_id") == JNum(v) && Get(r, "qty") == JNum(q)
  {
    var base := if it.JObj? then it.fields else map[];
    JObj(base["variant_id" := JNum(v)]["qty" := JNum(q)])
  }

  /** One iteration of the planning loop (services/orderFulfillment.js:81-89). */
  function AssignOne(ctx: Ctx, pin: Json, it: Json): Outcome<Line>
  {
    var v := ItemVariant(it);
    var q := ItemQty(it);
    if v.None? || v.value == 0 || (q.Some? && q.value <= 0) then Failed(InvalidItem)
    else if q.None? then Failed(StockQueryFailed)
    else
      var b := PickBranch(ctx, pin, v.value, q.value);
      if b.None? || b.value == 0 then Failed(OutOfStock(v.value))
      else Done(Line(b.value, v.value, q.value, Spread(it, v.value, q.value)))
  }

  /** An invalid item is rejected; an accepted item keeps its parsed
      variant and a positive quantity, is normalised, and goes to the
      non-zero branch the branch choice returned. */
  lemma AssignOneFacts(ctx: Ctx, pin: Json, it: Json)
    ensures var r := AssignOne(ctx, pin, it);
      && (InvalidLine(it) ==> r == Failed(InvalidItem))
      && (r.Done? ==>
        && r.value.item == Spread(it, r.value.variantId, r.value.qty)
        && ItemVariant(it) == Some(r.value.variantId) && ItemQty(it) == Some(r.value.qty)
        && r.value.qty > 0 && r.value.branch != 0
        && Some(r.value.branch) == PickBranch(ctx, pin, r.value.variantId, r.value.qty))
  {
  }

  /** The branch choices for a list of items, stopping at the first error. */
  function Assign(ctx: Ctx, pin: Json, items: seq<Json>): Outcome<seq<Line>> {
    if items == [] then Done([])
    else
      match Assign(ctx, pin, items[..|items| - 1])
      case Failed(e) => Failed(e)
      case Done(lines) =>
        match AssignOne(ctx, pin, items[|items| - 1])
        case Failed(e) => Failed(e)
        case Done(l) => Done(lines + [l])
  }

  /** The set of branches the lines were assigned to. */
  function Branches(lines: seq<Line>): set<int> {
    if lines == [] then {} else Branches(lines[..|lines| - 1]) + {lines[|lines| - 1].branch}
  }

  /** The items assigned to branch `b`, in input order. */
  function ItemsFor(lines: seq<Line>, b: int): seq<Json> {
    if lines == [] then []
    else ItemsFor(lines[..|lines| - 1], b) + (if lines[|lines| - 1].branch == b then [lines[|lines| - 1].item] else [])
  }

  /** One group per key of `ks`, in that order. */
  function GroupsAt(lines: seq<Line>, ks: seq<int>): (gs: seq<Group>)
    ensures |gs| == |ks|
    ensures forall j :: 0 <= j < |ks| ==> gs[j] == Group(ks[j], ItemsFor(lines, ks[j]))
  {
    if ks == [] then [] else [Group(ks[0], ItemsFor(lines, ks[0]))] + GroupsAt(lines, ks[1..])
  }

  // ---------------------------------------------------------------------
  // The iteration order of the grouping object

  /** A key that JavaScript treats as an array index (0 to 2^32 - 2). An
      object lists such keys first, in ascending order, and its other keys
      after them, in the order they were created. */
  predicate IsIndexKey(k: int) {
    0 <= k < 0xFFFF_FFFF
  }

  predicate Distinct(ks: seq<int>) {
    forall i, j :: 0 <= i < j < |ks| ==> ks[i] != ks[j]
  }

  /** The keys of `ks` that are not array indices, in their order. */
  function NonIndexKeys(ks: seq<int>): (r: seq<int>)
    ensures forall k :: k in r <==> k in ks && !IsIndexKey(k)
  {
    if ks == [] then []
    else
      assert forall k :: k in ks <==> k == ks[0] || k in ks[1..];
      (if IsIndexKey(ks[0]) then [] else [ks[0]]) + NonIndexKeys(ks[1..])
  }

  lemma {:induction false} NonIndexKeysDistinct(ks: seq<int>)
    requires Distinct(ks)
    ensures Distinct(NonIndexKeys(ks))
  {
    if ks != [] {
      assert Distinct(ks[1..]);
      NonIndexKeysDistinct(ks[1..]);
      assert ks[0] !in ks[1..];
    }
  }

  /** The keys of `keys` that are array indices, in ascending order. */
  function IndexKeys(keys: set<int>): (r: seq<int>)
    ensures forall i :: 0 <= i < |r| ==> IsIndexKey(r[i])
  {
    SortedKeys(set k | k in keys && IsIndexKey(k))
  }

  /** The keys of an object holding the integer keys `keys`, created in the
      order `created`, in the order `Object.entries` lists them. */
  function ObjectKeys(keys: set<int>, created: seq<int>): seq<int> {
    IndexKeys(keys) + NonIndexKeys(created)
  }

  /** An object lists its index keys that are in `keys` and its other keys
      that were created, and an index key only after index keys smaller
      than it. */
  lemma ObjectKeysFacts(keys: set<int>, created: seq<int>)
    ensures var ks := ObjectKeys(keys, created);
      && (forall k :: k in ks <==> (IsIndexKey(k) && k in keys) || (!IsIndexKey(k) && k in created))
      && (forall j, k :: 0 <= j < k < |ks| && IsIndexKey(ks[k]) ==> IsIndexKey(ks[j]) && ks[j] < ks[k])
  {
    var index := IndexKeys(keys);
    var rest := NonIndexKeys(created);
    assert forall i :: 0 <= i < |rest| ==> rest[i] in rest;
  }

  lemma ObjectKeysDistinct(keys: set<int>, created: seq<int>)
    requires Distinct(created)
    ensures Distinct(ObjectKeys(keys, created))
  {
    var index := IndexKeys(keys);
    var rest := NonIndexKeys(created);
    NonIndexKeysDistinct(created);
    assert forall i :: 0 <= i < |rest| ==> rest[i] in rest;
    assert ObjectKeys(keys, created) == index + rest;
  }

  /** The branches of the lines in order of first appearance: the order in
      which the planning loop created the grouping object's keys. */
  function FirstSeen(lines: seq<Line>): seq<int> {
    if lines == [] then []
    else
      var pre := lines[..|lines| - 1];
      var b := lines[|lines| - 1].branch;
      FirstSeen(pre) + (if b in Branches(pre) then [] else [b])
  }

  lemma {:induction false} FirstSeenMembers(lines: seq<Line>)
    ensures forall k :: k in FirstSeen(lines) <==> k in Branches(lines)
  {
    if lines != [] {
      FirstSeenMembers(lines[..|lines| - 1]);
    }
  }

  lemma {:induction false} FirstSeenDistinct(lines: seq<Line>)
    ensures Distinct(FirstSeen(lines))
  {
    if lines != [] {
      FirstSeenMembers(lines[..|lines| - 1]);
      FirstSeenDistinct(lines[..|lines| - 1]);
    }
  }

  /** The keys of the grouping object of `lines`, in iteration order. */
  function GroupKeys(lines: seq<Line>): seq<int> {
    ObjectKeys(Branches(lines), FirstSeen(lines))
  }

  lemma GroupKeysMembers(lines: seq<Line>)
    ensures forall k :: k in GroupKeys(lines) <==> k in Branches(lines)
  {
    ObjectKeysFacts(Branches(lines), FirstSeen(lines));
    FirstSeenMembers(lines);
  }

  lemma GroupKeysDistinct(lines: seq<Line>)
    ensures Distinct(GroupKeys(lines))
  {
    FirstSeenDistinct(lines);
    ObjectKeysDistinct(Branches(lines), FirstSeen(lines));
  }

  /** One key per branch. */
  lemma GroupKeysCount(lines: seq<Line>)
    ensures KeySet(GroupKeys(lines)) == Branches(lines)
    ensures |GroupKeys(lines)| == |Branches(lines)|
  {
    GroupKeysMembers(lines);
    GroupKeysDistinct(lines);
    ListsSet(GroupKeys(lines), Branches(lines));
  }

  lemma {:induction false} BranchHasLine(lines: seq<Line>, b: int) returns (i: nat)
    requires b in Branches(lines)
    ensures i < |lines| && lines[i].branch == b
  {
    var n := |lines| - 1;
    if lines[n].branch == b {
      i := n;
    } else {
      i := BranchHasLine(lines[..n], b);
    }
  }

  lemma {:induction false} LineBranches(lines: seq<Line>)
    ensures forall i :: 0 <= i < |lines| ==> lines[i].branch in Branches(lines)
  {
    if lines != [] {
      var n := |lines| - 1;
      LineBranches(lines[..n]);
      assert forall i :: 0 <= i < n ==> lines[i] == lines[..n][i];
    }
  }

  /** A key created before another has a line before every line of the
      later key. */
  lemma {:induction false} FirstSeenOrder(lines: seq<Line>, p: nat, q: nat, later: nat) returns (i: nat)
    requires p < q < |FirstSeen(lines)|
    requires later < |lines| && lines[later].branch == FirstSeen(lines)[q]
    ensures i < later && lines[i].branch == FirstSeen(lines)[p]
  {
    var n := |lines| - 1;
    var pre := lines[..n];
    var b := lines[n].branch;
    LineBranches(pre);
    FirstSeenMembers(pre);
    if b in Branches(pre) {
      if later < n {
        assert pre[later] == lines[later];
        i := FirstSeenOrder(pre, p, q, later);
      } else {
        var first := BranchHasLine(pre, b);
        i := FirstSeenOrder(pre, p, q, first);
      }
    } else if q < |FirstSeen(pre)| {
      assert FirstSeen(pre)[q] in FirstSeen(pre);
      assert later < n;
      assert pre[later] == lines[later];
      i := FirstSeenOrder(pre, p, q, later);
    } else {
      assert FirstSeen(pre)[p] in FirstSeen(pre);
      i := BranchHasLine(pre, FirstSeen(pre)[p]);
      assert later == n;
    }
  }

  lemma PositionOf(ks: seq<int>, k: int) returns (i: nat)
    requires k in ks
    ensures i < |ks| && ks[i] == k
  {
    i :| 0 <= i < |ks| && ks[i] == k;
  }

  /** Two positions in the non-index keys come from positions in the same
      order in the whole list. */
  lemma {:induction false} NonIndexKeysOrder(ks: seq<int>, a: nat, c: nat) returns (p: nat, q: nat)
    requires a < c < |NonIndexKeys(ks)|
    ensures p < q < |ks| && ks[p] == NonIndexKeys(ks)[a] && ks[q] == NonIndexKeys(ks)[c]
  {
    var tail := NonIndexKeys(ks[1..]);
    if IsIndexKey(ks[0]) {
      assert NonIndexKeys(ks) == tail;
      p, q := NonIndexKeysOrder(ks[1..], a, c);
      p, q := p + 1, q + 1;
    } else {
      assert NonIndexKeys(ks) == [ks[0]] + tail;
      if a == 0 {
        q := PositionOf(ks[1..], tail[c - 1]);
        p, q := 0, q + 1;
      } else {
        p, q := NonIndexKeysOrder(ks[1..], a - 1, c - 1);
        p, q := p + 1, q + 1;
      }
    }
  }

  /** What `planShipmentsForOrder` returns (services/orderFulfillment.js:72-96). */
  ghost function Plan(ctx: Ctx, pin: Json, items: seq<Json>): Outcome<seq<Group>> {
    if ctx.cfg.forceBranch.Some? then Done([Group(ctx.cfg.forceBranch.value, items)])
    else
      match Assign(ctx, pin, items)
      case Failed(e) => Failed(e)
      case Done(lines) => Done(Grouping(lines))
  }

  lemma {:induction false} AssignFailurePersists(ctx: Ctx, pin: Json, items: seq<Json>, i: nat)
    requires i <= |items| && Assign(ctx, pin, items[..i]).Failed?
    ensures Assign(ctx, pin, items) == Assign(ctx, pin, items[..i])
    decreases |items| - i
  {
    if i < |items| {
      assert items[..i + 1][..i] == items[..i];
      AssignFailurePersists(ctx, pin, items, i + 1);
    } else {
      assert items[..i] == items;
    }
  }

  lemma AssignStep(ctx: Ctx, pin: Json, items: seq<Json>, i: nat, lines: seq<Line>)
    requires i < |items| && Assign(ctx, pin, items[..i]) == Done(lines)
    ensures AssignOne(ctx, pin, items[i]).Failed? ==>
      Assign(ctx, pin, items) == Failed(AssignOne(ctx, pin, items[i]).error)
    ensures AssignOne(ctx, pin, items[i]).Done? ==>
      Assign(ctx, pin, items[..i + 1]) == Done(lines + [AssignOne(ctx, pin, items[i]).value])
  {
    assert items[..i + 1][..i] == items[..i];
    assert items[..i + 1][i] == items[i];
    if AssignOne(ctx, pin, items[i]).Failed? {
      AssignFailurePersists(ctx, pin, items, i + 1);
    }
  }

  lemma LinesStep(lines: seq<Line>, l: Line)
    ensures Branches(lines + [l]) == Branches(lines) + {l.branch}
    ensures forall b :: ItemsFor(lines + [l], b) == ItemsFor(lines, b) + (if l.branch == b then [l.item] else [])
  {
    assert (lines + [l])[..|lines|] == lines;
  }

  lemma {:induction false} ItemsForAbsent(lines: seq<Line>, b: int)
    requires b !in Branches(lines)
    ensures ItemsFor(lines, b) == []
  {
    if lines != [] {
      ItemsForAbsent(lines[..|lines| - 1], b);
    }
  }

  /** The map holds, for each branch the lines name, the items of the lines
      of that branch. */
  predicate GroupsMatch(groups: map<int, seq<Json>>, lines: seq<Line>) {
    && groups.Keys == Branches(lines)
    && forall b :: b in groups ==> groups[b] == ItemsFor(lines, b)
  }

  /** Appending one line to its branch's list keeps the map equal to the
      grouping of the lines so far. */
  lemma GroupingStep(groups: map<int, seq<Json>>, lines: seq<Line>, l: Line, prior: seq<Json>)
    requires GroupsMatch(groups, lines)
    requires prior == if l.branch in groups then groups[l.branch] else []
    ensures GroupsMatch(groups[l.branch := prior + [l.item]], lines + [l])
  {
    if l.branch !in groups {
      ItemsForAbsent(lines, l.branch);
    }
    LinesStep(lines, l);
  }

  /** The `groups` object: its lists by branch id, and its keys in the
      order they were created. */
  datatype GroupObject = GroupObject(lists: map<int, seq<Json>>, created: seq<int>)

  /** The object is the grouping of the lines so far. */
  predicate ObjectMatches(obj: GroupObject, lines: seq<Line>) {
    GroupsMatch(obj.lists, lines) && obj.created == FirstSeen(lines)
  }

  /** `if (!groups[b]) groups[b] = []` creates the key only for a branch no
      earlier line had; the push then keeps the object the grouping. */
  lemma ObjectStep(obj: GroupObject, lines: seq<Line>, l: Line, next: GroupObject)
    requires ObjectMatches(obj, lines)
    requires var prior := if l.branch in obj.lists then obj.lists[l.branch] else [];
      next == GroupObject(obj.lists[l.branch := prior + [l.item]],
                          if l.branch in obj.lists then obj.created else obj.created + [l.branch])
    ensures ObjectMatches(next, lines + [l])
  {
    GroupingStep(obj.lists, lines, l, if l.branch in obj.lists then obj.lists[l.branch] else []);
    assert (lines + [l])[..|lines|] == lines;
  }

  /** The first `n` items are assigned, to `lines`. */
  ghost predicate AssignedPrefix(ctx: Ctx, pin: Json, items: seq<Json>, n: nat, lines: seq<Line>)
    requires n <= |items|
  {
    Assign(ctx, pin, items[..n]) == Done(lines)
  }

  lemma AssignedWhole(ctx: Ctx, pin: Json, items: seq<Json>, lines: seq<Line>)
    requires AssignedPrefix(ctx, pin, items, |items|, lines)
    ensures Assign(ctx, pin, items) == Done(lines)
  {
    assert items[..|items|] == items;
  }

  /** The first loop of `planShipmentsForOrder`: the object from branch id
      to the normalised items assigned to it. */
  method GroupByBranch(ctx: Ctx, pin: Json, items: seq<Json>)
    returns (r: Outcome<GroupObject>, ghost lines: seq<Line>)
    ensures r.Failed? ==> Assign(ctx, pin, items) == Failed(r.error)
    ensures r.Done? ==> Assign(ctx, pin, items) == Done(lines) && ObjectMatches(r.value, lines)
  {
    var groups := GroupObject(map[], []);
    lines := [];
    var i := 0;
    while i < |items|
      invariant 0 <= i <= |items|
      invariant AssignedPrefix(ctx, pin, items, i, lines)
      invariant ObjectMatches(groups, lines)
    {
      var step, next := GroupItem(ctx, pin, items, i, groups, lines);
      if step.Failed? {
        r := Failed(step.error);
        return;
      }
      groups := next;
      lines := lines + [step.value];
      i := i + 1;
    }
    AssignedWhole(ctx, pin, items, lines);
    r := Done(groups);
  }

  /** One pass of the planning loop for item `i`: its checks and branch
      choice, then its place in the grouping object. */
  method GroupItem(ctx: Ctx, pin: Json, items: seq<Json>, i: nat, groups: GroupObject, ghost lines: seq<Line>)
    returns (step: Outcome<Line>, next: GroupObject)
    requires i < |items| && AssignedPrefix(ctx, pin, items, i, lines) && ObjectMatches(groups, lines)
    ensures step.Failed? ==> Assign(ctx, pin, items) == Failed(step.error)
    ensures step.Done? ==>
      AssignedPrefix(ctx, pin, items, i + 1, lines + [step.value]) && ObjectMatches(next, lines + [step.value])
  {
    step := AssignItem(ctx, pin, items, i, lines);
    next := groups;
    if step.Done? {
      next := AddLine(groups, lines, step.value);
    }
  }

  /** The checks and the branch choice for item `i`, given the lines of
      the items before it (services/orderFulfillment.js:81-85): a failure
      is the failure of the whole assignment, a line extends it. */
  method AssignItem(ctx: Ctx, pin: Json, items: seq<Json>, i: nat, ghost lines: seq<Line>)
    returns (step: Outcome<Line>)
    requires i < |items| && Assign(ctx, pin, items[..i]) == Done(lines)
    ensures step.Failed? ==> Assign(ctx, pin, items) == Failed(step.error)
    ensures step.Done? ==> Assign(ctx, pin, items[..i + 1]) == Done(lines + [step.value])
  {
    AssignStep(ctx, pin, items, i, lines);
    step := AssignOne(ctx, pin, items[i]);
  }

  /** The line's item is pushed onto its branch's list, which is created
      empty (a new key) when no earlier line had that branch; the object
      stays the grouping of the lines (services/orderFulfillment.js:87-88). */
  method AddLine(obj: GroupObject, ghost lines: seq<Line>, l: Line) returns (next: GroupObject)
    requires ObjectMatches(obj, lines)
    ensures ObjectMatches(next, lines + [l])
  {
    var groups := obj.lists;
    var created := obj.created;
    if l.branch !in groups {
      groups := groups[l.branch := []];
      created := created + [l.branch];
    }
    groups := groups[l.branch := groups[l.branch] + [l.item]];
    next := GroupObject(groups, created);
    ObjectStep(obj, lines, l, next);
  }

  /** One group per key of `ks`, read from the map. */
  function GroupsOf(m: map<int, seq<Json>>, ks: seq<int>): seq<Group>
    requires forall i :: 0 <= i < |ks| ==> ks[i] in m
  {
    if ks == [] then [] else [Group(ks[0], m[ks[0]])] + GroupsOf(m, ks[1..])
  }

  lemma {:induction false} GroupsOfMatches(m: map<int, seq<Json>>, lines: seq<Line>, ks: seq<int>)
    requires forall i :: 0 <= i < |ks| ==> ks[i] in m && m[ks[i]] == ItemsFor(lines, ks[i])
    ensures GroupsOf(m, ks) == GroupsAt(lines, ks)
  {
    if ks != [] {
      GroupsOfMatches(m, lines, ks[1..]);
    }
  }

  /** `planShipmentsForOrder`. */
  method PlanShipments(ctx: Ctx, shippingAddress: Json, salePincode: Json, items: seq<Json>)
    returns (r: Outcome<seq<Group>>)
    ensures r == Plan(ctx, DeliveryPin(shippingAddress, salePincode), items)
  {
    if ctx.cfg.forceBranch.Some? {
      return Done([Group(ctx.cfg.forceBranch.value, items)]);
    }
    var pin := DeliveryPin(shippingAddress, salePincode);
    var groups, lines := GroupByBranch(ctx, pin, items);
    if groups.Failed? {
      return Failed(groups.error);
    }
    var keys := ObjectKeys(groups.value.lists.Keys, groups.value.created);
    ObjectGroups(groups.value, lines);
    r := Done(GroupsOf(groups.value.lists, keys));
  }

  /** Reading the groups out of an object that matches the lines, in the
      order it lists its keys, gives the grouping of the lines. */
  lemma ObjectGroups(obj: GroupObject, lines: seq<Line>)
    requires ObjectMatches(obj, lines)
    ensures ObjectKeys(obj.lists.Keys, obj.created) == GroupKeys(lines)
    ensures forall i :: 0 <= i < |GroupKeys(lines)| ==> GroupKeys(lines)[i] in obj.lists
    ensures GroupsOf(obj.lists, GroupKeys(lines)) == Grouping(lines)
  {
    var keys := GroupKeys(lines);
    GroupKeysMembers(lines);
    assert forall i :: 0 <= i < |keys| ==> keys[i] in keys;
    GroupsOfMatches(obj.lists, lines, keys);
  }

  /** A forced branch takes every item unchanged, whatever the stock says. */
  lemma ForcedPlanIgnoresStock(ctx: Ctx, pin: Json, items: seq<Json>, otherStock: seq<StockRow>)
    requires ctx.cfg.forceBranch.Some?
    ensures Plan(ctx, pin, items) == Plan(ctx.(stock := otherStock), pin, items)
      == Done([Group(ctx.cfg.forceBranch.value, items)])
  {
  }

  /** A single invalid item aborts the whole plan (the first error found wins). */
  lemma {:induction false} InvalidItemAbortsPlan(ctx: Ctx, pin: Json, items: seq<Json>, i: nat)
    requires ctx.cfg.forceBranch.None?
    requires i < |items| && InvalidLine(items[i])
    ensures Plan(ctx, pin, items).Failed?
  {
    var pre := items[..i + 1];
    assert pre[..i] == items[..i];
    assert pre[i] == items[i];
    AssignOneFacts(ctx, pin, items[i]);
    assert Assign(ctx, pin, pre).Failed?;
    AssignFailurePersists(ctx, pin, items, i + 1);
  }

  lemma {:induction false} ItemsForNonEmpty(lines: seq<Line>, b: int)
    requires b in Branches(lines)
    ensures ItemsFor(lines, b) != []
  {
    var n := |lines| - 1;
    if lines[n].branch != b {
      ItemsForNonEmpty(lines[..n], b);
    }
  }

  lemma {:induction false} ItemsForOnlyThatBranch(lines: seq<Line>, b: int, x: Json)
    requires x in ItemsFor(lines, b)
    ensures exists i :: 0 <= i < |lines| && lines[i].branch == b && lines[i].item == x
  {
    var n := |lines| - 1;
    if x in ItemsFor(lines[..n], b) {
      ItemsForOnlyThatBranch(lines[..n], b, x);
      var i :| 0 <= i < n && lines[..n][i].branch == b && lines[..n][i].item == x;
      assert lines[i] == lines[..n][i];
    }
  }

  lemma {:induction false} LineBranchInBranches(lines: seq<Line>, i: nat)
    requires i < |lines|
    ensures lines[i].branch in Branches(lines)
  {
    var n := |lines| - 1;
    if i < n {
      LineBranchInBranches(lines[..n], i);
    }
  }

  lemma {:induction false} LineItemInItsGroup(lines: seq<Line>, i: nat)
    requires i < |lines|
    ensures lines[i].item in ItemsFor(lines, lines[i].branch)
  {
    var n := |lines| - 1;
    if i < n {
      LineItemInItsGroup(lines[..n], i);
      assert lines[..n][i] == lines[i];
    }
  }

  /** The groups of lines, one per branch, in the order the grouping
      object lists its keys: array-index branch ids ascending, then the
      others in order of first appearance. */
  ghost function Grouping(lines: seq<Line>): (gs: seq<Group>)
    ensures |gs| == |Branches(lines)|
    ensures forall j :: 0 <= j < |gs| ==> gs[j].branchId in Branches(lines)
    ensures forall j :: 0 <= j < |gs| ==> gs[j].items == ItemsFor(lines, gs[j].branchId)
    ensures forall j, k :: 0 <= j < k < |gs| ==> gs[j].branchId != gs[k].branchId
    ensures forall j, k :: 0 <= j < k < |gs| && IsIndexKey(gs[k].branchId) ==>
      IsIndexKey(gs[j].branchId) && gs[j].branchId < gs[k].branchId
  {
    GroupKeysMembers(lines);
    GroupKeysDistinct(lines);
    GroupKeysCount(lines);
    ObjectKeysFacts(Branches(lines), FirstSeen(lines));
    GroupsAt(lines, GroupKeys(lines))
  }

  /** Keys that are not array indices follow the order in which their
      branches first appear. */
  lemma KeysFollowFirstAppearance(lines: seq<Line>, j: nat, k: nat, later: nat) returns (i: nat)
    requires j < k < |GroupKeys(lines)| && !IsIndexKey(GroupKeys(lines)[j])
    requires later < |lines| && lines[later].branch == GroupKeys(lines)[k]
    ensures i < later && lines[i].branch == GroupKeys(lines)[j]
  {
    var p, q := ObjectKeysFollowCreation(Branches(lines), FirstSeen(lines), j, k);
    i := FirstSeenOrder(lines, p, q, later);
  }

  /** An object lists keys that are not array indices in the order they
      were created. */
  lemma ObjectKeysFollowCreation(keys: set<int>, created: seq<int>, j: nat, k: nat) returns (p: nat, q: nat)
    requires j < k < |ObjectKeys(keys, created)| && !IsIndexKey(ObjectKeys(keys, created)[j])
    ensures p < q < |created| && created[p] == ObjectKeys(keys, created)[j] && created[q] == ObjectKeys(keys, created)[k]
  {
    var ks := ObjectKeys(keys, created);
    var index := IndexKeys(keys);
    var rest := NonIndexKeys(created);
    assert ks == index + rest;
    assert forall x :: 0 <= x < |index| ==> ks[x] == index[x];
    assert ks[j] == rest[j - |index|] && ks[k] == rest[k - |index|];
    p, q := NonIndexKeysOrder(created, j - |index|, k - |index|);
  }

  /** Groups of branches that are not array indices follow the order in
      which their branches first appear: every line of the later group's
      branch comes after some line of the earlier group's branch. */
  lemma GroupingFollowsFirstAppearance(lines: seq<Line>, j: nat, k: nat, later: nat) returns (i: nat)
    requires j < k < |Grouping(lines)| && !IsIndexKey(Grouping(lines)[j].branchId)
    requires later < |lines| && lines[later].branch == Grouping(lines)[k].branchId
    ensures i < later && lines[i].branch == Grouping(lines)[j].branchId
  {
    i := KeysFollowFirstAppearance(lines, j, k, later);
  }

  /** No group is empty. */
  lemma GroupsNonEmpty(lines: seq<Line>)
    ensures forall j :: 0 <= j < |Grouping(lines)| ==> Grouping(lines)[j].items != []
  {
    forall j | 0 <= j < |Grouping(lines)|
      ensures Grouping(lines)[j].items != []
    {
      ItemsForNonEmpty(lines, Grouping(lines)[j].branchId);
    }
  }

  /** Every item lies in the group of its own branch. */
  lemma EveryLineGrouped(lines: seq<Line>, i: nat)
    requires i < |lines|
    ensures exists j ::
      0 <= j < |Grouping(lines)| &&
      Grouping(lines)[j].branchId == lines[i].branch && lines[i].item in Grouping(lines)[j].items
  {
    var b := lines[i].branch;
    LineBranchInBranches(lines, i);
    LineItemInItsGroup(lines, i);
    var j := KeyPosition(lines, b);
    assert Grouping(lines)[j] == Group(b, ItemsFor(lines, b));
  }

  /** Where a branch sits among the grouping object's keys. */
  lemma KeyPosition(lines: seq<Line>, b: int) returns (j: nat)
    requires b in Branches(lines)
    ensures j < |GroupKeys(lines)| && GroupKeys(lines)[j] == b
  {
    var ks := GroupKeys(lines);
    GroupKeysMembers(lines);
    assert b in ks;
    j :| 0 <= j < |ks| && ks[j] == b;
  }

  /** A group holds only items assigned to its branch. */
  lemma GroupHoldsOnlyItsBranch(lines: seq<Line>, j: nat, x: Json)
    requires j < |Grouping(lines)| && x in Grouping(lines)[j].items
    ensures exists i :: 0 <= i < |lines| && lines[i].branch == Grouping(lines)[j].branchId && lines[i].item == x
  {
    ItemsForOnlyThatBranch(lines, Grouping(lines)[j].branchId, x);
  }

  /** Without a forced branch a successful plan is the grouping of the
      assigned lines, one line per input item. */
  lemma PlanIsGrouping(ctx: Ctx, pin: Json, items: seq<Json>)
    requires ctx.cfg.forceBranch.None?
    requires Plan(ctx, pin, items).Done?
    ensures Assign(ctx, pin, items).Done?
    ensures |Assign(ctx, pin, items).value| == |items|
    ensures Plan(ctx, pin, items).value == Grouping(Assign(ctx, pin, items).value)
  {
    AssignLength(ctx, pin, items);
  }

  lemma {:induction false} AssignLength(ctx: Ctx, pin: Json, items: seq<Json>)
    requires Assign(ctx, pin, items).Done?
    ensures |Assign(ctx, pin, items).value| == |items|
  {
    if items != [] {
      AssignLength(ctx, pin, items[..|items| - 1]);
    }
  }

  // ---------------------------------------------------------------------
  // Conservation of quantity per variant

  /** Total `qty` of the items whose `variant_id` is `v`. */
  function VariantQty(v: int, items: seq<Json>): int {
    if items == [] then 0
    else
      var it := items[|items| - 1];
      VariantQty(v, items[..|items| - 1]) +
        (if Get(it, "variant_id") == JNum(v) && Get(it, "qty").JNum? then Get(it, "qty").n else 0)
  }

  /** Total parsed quantity of the sale's items whose parsed variant is `v`. */
  function InputQty(v: int, items: seq<Json>): int {
    if items == [] then 0
    else
      var it := items[|items| - 1];
      InputQty(v, items[..|items| - 1]) +
        (if ItemVariant(it) == Some(v) && ItemQty(it).Some? then ItemQty(it).value else 0)
  }

  function SumGroups(v: int, gs: seq<Group>): int {
    if gs == [] then 0 else VariantQty(v, gs[0].items) + SumGroups(v, gs[1..])
  }

  /** The items of the lines whose branch lies in `s`, in order. */
  function ItemsIn(lines: seq<Line>, s: set<int>): seq<Json> {
    if lines == [] then []
    else ItemsIn(lines[..|lines| - 1], s) + (if lines[|lines| - 1].branch in s then [lines[|lines| - 1].item] else [])
  }

  lemma {:induction false} VariantQtyAppend(v: int, a: seq<Json>, b: seq<Json>)
    ensures VariantQty(v, a + b) == VariantQty(v, a) + VariantQty(v, b)
    decreases |b|
  {
    if b == [] {
      assert a + b == a;
    } else {
      var b' := b[..|b| - 1];
      assert (a + b)[..|a + b| - 1] == a + b';
      VariantQtyAppend(v, a, b');
    }
  }

  lemma {:induction false} SplitOffKey(v: int, lines: seq<Line>, k: int, s: set<int>)
    requires k !in s
    ensures VariantQty(v, ItemsIn(lines, s + {k})) == VariantQty(v, ItemsFor(lines, k)) + VariantQty(v, ItemsIn(lines, s))
  {
    if lines != [] {
      var n := |lines| - 1;
      var last := lines[n];
      SplitOffKey(v, lines[..n], k, s);
      var tail := if last.branch in s + {k} then [last.item] else [];
      VariantQtyAppend(v, ItemsIn(lines[..n], s + {k}), tail);
      VariantQtyAppend(v, ItemsFor(lines[..n], k), if last.branch == k then [last.item] else []);
      VariantQtyAppend(v, ItemsIn(lines[..n], s), if last.branch in s then [last.item] else []);
    }
  }

  lemma {:induction false} SumGroupsAt(v: int, lines: seq<Line>, ks: seq<int>)
    requires Distinct(ks)
    ensures SumGroups(v, GroupsAt(lines, ks)) == VariantQty(v, ItemsIn(lines, KeySet(ks)))
  {
    if ks == [] {
      EmptyItemsIn(lines);
    } else {
      KeySetMembers(ks[1..]);
      assert ks[0] !in ks[1..];
      SumGroupsAt(v, lines, ks[1..]);
      SplitOffKey(v, lines, ks[0], KeySet(ks[1..]));
      assert GroupsAt(lines, ks)[1..] == GroupsAt(lines, ks[1..]);
      assert KeySet(ks) == KeySet(ks[1..]) + {ks[0]};
    }
  }

  lemma {:induction false} EmptyItemsIn(lines: seq<Line>)
    ensures ItemsIn(lines, {}) == []
  {
    if lines != [] {
      EmptyItemsIn(lines[..|lines| - 1]);
    }
  }

  lemma {:induction false} ItemsInAll(v: int, lines: seq<Line>, s: set<int>)
    requires Branches(lines) <= s
    ensures VariantQty(v, ItemsIn(lines, s)) == VariantQty(v, LineItems(lines))
  {
    var all := LineItems(lines);
    if lines != [] {
      var n := |lines| - 1;
      ItemsInAll(v, lines[..n], s);
      assert all[..n] == LineItems(lines[..n]);
      assert all[n] == lines[n].item;
      VariantQtyAppend(v, ItemsIn(lines[..n], s), [lines[n].item]);
    }
  }

  lemma {:induction false} LinesMatchInput(v: int, ctx: Ctx, pin: Json, items: seq<Json>)
    requires Assign(ctx, pin, items).Done?
    ensures var lines := Assign(ctx, pin, items).value;
      |lines| == |items| && VariantQty(v, LineItems(lines)) == InputQty(v, items)
  {
    AssignLength(ctx, pin, items);
    var lines := Assign(ctx, pin, items).value;
    var all := LineItems(lines);
    if items != [] {
      var n := |items| - 1;
      LinesMatchInput(v, ctx, pin, items[..n]);
      var prev := Assign(ctx, pin, items[..n]).value;
      AssignOneFacts(ctx, pin, items[n]);
      assert lines == prev + [lines[n]];
      assert all[..n] == LineItems(prev);
    }
  }

  /** The items of the lines, in order. */
  function LineItems(lines: seq<Line>): seq<Json> {
    seq(|lines|, i requires 0 <= i < |lines| => lines[i].item)
  }

  lemma GroupingConservesQuantity(lines: seq<Line>, v: int)
    ensures SumGroups(v, Grouping(lines)) == VariantQty(v, LineItems(lines))
  {
    GroupKeysDistinct(lines);
    GroupKeysCount(lines);
    SumGroupsAt(v, lines, GroupKeys(lines));
    ItemsInAll(v, lines, Branches(lines));
  }

  /** The split conserves quantity: for every variant, the quantities in all
      groups add up to the quantities ordered. */
  lemma PlanConservesQuantity(ctx: Ctx, pin: Json, items: seq<Json>, v: int)
    requires ctx.cfg.forceBranch.None?
    requires Plan(ctx, pin, items).Done?
    ensures SumGroups(v, Plan(ctx, pin, items).value) == InputQty(v, items)
  {
    PlanIsGrouping(ctx, pin, items);
    GroupingConservesQuantity(Assign(ctx, pin, items).value, v);
    LinesMatchInput(v, ctx, pin, items);
  }

  // ---------------------------------------------------------------------
  // Fulfilment

  /** The sale row with its items, as `fulfillOrderWithShiprocket` reads it. */
  datatype Sale = Sale(
    id: Json, paymentStatus: Json, totals: Json,
    customerName: Json, customerEmail: Json, customerMobile: Json,
    shippingAddress: Json, pincode: Json, items: seq<Json>)

  /** `Number(sale.totals.payable || 0)` when totals is an object, else 0. */
  function Payable(sale: Sale): Option<int> {
    NumberOf(Or(Get(sale.totals, "payable"), JNum(0)))
  }

  /** The payment method sent to the courier (services/orderFulfillment.js:106-110). */
  function PaymentMethodFor(sale: Sale): (m: string)
    ensures m == "COD" || m == "Prepaid"
    ensures m == "COD" <==>
      ToUpper(ToStr(Or(sale.paymentStatus, JStr("")))) == "COD" && Payable(sale).Some? && Payable(sale).value > 0
  {
    var payable := Payable(sale);
    if ToUpper(ToStr(Or(sale.paymentStatus, JStr("")))) == "COD" && payable.Some? && payable.value > 0
    then "COD" else "Prepaid"
  }

  /** `${sale.id}-${group.branch_id}`. */
  function ChannelOrderId(saleKey: string, branchId: int): string {
    saleKey + "-" + IntToString(branchId)
  }

  /** Distinct groups of one sale get distinct channel order ids. */
  lemma ChannelOrderIdsDistinct(saleKey: string, b1: int, b2: int)
    requires b1 != b2
    ensures ChannelOrderId(saleKey, b1) != ChannelOrderId(saleKey, b2)
  {
    var p := saleKey + "-";
    if ChannelOrderId(saleKey, b1) == ChannelOrderId(saleKey, b2) {
      assert IntToString(b1) == ChannelOrderId(saleKey, b1)[|p|..];
      assert IntToString(b2) == ChannelOrderId(saleKey, b2)[|p|..];
      ParseIntOfIntToString(b1);
      ParseIntOfIntToString(b2);
      assert false;
    }
  }

  function OrderItemOf(it: Json): SR.OrderItem {
    SR.OrderItem(
      Or(Or(Get(it, "name"), Get(it, "product_name")), JStr("Variant " + ToStr(Get(it, "variant_id")))),
      ToNumber(Get(it, "variant_id")),
      ToNumber(Or(Get(it, "qty"), JNum(1))),
      ToNumber(Or(Get(it, "price"), JNum(0))))
  }

  function CustomerOf(sale: Sale): SR.Customer {
    var a := sale.shippingAddress;
    SR.Customer(
      Or(sale.customerName, JStr("Customer")),
      Or(sale.customerEmail, JNull),
      Or(sale.customerMobile, JNull),
      SR.Address(
        Or(Get(a, "line1"), JStr("")), Or(Get(a, "line2"), JStr("")),
        Or(Get(a, "city"), JStr("")), Or(Get(a, "state"), JStr("")),
        Or(Or(Get(a, "pincode"), sale.pincode), JStr(""))))
  }

  /** The order request for one group, sent to the warehouse `pickupName`;
      `saleKey` is `String(sale.id)`. */
  function RequestFor(saleKey: string, paymentMethod: string, sale: Sale, g: Group, pickupName: Json): SR.ShipmentRequest {
    SR.ShipmentRequest(
      ChannelOrderId(saleKey, g.branchId), pickupName,
      SR.Order(seq(|g.items|, i requires 0 <= i < |g.items| => OrderItemOf(g.items[i])),
               JStr(paymentMethod), JUndef, JUndef),
      CustomerOf(sale))
  }

  /** `Array.isArray(d?.shipment_id) ? d.shipment_id[0] : d?.shipment_id || null`. */
  function ShipmentIdOf(data: Json): Json {
    var s := Get(data, "shipment_id");
    if s.JArr? then (if s.elems != [] then s.elems[0] else JUndef) else Or(s, JNull)
  }

  /** `res.awb?.response?.data?.awb_code || null`. */
  function AwbOf(awbData: Json): Json {
    Or(Path(awbData, ["response", "data", "awb_code"]), JNull)
  }

  /** `res.label?.label_url || null`. */
  function LabelUrlOf(labelData: Json): Json {
    Or(Get(labelData, "label_url"), JNull)
  }

  /** A row inserted into shipments (its random UUID is not modelled). */
  datatype ShipmentRow = ShipmentRow(
    saleId: Json, branchId: int, courierOrderId: Json, courierShipmentId: Json,
    awb: Json, labelUrl: Json, trackingUrl: Json, status: string)

  /** An entry of the returned `created` list. */
  datatype Created = Created(branchId: int, shipmentId: Json, awb: Json, labelUrl: Json)

  datatype FulfilError =
    | TokenMissing
    | PlanFailed(planError: PlanError)
    | NoPickupMapped(branchId: int)
    | CourierRejected
    | PickupRejected
    | ManifestRejected

  /** What one run leaves behind: the returned list (complete only without
      error), the shipment rows written (they stay even when a later group
      throws), the order payloads sent, the pickups requested and the
      manifest requested. */
  datatype Fulfilment = Fulfilment(
    created: seq<Created>,
    inserted: seq<ShipmentRow>,
    orders: seq<SR.OrderPayload>,
    pickups: seq<Json>,
    manifest: Option<seq<Json>>,
    error: Option<FulfilError>)

  /** The truthy shipment ids of the created entries, in order. */
  function ShipmentIds(cs: seq<Created>): (ids: seq<Json>)
    ensures forall x :: x in ids ==> Truthy(x)
    ensures |ids| <= |cs|
  {
    if cs == [] then []
    else ShipmentIds(cs[..|cs| - 1]) + (if Truthy(cs[|cs| - 1].shipmentId) then [cs[|cs| - 1].shipmentId] else [])
  }

  /** A created entry and its row agree, and the row's status records
      whether an AWB was obtained. */
  predicate RowMatches(saleId: Json, branchId: int, c: Created, row: ShipmentRow) {
    && c.branchId == branchId
    && row.saleId == saleId && row.branchId == branchId
    && row.courierShipmentId == c.shipmentId && row.awb == c.awb && row.labelUrl == c.labelUrl
    && row.status == (if Truthy(c.awb) then "READY" else "CREATED")
    && (!Truthy(c.shipmentId) ==> c.awb == JNull && c.labelUrl == JNull)
  }

  /** The outcome of shipping one group: the payload sent, then either the
      created entry with its row, or the error that stopped the run. */
  datatype GroupStep = GroupStep(
    payload: SR.OrderPayload, created: Created, row: ShipmentRow,
    pickup: seq<Json>, error: Option<FulfilError>)

  /** The courier as the loop sees it: the loaded token, the order date
      stamped on payloads, the replies of its server, and whether
      `requestPickup` returns for a shipment id. */
  datatype Courier = Courier(
    token: string, orderDate: string, server: SR.ApiCall -> SR.Reply, pickupReturns: Json -> bool)

  /** The reply to the order request for `req`. */
  function CreateReply(c: Courier, req: SR.ShipmentRequest): SR.Reply {
    c.server(SR.OrderCall(req, c.orderDate, c.token))
  }

  /** The shipment id read from the order reply (null when it threw). */
  function ReplyShipmentId(c: Courier, req: SR.ShipmentRequest): Json {
    var create := CreateReply(c, req);
    if create.Ok? then ShipmentIdOf(create.data) else JNull
  }

  function AwbReply(c: Courier, shipmentId: Json): SR.Reply {
    c.server(SR.AwbCall(shipmentId, c.token))
  }

  function LabelReply(c: Courier, shipmentId: Json): SR.Reply {
    c.server(SR.LabelCall(shipmentId, c.token))
  }

  /** What shipping one group with request `req` yields, given the
      courier's replies (services/orderFulfillment.js:121-187). */
  function ShipOutcome(c: Courier, saleId: Json, branchId: int, req: SR.ShipmentRequest): (s: GroupStep)
    ensures s.payload == SR.OrderPayloadOf(req, c.orderDate)
    ensures s.error.None? || s.error == Some(CourierRejected) || s.error == Some(PickupRejected)
    ensures var create := CreateReply(c, req);
      var id := ReplyShipmentId(c, req);
      && (s.error == Some(CourierRejected) <==>
           create.Threw? || (Truthy(id) && (AwbReply(c, id).Threw? || LabelReply(c, id).Threw?)))
      && (s.error == Some(PickupRejected) <==>
           create.Ok? && Truthy(id) && AwbReply(c, id).Ok? && LabelReply(c, id).Ok? && !c.pickupReturns(id))
      && s.pickup == (if create.Ok? && Truthy(id) && AwbReply(c, id).Ok? && LabelReply(c, id).Ok? then [id] else [])
    ensures var create := CreateReply(c, req);
      var id := ReplyShipmentId(c, req);
      s.error.None? ==>
        && create.Ok?
        && s.created.shipmentId == id
        && s.created.awb == (if Truthy(id) then AwbOf(AwbReply(c, id).data) else JNull)
        && s.created.labelUrl == (if Truthy(id) then LabelUrlOf(LabelReply(c, id).data) else JNull)
        && s.row.courierOrderId == Or(Get(create.data, "order_id"), JNull)
        && s.row.trackingUrl == Or(Get(create.data, "tracking_url"), JNull)
        && RowMatches(saleId, branchId, s.created, s.row)
        && (Truthy(id) ==> c.pickupReturns(id))
  {
    var payload := SR.OrderPayloadOf(req, c.orderDate);
    var none := Created(branchId, JNull, JNull, JNull);
    var noRow := ShipmentRow(saleId, branchId, JNull, JNull, JNull, JNull, JNull, "CREATED");
    var create := CreateReply(c, req);
    if create.Threw? then GroupStep(payload, none, noRow, [], Some(CourierRejected))
    else
      var id := ShipmentIdOf(create.data);
      if Truthy(id) && (AwbReply(c, id).Threw? || LabelReply(c, id).Threw?) then
        GroupStep(payload, none, noRow, [], Some(CourierRejected))
      else if Truthy(id) && !c.pickupReturns(id) then
        GroupStep(payload, none, noRow, [id], Some(PickupRejected))
      else
        var awb := if Truthy(id) then AwbOf(AwbReply(c, id).data) else JNull;
        var labelUrl := if Truthy(id) then LabelUrlOf(LabelReply(c, id).data) else JNull;
        var row := ShipmentRow(
          saleId, branchId, Or(Get(create.data, "order_id"), JNull), id, awb, labelUrl,
          Or(Get(create.data, "tracking_url"), JNull), if Truthy(awb) then "READY" else "CREATED");
        GroupStep(payload, Created(branchId, id, awb, labelUrl), row, if Truthy(id) then [id] else [], None)
  }

  /** The requests for a truthy shipment id: the AWB request and, when
      that succeeded, the label request. */
  function LabelCalls(c: Courier, id: Json): seq<SR.ApiCall> {
    [SR.AwbCall(id, c.token)] + (if AwbReply(c, id).Ok? then [SR.LabelCall(id, c.token)] else [])
  }

  /** The requests shipping one group sends: the order, then for a truthy
      shipment id the AWB request and, when that succeeded, the label
      request. */
  function GroupCalls(c: Courier, req: SR.ShipmentRequest): (calls: seq<SR.ApiCall>)
    ensures 1 <= |calls| <= 3 && calls[0] == SR.OrderCall(req, c.orderDate, c.token)
  {
    var id := ReplyShipmentId(c, req);
    [SR.OrderCall(req, c.orderDate, c.token)] +
    (if CreateReply(c, req).Ok? && Truthy(id) then LabelCalls(c, id) else [])
  }

  /** A group is rejected by the courier exactly when the last request it
      sent threw. */
  lemma RejectedByLastCall(c: Courier, saleId: Json, branchId: int, req: SR.ShipmentRequest)
    ensures var calls := GroupCalls(c, req);
      ShipOutcome(c, saleId, branchId, req).error == Some(CourierRejected) <==> c.server(calls[|calls| - 1]).Threw?
  {
  }

  /** The body of the per-group loop of `fulfillOrderWithShiprocket`
      (services/orderFulfillment.js:121-187), once the pickup location is known. */
  method ShipGroup(sr: SR.Shiprocket, c: Courier, saleId: Json, branchId: int, req: SR.ShipmentRequest)
    returns (s: GroupStep)
    requires sr.token == Some(c.token)
    modifies sr`token, sr`sent
    ensures sr.token == old(sr.token)
    ensures s == ShipOutcome(c, saleId, branchId, req)
    ensures sr.sent == old(sr.sent) + GroupCalls(c, req)
    ensures s.payload == SR.OrderPayloadOf(req, c.orderDate)
    ensures s.error.None? ==>
      && RowMatches(saleId, branchId, s.created, s.row)
      && s.pickup == (if Truthy(s.created.shipmentId) then [s.created.shipmentId] else [])
    ensures s.error.Some? ==> s.error == Some(CourierRejected) || s.error == Some(PickupRejected)
    ensures s.error == Some(CourierRejected) ==> s.pickup == []
    ensures s.error == Some(PickupRejected) ==> |s.pickup| == 1
    ensures forall p :: p in s.pickup ==> Truthy(p)
  {
    var data := sr.CreateOrderShipment(req, c.orderDate, c.server);
    if data.Threw? {
      var none := Created(branchId, JNull, JNull, JNull);
      var noRow := ShipmentRow(saleId, branchId, JNull, JNull, JNull, JNull, JNull, "CREATED");
      return GroupStep(SR.OrderPayloadOf(req, c.orderDate), none, noRow, [], Some(CourierRejected));
    }
    s := ShipCreated(sr, c, saleId, branchId, req, data.data);
    var id := ShipmentIdOf(data.data);
    SeqAssoc(old(sr.sent), [SR.OrderCall(req, c.orderDate, c.token)], if Truthy(id) then LabelCalls(c, id) else []);
  }

  /** The rest of the loop body once the order was created with reply
      `data` (services/orderFulfillment.js:143-187): for a truthy shipment
      id the AWB and the label, then the pickup; then the row. */
  method ShipCreated(sr: SR.Shiprocket, c: Courier, saleId: Json, branchId: int, req: SR.ShipmentRequest, data: Json)
    returns (s: GroupStep)
    requires sr.token == Some(c.token) && CreateReply(c, req) == SR.Ok(data)
    modifies sr`token, sr`sent
    ensures sr.token == old(sr.token)
    ensures s == ShipOutcome(c, saleId, branchId, req)
    ensures var id := ShipmentIdOf(data);
      sr.sent == old(sr.sent) + (if Truthy(id) then LabelCalls(c, id) else [])
  {
    var payload := SR.OrderPayloadOf(req, c.orderDate);
    var none := Created(branchId, JNull, JNull, JNull);
    var noRow := ShipmentRow(saleId, branchId, JNull, JNull, JNull, JNull, JNull, "CREATED");
    var shipmentId := ShipmentIdOf(data);
    var awb := JNull;
    var labelUrl := JNull;
    if Truthy(shipmentId) {
      var res := sr.AssignAwbAndLabel(shipmentId, c.server);
      if res.None? {
        return GroupStep(payload, none, noRow, [], Some(CourierRejected));
      }
      awb := AwbOf(res.value.0);
      labelUrl := LabelUrlOf(res.value.1);
      if !c.pickupReturns(shipmentId) {
        return GroupStep(payload, none, noRow, [shipmentId], Some(PickupRejected));
      }
    }
    var row := ShipmentRow(
      saleId, branchId, Or(Get(data, "order_id"), JNull), shipmentId,
      awb, labelUrl, Or(Get(data, "tracking_url"), JNull),
      if Truthy(awb) then "READY" else "CREATED");
    s := GroupStep(payload, Created(branchId, shipmentId, awb, labelUrl), row,
                   if Truthy(shipmentId) then [shipmentId] else [], None);
  }

  /** The order payload for a group carries the group's channel order id,
      the payment method and one item per line. */
  lemma RequestSent(saleKey: string, paymentMethod: string, sale: Sale, g: Group, pickupName: Json, orderDate: string)
    requires paymentMethod == "COD" || paymentMethod == "Prepaid"
    ensures OrderSent(saleKey, paymentMethod, g, SR.OrderPayloadOf(RequestFor(saleKey, paymentMethod, sale, g, pickupName), orderDate))
  {
  }

  lemma ShipmentIdsStep(cs: seq<Created>, c: Created)
    ensures ShipmentIds(cs + [c]) == ShipmentIds(cs) + (if Truthy(c.shipmentId) then [c.shipmentId] else [])
  {
    assert (cs + [c])[..|cs|] == cs;
  }

  // ---------------------------------------------------------------------
  // The loop over the groups

  /** One run of the loop: the sale, its key `String(sale.id)`, the payment
      method, the pickup location of each mapped branch, and the courier. */
  datatype Run = Run(
    saleKey: string, paymentMethod: string, sale: Sale, warehouses: map<int, Json>, courier: Courier)

  /** The order request of group `g`, which has a pickup location. */
  function RequestOf(r: Run, g: Group): SR.ShipmentRequest
    requires g.branchId in r.warehouses
  {
    RequestFor(r.saleKey, r.paymentMethod, r.sale, g, r.warehouses[g.branchId])
  }

  function GroupOutcome(r: Run, g: Group): GroupStep
    requires g.branchId in r.warehouses
  {
    ShipOutcome(r.courier, r.sale.id, g.branchId, RequestOf(r, g))
  }

  /** What the loop leaves after the groups `gs` (services/orderFulfillment.js:119-188):
      it stops at the first group without a pickup location or whose
      shipping fails, keeping the rows already written. */
  function Loop(r: Run, gs: seq<Group>): (f: Fulfilment)
    ensures f.manifest.None?
  {
    if gs == [] then Fulfilment([], [], [], [], None, None)
    else Next(r, Loop(r, gs[..|gs| - 1]), gs[|gs| - 1])
  }

  /** One iteration of the loop: a stopped run stays stopped; group `g`
      either stops it or adds its entry, row, payload and pickup. */
  function Next(r: Run, prev: Fulfilment, g: Group): (f: Fulfilment)
    requires prev.manifest.None?
    ensures f.manifest.None?
  {
    if prev.error.Some? then prev
    else if g.branchId !in r.warehouses then prev.(error := Some(NoPickupMapped(g.branchId)))
    else Advance(prev, GroupOutcome(r, g))
  }

  /** A shipped group's outcome added to a run that has not stopped. */
  function Advance(prev: Fulfilment, s: GroupStep): (f: Fulfilment)
    requires prev.manifest.None?
    ensures f.manifest.None?
  {
    if s.error.Some? then
      prev.(orders := prev.orders + [s.payload], pickups := prev.pickups + s.pickup, error := s.error)
    else
      Fulfilment(prev.created + [s.created], prev.inserted + [s.row], prev.orders + [s.payload],
                 prev.pickups + s.pickup, None, None)
  }

  /** The requests the loop sends for the groups `gs`, in order. */
  function LoopCalls(r: Run, gs: seq<Group>): seq<SR.ApiCall> {
    if gs == [] then []
    else LoopCalls(r, gs[..|gs| - 1]) + NextCalls(r, Loop(r, gs[..|gs| - 1]), gs[|gs| - 1])
  }

  /** The requests one iteration sends. */
  function NextCalls(r: Run, prev: Fulfilment, g: Group): seq<SR.ApiCall> {
    if prev.error.Some? || g.branchId !in r.warehouses then []
    else GroupCalls(r.courier, RequestOf(r, g))
  }

  /** The loop after one more group. */
  lemma LoopPrefix(r: Run, gs: seq<Group>, j: nat)
    requires j < |gs|
    ensures Loop(r, gs[..j + 1]) == Next(r, Loop(r, gs[..j]), gs[j])
    ensures LoopCalls(r, gs[..j + 1]) == LoopCalls(r, gs[..j]) + NextCalls(r, Loop(r, gs[..j]), gs[j])
  {
    assert gs[..j + 1][..j] == gs[..j] && gs[..j + 1][j] == gs[j];
  }

  /** Once the loop has stopped, later groups change nothing. */
  lemma {:induction false} LoopStopPersists(r: Run, gs: seq<Group>, j: nat)
    requires j <= |gs| && Loop(r, gs[..j]).error.Some?
    ensures Loop(r, gs) == Loop(r, gs[..j])
    ensures LoopCalls(r, gs) == LoopCalls(r, gs[..j])
    decreases |gs| - j
  {
    if j < |gs| {
      LoopPrefix(r, gs, j);
      LoopStopPersists(r, gs, j + 1);
    } else {
      assert gs[..j] == gs;
    }
  }

  /** The loop over the groups (services/orderFulfillment.js:119-188). */
  method ShipGroups(sr: SR.Shiprocket, r: Run, gs: seq<Group>) returns (f: Fulfilment)
    requires sr.token == Some(r.courier.token)
    requires r.paymentMethod == "COD" || r.paymentMethod == "Prepaid"
    modifies sr`token, sr`sent
    ensures sr.token == old(sr.token)
    ensures f == Loop(r, gs)
    ensures sr.sent == old(sr.sent) + LoopCalls(r, gs)
    ensures f.manifest.None?
    ensures LoopMatches(r.saleKey, r.paymentMethod, r.sale, gs, r.warehouses, f)
  {
    f := Fulfilment([], [], [], [], None, None);
    var j := 0;
    while j < |gs| && f.error.None?
      invariant j <= |gs|
      invariant sr.token == Some(r.courier.token)
      invariant f == Loop(r, gs[..j])
      invariant sr.sent == old(sr.sent) + LoopCalls(r, gs[..j])
    {
      LoopPrefix(r, gs, j);
      ghost var before := f;
      f := ShipNext(sr, r, f, gs[j]);
      SeqAssoc(old(sr.sent), LoopCalls(r, gs[..j]), NextCalls(r, before, gs[j]));
      j := j + 1;
    }
    if f.error.Some? {
      LoopStopPersists(r, gs, j);
    } else {
      assert gs[..j] == gs;
    }
    LoopPromises(r, gs);
  }

  /** One pass of the loop for group `g`: stop when it has no pickup
      location, otherwise ship it and keep its entry and row, or stop with
      its error (services/orderFulfillment.js:121-187). */
  method ShipNext(sr: SR.Shiprocket, r: Run, prev: Fulfilment, g: Group) returns (next: Fulfilment)
    requires sr.token == Some(r.courier.token)
    requires prev.error.None? && prev.manifest.None?
    modifies sr`token, sr`sent
    ensures sr.token == old(sr.token)
    ensures next == Next(r, prev, g)
    ensures sr.sent == old(sr.sent) + NextCalls(r, prev, g)
  {
    if g.branchId !in r.warehouses {
      return prev.(error := Some(NoPickupMapped(g.branchId)));
    }
    var step := ShipGroup(sr, r.courier, r.sale.id, g.branchId, RequestOf(r, g));
    next := prev.(orders := prev.orders + [step.payload], pickups := prev.pickups + step.pickup, error := step.error);
    if step.error.None? {
      next := next.(created := prev.created + [step.created], inserted := prev.inserted + [step.row]);
    }
  }

  lemma ShippedAppend(sale: Sale, gs: seq<Group>, warehouses: map<int, Json>, j: nat,
                      created: seq<Created>, inserted: seq<ShipmentRow>, c: Created, row: ShipmentRow)
    requires |created| == |inserted| == j < |gs|
    requires forall k :: 0 <= k < j ==> Shipped(sale, gs[k], warehouses, created[k], inserted[k])
    requires Shipped(sale, gs[j], warehouses, c, row)
    ensures forall k :: 0 <= k < j + 1 ==> Shipped(sale, gs[k], warehouses, (created + [c])[k], (inserted + [row])[k])
  {
    forall k | 0 <= k < j + 1
      ensures Shipped(sale, gs[k], warehouses, (created + [c])[k], (inserted + [row])[k])
    {
      if k < j {
        assert (created + [c])[k] == created[k] && (inserted + [row])[k] == inserted[k];
      } else {
        assert (created + [c])[k] == c && (inserted + [row])[k] == row;
      }
    }
  }

  lemma OrdersSentAppend(saleKey: string, paymentMethod: string, gs: seq<Group>, j: nat,
                         orders: seq<SR.OrderPayload>, sent: seq<SR.OrderPayload>)
    requires |orders| == j < |gs|
    requires forall k :: 0 <= k < j ==> OrderSent(saleKey, paymentMethod, gs[k], orders[k])
    requires |sent| <= 1 && (sent != [] ==> OrderSent(saleKey, paymentMethod, gs[j], sent[0]))
    ensures forall k :: 0 <= k < |orders + sent| ==> OrderSent(saleKey, paymentMethod, gs[k], (orders + sent)[k])
  {
    forall k | 0 <= k < |orders + sent|
      ensures OrderSent(saleKey, paymentMethod, gs[k], (orders + sent)[k])
    {
      if k < j {
        assert (orders + sent)[k] == orders[k];
      } else {
        assert (orders + sent)[k] == sent[0];
      }
    }
  }

  lemma PickupsTruthy(created: seq<Created>, asked: seq<Json>)
    requires forall p :: p in asked ==> Truthy(p)
    ensures forall p :: p in ShipmentIds(created) + asked ==> Truthy(p)
  {
  }

  /** The loop's promises hold of every run: the rows agree with their
      groups in order, one order payload is sent per group reached, and
      pickups are requested exactly for the truthy shipment ids. */
  lemma {:induction false} LoopPromises(r: Run, gs: seq<Group>)
    requires r.paymentMethod == "COD" || r.paymentMethod == "Prepaid"
    ensures LoopMatches(r.saleKey, r.paymentMethod, r.sale, gs, r.warehouses, Loop(r, gs))
  {
    if gs != [] {
      var n := |gs| - 1;
      var g := gs[n];
      LoopPromises(r, gs[..n]);
      var prev := Loop(r, gs[..n]);
      if prev.error.Some? || g.branchId !in r.warehouses {
        LoopMatchesExtend(r.saleKey, r.paymentMethod, r.sale, gs[..n], gs, r.warehouses, prev);
      } else {
        OutcomePromises(r, g);
        MatchesAdvance(r.saleKey, r.paymentMethod, r.sale, gs, r.warehouses, prev, GroupOutcome(r, g));
      }
    }
  }

  /** What one shipped group's outcome promises: it sent the group's order
      payload; it either wrote a row agreeing with its entry and asked a
      pickup for a truthy shipment id, or stopped with a courier error. */
  predicate StepPromises(saleKey: string, paymentMethod: string, sale: Sale, g: Group,
                         warehouses: map<int, Json>, s: GroupStep) {
    && g.branchId in warehouses
    && OrderSent(saleKey, paymentMethod, g, s.payload)
    && (s.error.None? ==>
          && RowMatches(sale.id, g.branchId, s.created, s.row)
          && s.pickup == (if Truthy(s.created.shipmentId) then [s.created.shipmentId] else []))
    && (s.error.Some? ==> s.error == Some(CourierRejected) || s.error == Some(PickupRejected))
    && (s.error == Some(CourierRejected) ==> s.pickup == [])
    && (forall p :: p in s.pickup ==> Truthy(p))
  }

  lemma OutcomePromises(r: Run, g: Group)
    requires g.branchId in r.warehouses
    requires r.paymentMethod == "COD" || r.paymentMethod == "Prepaid"
    ensures StepPromises(r.saleKey, r.paymentMethod, r.sale, g, r.warehouses, GroupOutcome(r, g))
  {
    RequestSent(r.saleKey, r.paymentMethod, r.sale, g, r.warehouses[g.branchId], r.courier.orderDate);
  }

  /** The loop's promises survive adding the outcome of the last group. */
  lemma MatchesAdvance(saleKey: string, paymentMethod: string, sale: Sale, gs: seq<Group>,
                       warehouses: map<int, Json>, prev: Fulfilment, s: GroupStep)
    requires gs != []
    requires LoopMatches(saleKey, paymentMethod, sale, gs[..|gs| - 1], warehouses, prev)
    requires prev.error.None? && prev.manifest.None?
    requires StepPromises(saleKey, paymentMethod, sale, gs[|gs| - 1], warehouses, s)
    ensures LoopMatches(saleKey, paymentMethod, sale, gs, warehouses, Advance(prev, s))
  {
    var n := |gs| - 1;
    LoopMatchesExtend(saleKey, paymentMethod, sale, gs[..n], gs, warehouses, prev);
    OrdersSentAppend(saleKey, paymentMethod, gs, n, prev.orders, [s.payload]);
    if s.error.Some? {
      PickupsTruthy(prev.created, s.pickup);
      if s.error == Some(CourierRejected) {
        assert prev.pickups + s.pickup == ShipmentIds(prev.created);
      }
    } else {
      ShipmentIdsStep(prev.created, s.created);
      ShippedAppend(sale, gs, warehouses, n, prev.created, prev.inserted, s.created, s.row);
    }
  }

  /** The promises about a prefix of the groups carry over to the whole
      list, for the entries the prefix produced. */
  lemma LoopMatchesExtend(
    saleKey: string, paymentMethod: string, sale: Sale, pre: seq<Group>, gs: seq<Group>,
    warehouses: map<int, Json>, f: Fulfilment)
    requires |pre| < |gs| && pre == gs[..|pre|]
    requires LoopMatches(saleKey, paymentMethod, sale, pre, warehouses, f)
    ensures forall j :: 0 <= j < |f.created| ==> Shipped(sale, gs[j], warehouses, f.created[j], f.inserted[j])
    ensures forall j :: 0 <= j < |f.orders| ==> OrderSent(saleKey, paymentMethod, gs[j], f.orders[j])
    ensures f.error.None? ==> |f.created| == |f.orders| == |pre|
  {
    assert forall j :: 0 <= j < |pre| ==> pre[j] == gs[j];
  }

  /** Entry `c` and row `row` are what shipping group `g` returned. */
  predicate EntryFrom(r: Run, g: Group, c: Created, row: ShipmentRow) {
    g.branchId in r.warehouses && GroupOutcome(r, g).error.None?
    && c == GroupOutcome(r, g).created && row == GroupOutcome(r, g).row
  }

  /** Every entry of `f` came from its group's courier replies. */
  predicate EntriesFrom(r: Run, gs: seq<Group>, f: Fulfilment) {
    && |f.created| == |f.inserted| <= |gs|
    && forall j :: 0 <= j < |f.created| ==> EntryFrom(r, gs[j], f.created[j], f.inserted[j])
  }

  /** Every entry the loop keeps comes from its group's courier replies. */
  lemma {:induction false} LoopEntries(r: Run, gs: seq<Group>)
    ensures EntriesFrom(r, gs, Loop(r, gs))
  {
    if gs != [] {
      var n := |gs| - 1;
      LoopEntries(r, gs[..n]);
      LoopCompletes(r, gs[..n]);
      EntriesNext(r, gs, Loop(r, gs[..n]));
    }
  }

  /** The entries survive one more pass of the loop. */
  lemma EntriesNext(r: Run, gs: seq<Group>, prev: Fulfilment)
    requires gs != [] && EntriesFrom(r, gs[..|gs| - 1], prev) && prev.manifest.None?
    requires prev.error.None? ==> |prev.created| == |gs| - 1
    ensures EntriesFrom(r, gs, Next(r, prev, gs[|gs| - 1]))
  {
    EntriesExtend(r, gs, prev);
    if prev.error.None? && gs[|gs| - 1].branchId in r.warehouses {
      EntriesAdvance(r, gs, prev, GroupOutcome(r, gs[|gs| - 1]));
    }
  }

  /** The entries of a prefix's run are entries of the whole list. */
  lemma EntriesExtend(r: Run, gs: seq<Group>, f: Fulfilment)
    requires gs != [] && EntriesFrom(r, gs[..|gs| - 1], f)
    ensures EntriesFrom(r, gs, f) && EntriesFrom(r, gs, f.(error := Some(NoPickupMapped(gs[|gs| - 1].branchId))))
  {
    assert forall j :: 0 <= j < |gs| - 1 ==> gs[..|gs| - 1][j] == gs[j];
  }

  lemma EntriesAdvance(r: Run, gs: seq<Group>, prev: Fulfilment, s: GroupStep)
    requires gs != [] && EntriesFrom(r, gs, prev) && |prev.created| == |gs| - 1
    requires prev.manifest.None?
    requires s.error.None? ==> EntryFrom(r, gs[|gs| - 1], s.created, s.row)
    ensures EntriesFrom(r, gs, Advance(prev, s))
  {
    if s.error.None? {
      var ok := (j: nat, c: Created, row: ShipmentRow) => j < |gs| && EntryFrom(r, gs[j], c, row);
      AppendPairs(ok, prev.created, prev.inserted, s.created, s.row);
    }
  }

  /** The run stops with the error of the first group that fails, right
      after the groups that were shipped. */
  lemma {:induction false} LoopStopsAtFailure(r: Run, gs: seq<Group>)
    ensures StoppedBy(r, gs, Loop(r, gs))
  {
    if gs != [] {
      var n := |gs| - 1;
      LoopStopsAtFailure(r, gs[..n]);
      var prev := Loop(r, gs[..n]);
      if prev.error.Some? {
        StoppedExtend(r, gs, prev);
      } else {
        LoopCompletes(r, gs[..n]);
        StoppedLast(r, gs, prev);
      }
    }
  }

  /** A stopped run `f` stopped at the group right after its shipped ones:
      that group has no pickup location, or shipping it failed with the
      run's error. */
  predicate StoppedBy(r: Run, gs: seq<Group>, f: Fulfilment) {
    f.error.Some? ==>
      && |f.created| < |gs|
      && var g := gs[|f.created|];
      if g.branchId !in r.warehouses then f.error == Some(NoPickupMapped(g.branchId))
      else f.error == GroupOutcome(r, g).error
  }

  lemma StoppedExtend(r: Run, gs: seq<Group>, f: Fulfilment)
    requires gs != [] && StoppedBy(r, gs[..|gs| - 1], f)
    ensures StoppedBy(r, gs, f)
  {
    if f.error.Some? {
      assert gs[..|gs| - 1][|f.created|] == gs[|f.created|];
    }
  }

  lemma StoppedLast(r: Run, gs: seq<Group>, prev: Fulfilment)
    requires gs != [] && prev.error.None? && prev.manifest.None? && |prev.created| == |gs| - 1
    ensures StoppedBy(r, gs, Next(r, prev, gs[|gs| - 1]))
  {
  }

  /** A loop without error shipped every group. */
  lemma {:induction false} LoopCompletes(r: Run, gs: seq<Group>)
    ensures Loop(r, gs).error.None? ==> |Loop(r, gs).created| == |gs|
  {
    if gs != [] {
      LoopCompletes(r, gs[..|gs| - 1]);
    }
  }

  // ---------------------------------------------------------------------
  // The manifest and the whole run

  /** The run after the loop: the manifest is requested for the shipment
      ids when the loop completed with at least one
      (services/orderFulfillment.js:195-197). */
  function Fulfil(r: Run, gs: seq<Group>, manifestReturns: seq<Json> -> bool): Fulfilment {
    WithManifest(Loop(r, gs), manifestReturns)
  }

  /** The run `f` of the loop followed by the manifest request. */
  function WithManifest(f: Fulfilment, manifestReturns: seq<Json> -> bool): Fulfilment {
    var ids := ShipmentIds(f.created);
    if f.error.None? && ids != [] then
      f.(manifest := Some(ids), error := if manifestReturns(ids) then None else Some(ManifestRejected))
    else f
  }

  lemma FulfilPromises(r: Run, gs: seq<Group>, manifestReturns: seq<Json> -> bool)
    requires r.paymentMethod == "COD" || r.paymentMethod == "Prepaid"
    ensures FulfilmentMatches(r.saleKey, r.paymentMethod, r.sale, gs, r.warehouses, manifestReturns, Fulfil(r, gs, manifestReturns))
  {
    LoopPromises(r, gs);
    ManifestPromises(r.saleKey, r.paymentMethod, r.sale, gs, r.warehouses, manifestReturns, Loop(r, gs));
  }

  /** The manifest request keeps the loop's promises and adds the manifest's. */
  lemma ManifestPromises(
    saleKey: string, paymentMethod: string, sale: Sale, gs: seq<Group>, warehouses: map<int, Json>,
    manifestReturns: seq<Json> -> bool, f: Fulfilment)
    requires LoopMatches(saleKey, paymentMethod, sale, gs, warehouses, f) && f.manifest.None?
    ensures FulfilmentMatches(saleKey, paymentMethod, sale, gs, warehouses, manifestReturns, WithManifest(f, manifestReturns))
  {
    assert f.(error := if f.error == Some(ManifestRejected) then None else f.error) == f;
  }

  /** The loop and then the manifest request, made only when at least one
      shipment id came back (services/orderFulfillment.js:119-198). */
  method ShipAll(sr: SR.Shiprocket, r: Run, gs: seq<Group>, manifestReturns: seq<Json> -> bool)
    returns (f: Fulfilment)
    requires sr.token == Some(r.courier.token)
    requires r.paymentMethod == "COD" || r.paymentMethod == "Prepaid"
    modifies sr`token, sr`sent
    ensures f == Fulfil(r, gs, manifestReturns)
    ensures sr.sent == old(sr.sent) + LoopCalls(r, gs)
    ensures FulfilmentMatches(r.saleKey, r.paymentMethod, r.sale, gs, r.warehouses, manifestReturns, f)
  {
    f := ShipGroups(sr, r, gs);
    if f.error.None? {
      var ids := ShipmentIds(f.created);
      if ids != [] {
        f := f.(manifest := Some(ids), error := if manifestReturns(ids) then None else Some(ManifestRejected));
      }
    }
    FulfilPromises(r, gs, manifestReturns);
  }

  /** The run of a sale whose stored token is `token`. */
  function RunOf(sale: Sale, warehouses: map<int, Json>, token: string, orderDate: string,
                 server: SR.ApiCall -> SR.Reply, pickupReturns: Json -> bool): Run {
    Run(ToStr(sale.id), PaymentMethodFor(sale), sale, warehouses, Courier(token, orderDate, server, pickupReturns))
  }

  /** `fulfillOrderWithShiprocket` (services/orderFulfillment.js:98-200).
      `pickupReturns` and `manifestReturns` say whether `requestPickup` and
      `generateManifest` return or throw; `calls` are the requests sent. */
  method FulfilOrder(
    ctx: Ctx, sale: Sale, accounts: seq<Option<string>>, warehouses: map<int, Json>,
    orderDate: string, server: SR.ApiCall -> SR.Reply,
    pickupReturns: Json -> bool, manifestReturns: seq<Json> -> bool)
    returns (f: Fulfilment, calls: seq<SR.ApiCall>)
    ensures SR.StoredToken(accounts).None? ==> f == Fulfilment([], [], [], [], None, Some(TokenMissing)) && calls == []
    ensures SR.StoredToken(accounts).Some? ==>
      var plan := Plan(ctx, DeliveryPin(sale.shippingAddress, sale.pincode), sale.items);
      var r := RunOf(sale, warehouses, SR.StoredToken(accounts).value, orderDate, server, pickupReturns);
      (plan.Failed? ==> f == Fulfilment([], [], [], [], None, Some(PlanFailed(plan.error))) && calls == []) &&
      (plan.Done? ==>
        && f == Fulfil(r, plan.value, manifestReturns)
        && calls == LoopCalls(r, plan.value)
        && FulfilmentMatches(ToStr(sale.id), PaymentMethodFor(sale), sale, plan.value, warehouses, manifestReturns, f))
  {
    var sr := new SR.Shiprocket(accounts);
    var ok := sr.Init();
    if !ok {
      return Fulfilment([], [], [], [], None, Some(TokenMissing)), sr.sent;
    }
    var plan := PlanShipments(ctx, sale.shippingAddress, sale.pincode, sale.items);
    if plan.Failed? {
      return Fulfilment([], [], [], [], None, Some(PlanFailed(plan.error))), sr.sent;
    }
    var r := RunOf(sale, warehouses, sr.token.value, orderDate, server, pickupReturns);
    f := ShipAll(sr, r, plan.value, manifestReturns);
    calls := sr.sent;
  }

  /** As written, services/shiprocketService.js defines no `requestPickup`
      or `generateManifest`, so every pickup request throws. Then no entry
      with a truthy shipment id survives, every row written is CREATED
      (none is READY), and the manifest is never requested. */
  lemma PickupMissingAsWritten(r: Run, gs: seq<Group>, manifestReturns: seq<Json> -> bool)
    requires forall id :: !r.courier.pickupReturns(id)
    ensures var f := Fulfil(r, gs, manifestReturns);
      && ShipmentIds(f.created) == []
      && f.manifest.None?
      && AllCreated(f.inserted)
  {
    NoTruthyIdsWithoutPickup(r, gs);
  }

  lemma {:induction false} NoTruthyIdsWithoutPickup(r: Run, gs: seq<Group>)
    requires forall id :: !r.courier.pickupReturns(id)
    ensures ShipmentIds(Loop(r, gs).created) == []
    ensures AllCreated(Loop(r, gs).inserted)
  {
    if gs != [] {
      var n := |gs| - 1;
      NoTruthyIdsWithoutPickup(r, gs[..n]);
      var prev := Loop(r, gs[..n]);
      if prev.error.None? && gs[n].branchId in r.warehouses {
        NoPickupStep(r, gs[n], prev);
      }
    }
  }

  /** Every row has status CREATED. */
  predicate AllCreated(rows: seq<ShipmentRow>) {
    forall j :: 0 <= j < |rows| ==> rows[j].status == "CREATED"
  }

  /** Without pickups, one more group adds no truthy shipment id and no
      READY row. */
  lemma NoPickupStep(r: Run, g: Group, prev: Fulfilment)
    requires forall id :: !r.courier.pickupReturns(id)
    requires g.branchId in r.warehouses && prev.manifest.None?
    requires ShipmentIds(prev.created) == [] && AllCreated(prev.inserted)
    ensures ShipmentIds(Advance(prev, GroupOutcome(r, g)).created) == []
    ensures AllCreated(Advance(prev, GroupOutcome(r, g)).inserted)
  {
    NoPickupOutcome(r.courier, r.sale.id, g.branchId, RequestOf(r, g));
    AdvanceCreated(prev, GroupOutcome(r, g));
  }

  /** Without pickups, a group that ships has a falsy shipment id and a
      CREATED row. */
  lemma NoPickupOutcome(c: Courier, saleId: Json, branchId: int, req: SR.ShipmentRequest)
    requires forall id :: !c.pickupReturns(id)
    ensures var s := ShipOutcome(c, saleId, branchId, req);
      s.error.None? ==> !Truthy(s.created.shipmentId) && s.row.status == "CREATED"
  {
  }

  lemma AdvanceCreated(prev: Fulfilment, s: GroupStep)
    requires prev.manifest.None? && ShipmentIds(prev.created) == [] && AllCreated(prev.inserted)
    requires s.error.None? ==> !Truthy(s.created.shipmentId) && s.row.status == "CREATED"
    ensures ShipmentIds(Advance(prev, s).created) == [] && AllCreated(Advance(prev, s).inserted)
  {
    if s.error.None? {
      ShipmentIdsStep(prev.created, s.created);
    }
  }

  /** The order sent for group `g` carries the group's channel order id
      (the sale id, a dash and the branch id), the sale's payment method and
      one item per line of the group. */
  predicate OrderSent(saleKey: string, paymentMethod: string, g: Group, payload: SR.OrderPayload) {
    && payload.orderId == ChannelOrderId(saleKey, g.branchId)
    && payload.paymentMethod == paymentMethod
    && |payload.orderItems| == |g.items|
  }

  /** Group `g` was shipped: it has a pickup location and its row agrees
      with its created entry. */
  predicate Shipped(sale: Sale, g: Group, warehouses: map<int, Json>, c: Created, row: ShipmentRow) {
    g.branchId in warehouses && RowMatches(sale.id, g.branchId, c, row)
  }

  /** What the loop promises: one row per created entry, rows agreeing
      with their groups, the order payloads sent in group order (one more
      than the rows when a courier call failed), and pickups requested
      exactly for the returned shipment ids. */
  predicate LoopMatches(
    saleKey: string, paymentMethod: string, sale: Sale, gs: seq<Group>, warehouses: map<int, Json>, f: Fulfilment)
  {
    && |f.created| == |f.inserted| <= |f.orders| <= |gs|
    && |f.orders| <= |f.created| + 1
    && (f.error.None? <==> |f.created| == |gs|)
    && (f.error.Some? ==> f.error.value.NoPickupMapped? || f.error == Some(CourierRejected) || f.error == Some(PickupRejected))
    && (forall j :: 0 <= j < |f.created| ==> Shipped(sale, gs[j], warehouses, f.created[j], f.inserted[j]))
    && (forall j :: 0 <= j < |f.orders| ==> OrderSent(saleKey, paymentMethod, gs[j], f.orders[j]))
    && (forall p :: p in f.pickups ==> Truthy(p))
    && (f.error != Some(PickupRejected) ==> f.pickups == ShipmentIds(f.created))
  }

  /** What a run promises once a plan exists: the loop's promises, and a
      manifest exactly when the loop completed with at least one shipment
      id; the run succeeds when the loop completed and the manifest, if
      any, was generated. */
  predicate FulfilmentMatches(
    saleKey: string, paymentMethod: string, sale: Sale, gs: seq<Group>, warehouses: map<int, Json>,
    manifestReturns: seq<Json> -> bool, f: Fulfilment)
  {
    && LoopMatches(saleKey, paymentMethod, sale, gs, warehouses, f.(error := if f.error == Some(ManifestRejected) then None else f.error))
    && f.manifest == (if |f.created| == |gs| && ShipmentIds(f.created) != [] then Some(ShipmentIds(f.created)) else None)
    && (f.error.None? <==> |f.created| == |gs| && (f.manifest.Some? ==> manifestReturns(f.manifest.value)))
  }

}
