# Taras Kart backend: a verified model of its order, courier and account rules

Taras Kart is an Express and PostgreSQL back end for a clothing shop with several branches. This project models, in Dafny, the rules its handlers apply between reading a request and writing the database:

- **Order fulfilment** (`OrderFulfillment`, `order_fulfillment.dfy`):
  - picking a branch for each line of a sale, by stock, delivery pincode and distance;
  - splitting the sale into one group per branch;
  - the fulfilment loop, which sends one courier order per group, asks for AWBs, labels and pickups, and would then ask for a manifest (as written, the pickup call always throws, so no manifest is ever requested; see below).
- **Web checkout** (`SalesRoutes`, `sales_routes.dfy`):
  - the bag, discount, coupon and payable totals;
  - the sale and line rows the checkout writes in one transaction;
  - the per-user order listing that files lines under their sales.
- **Courier routes** (`ShiprocketRoutes`, `shiprocket_routes.dfy`):
  - pincode and cash-on-delivery pickers;
  - label, manifest and invoice URL fallbacks;
  - matching warehouses to branches;
  - the order ids sent to the printers;
  - the status webhook and the pincode serviceability check.
- **Courier client** (`ShiprocketService`, `shiprocket_service.dfy`):
  - the lazily loaded API token;
  - the order and warehouse payloads;
  - the AWB-then-label sequence.
- **Returns** (`ReturnsRoutes`, `returns_routes.dfy`):
  - the seven-day eligibility window;
  - return requests and their item rows, with the placeholder numbering of the multi-row insert;
  - approval and rejection.
- **Cart** (`CartRoutes`, `cart_routes.dfy`): update-or-insert, delete and the cart listing.
- **Customer accounts** (`AuthRoutes`, `auth_routes.dfy`): login and the password-reset OTP lifecycle.
- **Staff accounts**:
  - branch staff login and password change (`AuthBranchRoutes`, `auth_branch_routes.dfy`);
  - the staff login middleware that upgrades plaintext passwords to hashes (`AuthMiddleware`, `auth_middleware.dfy`).
- **Branch inventory import** (`BranchInventoryRoutes`, `branch_inventory_routes.dfy`): the bearer-token guard, the branch guard, import jobs and their listing.
- **Product catalogue** (`ProductRoutes`, `product_routes.dfy`): field validation, normalisation, the 404 rules and the listings.
- **File-backed user API** (`JsonUserApi`, `json_user_api.dfy`): signup and login over `data/users.json`.

`Js` (`js.dfy`) models the JavaScript values the handlers work on: truthiness, `||`, `??`, optional chaining, `String(...)`, `Number(...)` and `===`. `Common` (`common.dfy`) models strings: `trim`, case mapping, decimal rendering and `parseInt`.

How the model represents the system:

- Database tables are fields holding sequences or maps:
  - handlers that update rows are methods of a class;
  - handlers that only compute are functions.
- Query results, clocks, random draws, bcrypt, JWT, e-mail and every courier HTTP reply are parameters.
- Where a handler catches a failing statement and answers differently, the failure is a parameter naming where it happens: the sale transaction (`SalesRoutes.SalesStore.Place`), the return request and item inserts (`ReturnsRoutes.ReturnStore`) and the webhook update (`ShiprocketRoutes.Webhook`). Elsewhere a failing query is not modelled; the handler would answer with its generic 500 reply.
- Each loop of the source is a method with invariants, proved to compute a specification function. The lemmas beside it prove the properties of that function.

Behaviour of the code worth knowing:

- Fulfilment has no per-group error handling: the first group that throws (for example, one without a warehouse mapping) aborts the remaining groups.
- Stock is only read, never decremented or reserved.
- Groups are processed in the order JavaScript iterates the keys of the grouping object: integer-like branch ids first, ascending, then any other keys in the order they were first created (`OrderFulfillment.Grouping`, `OrderFulfillment.GroupingFollowsFirstAppearance`).
- Every truthy shipment id would go to the manifest, whether or not an AWB was obtained.
- services/shiprocketService.js defines neither `requestPickup` nor `generateManifest`. Calling the missing `requestPickup` throws for every truthy shipment id, so as written no group with a shipment id completes, no READY row is written and no manifest is requested (`OrderFulfillment.PickupMissingAsWritten`). The model keeps the pickup and manifest outcomes as parameters so the intended flow is also proved.
- `checkServiceability` is not defined either, so the pincode check as written always ends in its 500 reply once the pincode is valid and a pickup pincode exists (`ShiprocketRoutes.PincodeCheckAsWritten`).
- The return item insert names `reason_code` twice in its column list, which PostgreSQL rejects. As written, a return request with items is stored without any item row and answered with a 500 (`ReturnsRoutes.ReturnStore.CreateAsWritten`).

## Model

| member | source | states |
|---|---|---|
| OrderFulfillment.Candidates | services/orderFulfillment.js:38-47 | there are never more candidate rows than stock rows |
| OrderFulfillment.CandidateHasStock | services/orderFulfillment.js:41-43 | every candidate branch has a stock row for the variant whose free quantity (on hand minus reserved) covers the order quantity |
| OrderFulfillment.StockYieldsCandidate | services/orderFulfillment.js:41-43 | every covering stock row of a known branch makes that branch a candidate; this is the converse of CandidateHasStock |
| OrderFulfillment.SamePin | services/orderFulfillment.js:59 | the pincode filter never grows the list and is empty when the delivery pincode is falsy |
| OrderFulfillment.SamePinMembers | services/orderFulfillment.js:59 | a candidate survives the pincode filter exactly when the delivery pincode is truthy and equals the candidate's pincode as a string (both directions) |
| OrderFulfillment.FirstNearest | services/orderFulfillment.js:62-66 | the chosen candidate is at least as near as every candidate in the pool, and every candidate before it is strictly farther, which is the head of a stable sort by distance |
| OrderFulfillment.PickedBranchHasStock | services/orderFulfillment.js:49-70 | when there is no forced branch and some candidate exists, a branch is chosen and it has a covering stock row |
| OrderFulfillment.PickedBranchPrefersPincode | services/orderFulfillment.js:58-60 | when some candidate shares the delivery pincode, the chosen branch shares it too |
| OrderFulfillment.PickedBranchIsNearest | services/orderFulfillment.js:60-69 | with a known customer location the chosen branch is no farther than any branch of the pool; without one it is the first branch of the pool |
| OrderFulfillment.ItemQty | services/orderFulfillment.js:82 | an item with neither `qty` nor `quantity` has quantity 1 |
| OrderFulfillment.Spread | services/orderFulfillment.js:89 | the normalised item carries the parsed `variant_id` and `qty` |
| OrderFulfillment.AssignOneFacts | services/orderFulfillment.js:81-89 | an item with a missing or zero variant id or a quantity of zero or less is rejected as invalid; an accepted item keeps its parsed variant and a positive quantity, is normalised, and goes to the non-zero branch the branch choice returned |
| OrderFulfillment.GroupsAt | services/orderFulfillment.js:92-95 | one group per key, in key order, each holding the items assigned to that branch |
| Common.Min | services/orderFulfillment.js:92 | the least element of a non-empty set of branch ids |
| Common.SortedKeys | services/orderFulfillment.js:92 | the ascending listing of a finite set of integers: each element exactly once, strictly ascending (the order in which a JavaScript object lists its array-index keys) |
| OrderFulfillment.GroupingStep | services/orderFulfillment.js:88-89 | appending one item to its branch's list keeps the map equal to the per-branch grouping of the lines seen so far |
| OrderFulfillment.GroupByBranch | services/orderFulfillment.js:78-90 | the loop fails exactly as the specification assignment fails, with the first failing item's error; otherwise the object holds, for each chosen branch, the items assigned to it in input order, and its keys were created in the order the branches first appear |
| OrderFulfillment.GroupItem | services/orderFulfillment.js:81-89 | one pass of the loop: a failing item is the failure of the whole assignment; an accepted one extends the assignment and the object stays its grouping |
| OrderFulfillment.AssignItem | services/orderFulfillment.js:81-86 | the checks and branch choice for one item fail exactly as the whole assignment fails there, or extend the assigned prefix by one line |
| OrderFulfillment.AddLine | services/orderFulfillment.js:88-89 | pushing an item onto its branch's list, creating the key when no earlier line had that branch, keeps the object equal to the grouping of the lines, including the creation order of its keys |
| OrderFulfillment.GroupsOfMatches | services/orderFulfillment.js:92-95 | reading the groups out of the map gives the grouping of the lines |
| OrderFulfillment.PlanShipments | services/orderFulfillment.js:72-96 | the method returns the specification `Plan`: all items in one group for a forced branch, otherwise the first error or the grouping of the per-item branch choices |
| OrderFulfillment.ForcedPlanIgnoresStock | services/orderFulfillment.js:73-75 | with a forced branch the plan is that one group of the unchanged items, whatever the stock |
| OrderFulfillment.InvalidItemAbortsPlan | services/orderFulfillment.js:83 | one invalid item anywhere makes the whole plan fail |
| OrderFulfillment.AssignFailurePersists | services/orderFulfillment.js:80-90 | once an item fails, the items after it are never looked at |
| OrderFulfillment.Grouping | services/orderFulfillment.js:88-95 | one group per distinct branch, each holding exactly that branch's items; groups come in the order the object lists its keys, so array-index branch ids come first and ascending |
| OrderFulfillment.GroupingFollowsFirstAppearance | services/orderFulfillment.js:88-95 | a group whose branch id is not an array index comes before a later group only if its branch appeared in the input before every line of the later group |
| OrderFulfillment.KeysFollowFirstAppearance | services/orderFulfillment.js:88-92 | the same order fact for the keys of the grouping object: a non-index key precedes another only when its branch was seen first |
| OrderFulfillment.ObjectKeysFacts | services/orderFulfillment.js:92 | an object lists exactly its index keys and its created other keys, and an index key only after smaller index keys (JavaScript's property order) |
| OrderFulfillment.ObjectKeysFollowCreation | services/orderFulfillment.js:92 | keys that are not array indices are listed in creation order |
| OrderFulfillment.NonIndexKeys | services/orderFulfillment.js:92 | the non-index keys are exactly the created keys that are not array indices |
| OrderFulfillment.NonIndexKeysOrder | services/orderFulfillment.js:92 | filtering the created keys keeps their relative order |
| OrderFulfillment.FirstSeenMembers | services/orderFulfillment.js:88 | the keys created by the loop are exactly the branches of the lines |
| OrderFulfillment.FirstSeenOrder | services/orderFulfillment.js:88 | a key created before another has a line before every line of the later key |
| OrderFulfillment.GroupKeysCount | services/orderFulfillment.js:92 | the object has one key per distinct branch |
| OrderFulfillment.GroupsNonEmpty | services/orderFulfillment.js:88-89 | no group is empty |
| OrderFulfillment.EveryLineGrouped | services/orderFulfillment.js:88-89 | every accepted item lies in the group of its own branch |
| OrderFulfillment.GroupHoldsOnlyItsBranch | services/orderFulfillment.js:88-89 | a group holds only items assigned to its branch |
| OrderFulfillment.PlanIsGrouping | services/orderFulfillment.js:80-95 | without a forced branch a successful plan assigns every item and is the grouping of those assignments |
| OrderFulfillment.PlanConservesQuantity | services/orderFulfillment.js:80-95 | for every variant, the quantities over all groups add up to the quantity ordered; the split loses and duplicates nothing |
| OrderFulfillment.GroupingConservesQuantity | services/orderFulfillment.js:88-95 | grouping lines by branch keeps, for every variant, the total quantity of the lines |
| OrderFulfillment.LinesMatchInput | services/orderFulfillment.js:80-90 | the assigned lines are one per item and carry the same total quantity per variant as the input |
| OrderFulfillment.PaymentMethodFor | services/orderFulfillment.js:106-110 | the method is "COD" exactly when the upper-cased payment status is COD and the numeric payable is positive, and "Prepaid" otherwise |
| OrderFulfillment.ChannelOrderIdsDistinct | services/orderFulfillment.js:119 | two groups of one sale with different branch ids get different channel order ids |
| OrderFulfillment.ShipmentIds | services/orderFulfillment.js:152-156 | only truthy shipment ids are collected for the manifest, at most one per group |
| OrderFulfillment.ShipGroup | services/orderFulfillment.js:121-187 | the result is ShipOutcome of the courier's replies, and the requests sent grow by exactly the order request, then for a truthy shipment id the AWB request and, when that succeeded, the label request; the order payload sent is the group's request; on success the row agrees with the created entry and a pickup is asked for exactly when the shipment id is truthy |
| OrderFulfillment.ShipOutcome | services/orderFulfillment.js:121-187 | the outcome of one group from the replies: a courier error exactly when the order request threw or, for a truthy shipment id, the AWB or label request threw; a pickup error exactly when those returned and the pickup threw; otherwise the entry carries the reply's shipment id, the AWB code and label URL from the replies (null for a falsy id), the row carries the reply's order id and tracking URL, and is READY exactly when an AWB was obtained |
| OrderFulfillment.ShipCreated | services/orderFulfillment.js:147-187 | after the order request returned, the outcome is ShipOutcome and the requests sent grow by the AWB request and, when that succeeded, the label request, only for a truthy shipment id |
| OrderFulfillment.GroupCalls | services/orderFulfillment.js:121-153 | a group sends one to three requests, the order request first |
| OrderFulfillment.RejectedByLastCall | services/orderFulfillment.js:121-153 | a group stops with the courier error exactly when the last request it sent threw |
| OrderFulfillment.RequestSent | services/orderFulfillment.js:119-132 | the payload for a group carries the channel order id, the payment method and one item per line of the group |
| OrderFulfillment.ShipGroups | services/orderFulfillment.js:112-193 | the result is the specification loop Loop over the groups and the requests sent grow by exactly LoopCalls; the loop stops at the first group without a pickup location or whose shipping fails; the rows written agree with their groups in order, one order payload is sent per group reached, and pickups are requested exactly for the truthy shipment ids |
| OrderFulfillment.ShipNext | services/orderFulfillment.js:113-187 | one pass: a group without a pickup location stops the run with NoPickupMapped; otherwise the group is shipped and its payload, pickup, and on success its entry and row are added, as Next states; the requests sent grow by that group's requests |
| OrderFulfillment.LoopStopPersists | services/orderFulfillment.js:117 | once the loop has stopped, later groups change nothing and send nothing |
| OrderFulfillment.LoopPromises | services/orderFulfillment.js:112-193 | every run of the loop keeps its promises: rows agree with their groups in order, one payload per group reached, pickups exactly for the truthy shipment ids, and the error is one of the loop's three |
| OrderFulfillment.MatchesAdvance | services/orderFulfillment.js:121-192 | those promises survive adding one shipped group's outcome |
| OrderFulfillment.LoopEntries | services/orderFulfillment.js:147-192 | every entry and row the loop keeps is exactly what its group's courier replies produced |
| OrderFulfillment.LoopStopsAtFailure | services/orderFulfillment.js:117-158 | a stopped run stopped at the group right after the shipped ones, with NoPickupMapped when it had no pickup location and otherwise with that group's own shipping error |
| OrderFulfillment.LoopCompletes | services/orderFulfillment.js:112-193 | a loop without error shipped every group |
| OrderFulfillment.ShipAll | services/orderFulfillment.js:112-198 | the result is Fulfil (the loop, then the manifest) and the requests sent are exactly LoopCalls; on top of the loop's promises, the manifest is requested exactly when the loop completed with at least one shipment id, and the run succeeds exactly when the loop completed and that request, if any, returned |
| OrderFulfillment.FulfilPromises | services/orderFulfillment.js:112-198 | every run, manifest included, keeps the promises ShipAll states |
| OrderFulfillment.ManifestPromises | services/orderFulfillment.js:195-197 | the manifest step keeps the loop's promises and asks for the manifest exactly when the loop completed with a shipment id |
| OrderFulfillment.FulfilOrder | services/orderFulfillment.js:98-200 | no stored token means nothing is sent; a failed plan means nothing is sent and its error is reported; otherwise the run is Fulfil of the plan's groups with the courier's replies, the requests sent are exactly LoopCalls, and the run keeps the promises ShipAll states |
| OrderFulfillment.PickupMissingAsWritten | services/orderFulfillment.js:152-158 | with `requestPickup` missing (every pickup throws), no entry with a truthy shipment id survives, every row written is CREATED and no manifest is requested |
| OrderFulfillment.NoTruthyIdsWithoutPickup | services/orderFulfillment.js:152-183 | the same for the loop alone: without pickups, the loop keeps no truthy shipment id and writes only CREATED rows |
| SalesRoutes.FloorPercent | routes/salesRoutes.js:44 | the result is the floor of a hundredth of its argument (it lies within one unit below x/100), and NaN stays NaN |
| SalesRoutes.BagMinusDiscountIsNet | routes/salesRoutes.js:36-42 | with numeric lines both totals are numbers, and the bag total minus the discount total is the sum over the lines of the lesser of mrp and price times the quantity |
| SalesRoutes.LineBagMinusDiscount | routes/salesRoutes.js:40-41 | for one line, `mrp * qty - max(mrp - price, 0) * qty` is `min(mrp, price) * qty` |
| SalesRoutes.OptionNet | routes/salesRoutes.js:40-41 | the same identity on numeric mrp, price and quantity whatever line they come from |
| SalesRoutes.NonNumericQtyPoisonsBag | routes/salesRoutes.js:39-40 | one line whose quantity is not a number makes the bag total NaN |
| SalesRoutes.ComputeTotals | routes/salesRoutes.js:34-42 | the loop computes the specification bag total and discount total, NaN included |
| SalesRoutes.CouponDiscount | routes/salesRoutes.js:44 | the coupon discount is a number exactly when the bag total, the discount total and the coupon percentage are |
| SalesRoutes.PayableWithoutExtras | routes/salesRoutes.js:43-47 | with no coupon, convenience fee or gift wrap the payable amount is the net line total |
| SalesRoutes.CouponWithinNet | routes/salesRoutes.js:44 | a coupon of 0 to 100 percent on a non-negative net amount takes off between nothing and all of it, rounded down in the shop's favour |
| SalesRoutes.ItemRows | routes/salesRoutes.js:91-108 | one line row per item, in item order |
| SalesRoutes.ItemRowsStep | routes/salesRoutes.js:91-108 | inserting the next line's row extends the rows written so far by exactly that row |
| SalesRoutes.ItemRowsAll | routes/salesRoutes.js:91-108 | after the last line, the rows appended are exactly the rows of all lines |
| SalesRoutes.ItemRowDefaults | routes/salesRoutes.js:96-100 | each line row belongs to its sale, a missing quantity is stored as 1, and the variant falls back to the product id when no variant id is given |
| SalesRoutes.DefaultPaymentIsCod | routes/salesRoutes.js:72 | a checkout without a payment status is stored as COD, which the courier routes treat as cash on delivery |
| SalesRoutes.SalesStore.Place | routes/salesRoutes.js:18-118 | an empty or missing item list is refused with no write; a failing insert rolls both tables back and answers a server error; otherwise exactly one sale row and one row per line are appended and the computed breakdown is returned |
| SalesRoutes.SalesStore.InsertLines | routes/salesRoutes.js:91-108 | the insert loop fails exactly when the failing insert is one of the lines; without a failure it appends the rows of all lines in order |
| SalesRoutes.LinesFor | routes/salesRoutes.js:165-168 | the lines filed under a key are lines of the query, all carrying that key |
| SalesRoutes.HasKeyInit | routes/salesRoutes.js:164 | the keys of a list of sales are the keys of its prefix plus the last sale's key |
| SalesRoutes.KeysInOrder | routes/salesRoutes.js:164 | the map's keys are exactly the keys of the listed sales, each once, in first-insertion order |
| SalesRoutes.LastSaleWith | routes/salesRoutes.js:164 | the record a key maps to is a listed sale with that key |
| SalesRoutes.FileSales | routes/salesRoutes.js:164 | the first loop files one record per distinct key, in insertion order, holding the last sale with that key and no lines |
| SalesRoutes.AttachLines | routes/salesRoutes.js:165-168 | the second loop gives each record exactly the lines carrying its key, in query order, and adds no keys |
| SalesRoutes.GroupBySale | routes/salesRoutes.js:163-169 | the grouping read back in insertion order is the specification `Listing` |
| SalesRoutes.LineReachesItsSale | routes/salesRoutes.js:165-168 | every line is filed under its own sale's key |
| SalesRoutes.LineOfUnlistedSaleIsDropped | routes/salesRoutes.js:166-167 | a line whose sale is not listed appears in no record |
| SalesRoutes.ListingKeepsSaleOrder | routes/salesRoutes.js:129-169 | with distinct sale ids the listing has one record per sale, in the order the query returned them |
| SalesRoutes.DistinctKeysInOrder | routes/salesRoutes.js:164 | with distinct sale ids the map's key order is the order of the sales |
| SalesRoutes.ListByUser | routes/salesRoutes.js:120-176 | a blank e-mail is refused and only a blank one; an unknown user gets an empty list; otherwise the answer is the listing of that user's sales with their lines |
| SalesRoutes.SaleRowDefaults | routes/salesRoutes.js:50-88 | the sale row always has source WEB, status PLACED and the server-computed payable as its total; its e-mail is the login e-mail, else the customer e-mail; its totals are the client's when sent, else the computed breakdown; a sent payment status is kept; a user id is written exactly when the table has that column |
| ShiprocketRoutes.AsUpper | routes/shiprocketRoutes.js:8 | a nullish value normalises to the empty string; the result has no lower-case letter and no surrounding whitespace |
| ShiprocketRoutes.AsUpperIdempotent | routes/shiprocketRoutes.js:8 | normalising an already normalised value changes nothing |
| ShiprocketRoutes.Norm | routes/shiprocketRoutes.js:127 | a nullish value normalises to the empty string, and the result has no upper-case letter |
| ShiprocketRoutes.TrimmedOr | routes/shiprocketRoutes.js:130 | a falsy value gives the empty string, and the result has no surrounding whitespace |
| ShiprocketRoutes.SafeJsonParse | routes/shiprocketRoutes.js:10-18 | a falsy value gives null, an object or array is kept as it is, and anything else is either what the parser returned or null |
| ShiprocketRoutes.DeliveryPinFromSale | routes/shiprocketRoutes.js:20-26 | the first non-empty pincode column of the sale wins, trimmed |
| ShiprocketRoutes.DeliveryPinFromAddress | routes/shiprocketRoutes.js:28-34 | with no pincode column set, the first non-empty key of the parsed shipping address wins, trimmed |
| ShiprocketRoutes.DeliveryPinAbsent | routes/shiprocketRoutes.js:20-37 | with nothing set anywhere the delivery pincode is empty |
| ShiprocketRoutes.UnparseableAddressIsAbsent | routes/shiprocketRoutes.js:10-18 | a shipping address that does not parse counts as no address: only the sale's own columns can supply the pincode |
| ShiprocketRoutes.DeliveryPinTrimmed | routes/shiprocketRoutes.js:26 | the delivery pincode never has surrounding whitespace |
| ShiprocketRoutes.FulfilmentCodIsRouteCod | routes/shiprocketRoutes.js:39-45 | a sale the fulfilment driver sends as COD is also cash on delivery for the courier routes |
| ShiprocketRoutes.CashOnDeliveryIsCod | routes/shiprocketRoutes.js:41-43 | a payment method written "Cash on delivery" selects COD whatever the payment status says |
| ShiprocketRoutes.AcceptedPin | routes/shiprocketRoutes.js:70-71 | a pickup pincode is accepted exactly when its trimmed text is six characters long, and then it is that text |
| ShiprocketRoutes.PickupPincodeForSale | routes/shiprocketRoutes.js:63-87 | the result is empty or six characters; with a branch named, the warehouse pincode wins over the branch's own, which wins over that of any active branch; the result is empty exactly when no consulted pincode is acceptable |
| ShiprocketRoutes.PickLabelUrl | routes/shiprocketRoutes.js:89-97 | null exactly when no label path holds a truthy value; otherwise one of those values |
| ShiprocketRoutes.PickManifestUrl | routes/shiprocketRoutes.js:99-101 | null exactly when no manifest path holds a truthy value; otherwise one of those values |
| ShiprocketRoutes.PickInvoiceUrl | routes/shiprocketRoutes.js:103-105 | null exactly when no invoice path holds a truthy value; otherwise one of those values |
| ShiprocketRoutes.LabelUrlPrefersEarlierPaths | routes/shiprocketRoutes.js:90-95 | the label picker returns the first path that holds a truthy value |
| ShiprocketRoutes.ManifestUrlPrefersEarlierPaths | routes/shiprocketRoutes.js:100 | the manifest picker returns the first path that holds a truthy value |
| ShiprocketRoutes.InvoiceUrlPrefersEarlierPaths | routes/shiprocketRoutes.js:104 | the invoice picker returns the first path that holds a truthy value |
| ShiprocketRoutes.FindBy | routes/shiprocketRoutes.js:132-135 | the index found is the first pickup whose key equals the target, and none is found only when no pickup matches |
| ShiprocketRoutes.EntryFor | routes/shiprocketRoutes.js:137-165 | each result entry names its branch, and it is the error entry exactly when no pickup matched |
| ShiprocketRoutes.ImportResults | routes/shiprocketRoutes.js:128-166 | one result per branch, in branch order |
| ShiprocketRoutes.PinMatchWins | routes/shiprocketRoutes.js:130-132 | a pickup whose pin code equals the branch's trimmed pincode is chosen, the first such one, and the city is not consulted |
| ShiprocketRoutes.CityMatchIsFallback | routes/shiprocketRoutes.js:133-136 | without a pincode match, the first pickup in the branch's city is chosen, both cities trimmed and lower-cased |
| ShiprocketRoutes.NoMatchIsError | routes/shiprocketRoutes.js:137-140 | with neither a pincode nor a city match the branch gets the error entry |
| ShiprocketRoutes.UnmatchedKeyUntouched | routes/shiprocketRoutes.js:137-140 | a branch id none of whose rows matched keeps its old warehouse row, or its absence |
| ShiprocketRoutes.MatchedKeyHoldsItsRow | routes/shiprocketRoutes.js:141-164 | a matched branch's warehouse row is the one built from its pickup, pickup details winning over the branch's own, unless a later row with the same id overwrote it |
| ShiprocketRoutes.WarehouseTable.Upsert | routes/shiprocketRoutes.js:143-164 | the upsert on branch id sets that branch's row and leaves every other row alone |
| ShiprocketRoutes.ImportStep | routes/shiprocketRoutes.js:129-166 | one more branch adds its entry to the results and, when it matched, its row to the table |
| ShiprocketRoutes.ImportWarehouses | routes/shiprocketRoutes.js:118-172 | the import returns the specification results and leaves the table as the specification upserts say |
| ShiprocketRoutes.OrderIdsOf | routes/shiprocketRoutes.js:484-486 | the ids kept are exactly the non-nullish order ids of the rows |
| ShiprocketRoutes.IndexOf | routes/shiprocketRoutes.js:482-488 | the position of the first occurrence of a value |
| ShiprocketRoutes.Dedup | routes/shiprocketRoutes.js:482-488 | duplicates are removed, and the same values remain |
| ShiprocketRoutes.DedupKeepsFirstOccurrenceOrder | routes/shiprocketRoutes.js:482-488 | the deduplicated ids keep the order of their first occurrences, as a JavaScript Set does |
| ShiprocketRoutes.IndexOfPrefix | routes/shiprocketRoutes.js:482-488 | a first occurrence in a prefix is the first occurrence in the whole list |
| ShiprocketRoutes.DedupIdempotent | routes/shiprocketRoutes.js:482-488 | removing duplicates twice removes nothing more |
| ShiprocketRoutes.DedupOfDistinct | routes/shiprocketRoutes.js:482-488 | a list without duplicates is left unchanged |
| ShiprocketRoutes.OrderIdsToPrint | routes/shiprocketRoutes.js:472-491 | the invoice route and the manifest-print route (lines 536-555) share this: no shipment rows gives the first 404; rows whose order ids are all null give the second; otherwise the printed ids are non-empty, distinct, and the rows' order ids in first-occurrence order |
| ShiprocketRoutes.WebhookUpdate | routes/shiprocketRoutes.js:224-227 | an update happens only with a truthy shipment id and a truthy status |
| ShiprocketRoutes.Webhook | routes/shiprocketRoutes.js:222-234 | the answer is always ok; without an update, or when the update throws, nothing changes; otherwise exactly the rows with that shipment id take the new status |
| ShiprocketRoutes.PincodeCheck | routes/shiprocketRoutes.js:236-277 | a query that is not six characters after trimming is refused, and only such a query; a missing pickup pincode is the server error; otherwise the route is serviceable exactly when the courier lists a company, COD is available exactly when some listed company has `cod` equal to 1, and nothing is serviceable with no company |
| ShiprocketRoutes.PincodeCheckAsWritten | routes/shiprocketRoutes.js:252-259 | with `checkServiceability` missing (the courier step always throws), no request gets a serviceability answer, and a valid pincode with a pickup pincode always gets the 500 reply |
| ShiprocketService.WarehousePayloadOf | services/shiprocketService.js:28-39 | the pickup payload names the branch twice, keeps its address fields, fixes the country to India, and falls back to the placeholder e-mail and phone only when the branch has none |
| ShiprocketService.SubTotal | services/shiprocketService.js:67 | the sub-total is a number exactly when every line's price times quantity is |
| ShiprocketService.OrderPayloadOf | services/shiprocketService.js:45-72 | the order payload keeps the channel order id and pickup location, has one item per order item with its sku and units, pays COD only when the order says exactly COD, carries the specification sub-total and the given weight or 0.5 kg, and bills to India with shipping the same as billing |
| ShiprocketService.PayloadDefaults | services/shiprocketService.js:45-72 | each default applies exactly when its field is falsy and the given value is kept otherwise: customer name, e-mail and phone, the five address fields, the 10 by 10 by 5 dimensions, and per item the `Variant <id>` name; the selling price is the number of the price, 0 when missing |
| ShiprocketService.SubTotalAppend | services/shiprocketService.js:67 | the sub-total is additive over the item list |
| ShiprocketService.MissingCountsAsZero | services/shiprocketService.js:67 | an item whose price or quantity is absent adds nothing |
| ShiprocketService.SubTotalOfNumbers | services/shiprocketService.js:67 | for plain numeric prices and quantities the sub-total is the sum of price times quantity |
| ShiprocketService.NumberLine | services/shiprocketService.js:67 | a line with numeric price and quantity contributes their product |
| ShiprocketService.StoredToken | services/shiprocketService.js:12-13 | the token kept is the first account's token when it is non-empty, and there is none otherwise |
| ShiprocketService.Shiprocket.constructor | services/shiprocketService.js:6-9 | a new client has no token and has sent nothing |
| ShiprocketService.Shiprocket.Init | services/shiprocketService.js:11-15 | the client takes the stored token and fails exactly when there is none |
| ShiprocketService.Shiprocket.Api | services/shiprocketService.js:17-25 | a cached token is never re-read; without one the stored token is fetched first; with no token nothing is sent and the call fails; otherwise exactly one request carrying the bearer token is sent and its reply returned |
| ShiprocketService.Shiprocket.UpsertWarehouseFromBranch | services/shiprocketService.js:27-42 | exactly one add-pickup request, carrying the branch's pickup payload, is sent |
| ShiprocketService.Shiprocket.CreateOrderShipment | services/shiprocketService.js:44-75 | exactly one ad-hoc order request, carrying the order payload, is sent |
| ShiprocketService.Shiprocket.AssignAwbAndLabel | services/shiprocketService.js:77-81 | the AWB request goes first; the label request, with the shipment id in a one-element list, is sent only when the AWB call succeeded; either failure propagates |
| ShiprocketService.TwoCallsShareToken | services/shiprocketService.js:17-25 | two calls on one client send exactly two requests with the same bearer, the stored token, and send nothing when there is no token |
| ReturnsRoutes.FirstDelivered | routes/returnsRoutes.js:17 | the row `find` stops at is the first row whose upper-cased status is DELIVERED, and there is none exactly when no row is delivered |
| ReturnsRoutes.IsEligible | routes/returnsRoutes.js:8-24 | a missing sale is refused first and only then; no delivered shipment is refused next and only then; a request is eligible exactly when some shipment is delivered and at most seven days have passed since the delivery time, and then it carries the sale |
| ReturnsRoutes.NewestDeliveryCounts | routes/returnsRoutes.js:13-17 | the delivery time is that of the newest delivered shipment when that row has one, whatever older rows say |
| ReturnsRoutes.WindowIsInclusive | routes/returnsRoutes.js:18-19 | exactly seven days after delivery is still in time, and one millisecond later is not |
| ReturnsRoutes.EligibilityOnlyExpires | routes/returnsRoutes.js:19-22 | a request eligible now was eligible at every earlier moment, and one whose window has passed stays refused later |
| ReturnsRoutes.DeliveredIgnoresCase | routes/returnsRoutes.js:14-15 | the delivered test ignores letter case and rejects null and other statuses |
| ReturnsRoutes.Groups | routes/returnsRoutes.js:53-54 | one placeholder group per item, group i at index i |
| ReturnsRoutes.ItemValues | routes/returnsRoutes.js:55-56 | each item pushes six values, starting with the request id and ending with the null pad |
| ReturnsRoutes.ValuesFor | routes/returnsRoutes.js:53-57 | the values array has six entries per item |
| ReturnsRoutes.ValuesBlock | routes/returnsRoutes.js:53-57 | the values array splits into consecutive blocks of six, block i holding item i's values |
| ReturnsRoutes.PlaceholderNumbering | routes/returnsRoutes.js:53-60 | every parameter number from 1 to 6n belongs to exactly one placeholder of one item's group and names that item's value in that column; the sixth value of every item is the null pad |
| ReturnsRoutes.PlaceholderNames | routes/returnsRoutes.js:54 | a placeholder is a dollar sign followed by its own number in decimal |
| ReturnsRoutes.BuildItemParams | routes/returnsRoutes.js:51-57 | the loop builds exactly the specification placeholder groups and values |
| ReturnsRoutes.ValuesStep | routes/returnsRoutes.js:53-57 | one more item appends exactly its six values |
| ReturnsRoutes.RequestKind | routes/returnsRoutes.js:46 | the kind is REPLACE exactly when the body says exactly "REPLACE", and RETURN otherwise |
| ReturnsRoutes.RequestOf | routes/returnsRoutes.js:41-47 | a new request is REQUESTED, belongs to the body's sale, has the body's kind, and has null notes when none were given |
| ReturnsRoutes.ItemsToInsert | routes/returnsRoutes.js:50 | items are inserted only from a non-empty array in the body |
| ReturnsRoutes.ItemRowsOf | routes/returnsRoutes.js:55-61 | one item row per item, carrying the request id and the item's variant, quantity, reason code and condition note |
| ReturnsRoutes.NotesAfterReject | routes/returnsRoutes.js:98-101 | a rejection keeps the old notes as a prefix (null counting as empty) and appends the rejection line |
| ReturnsRoutes.ReturnStore.Create | routes/returnsRoutes.js:35-67 | an ineligible request writes nothing and answers with the refusal; an eligible one stores the request; a failing item insert leaves the request stored but writes no item; otherwise all item rows are appended |
| ReturnsRoutes.ReturnStore.CreateAsWritten | routes/returnsRoutes.js:35-67 | with the item insert always rejected (its column list names `reason_code` twice), an eligible request with items is stored without any item row and answered with the 500 reply; one without items is created; an ineligible one writes nothing |
| ReturnsRoutes.ReturnStore.InsertItems | routes/returnsRoutes.js:50-63 | the single insert statement writes all item rows or none, and nothing is attempted for an empty list |
| ReturnsRoutes.ReturnStore.Approve | routes/returnsRoutes.js:70-90 | an unknown request is 404 with no change; a failing sale lookup or reverse pickup changes nothing; otherwise only that request becomes APPROVED |
| ReturnsRoutes.ReturnStore.Reject | routes/returnsRoutes.js:93-104 | an unknown request is 404 with no change; otherwise only that request becomes REJECTED with the reason appended to its notes |
| CartRoutes.CountZeroIffAbsent | routes/cartRoutes.js:12-18 | the UPDATE matches no row exactly when the table holds no row of that user and product |
| CartRoutes.UpdateAll | routes/cartRoutes.js:13-15 | the UPDATE keeps the table's length and rewrites each row independently |
| CartRoutes.Removed | routes/cartRoutes.js:110 | the DELETE never grows the table |
| CartRoutes.RemovedMembers | routes/cartRoutes.js:110 | after the DELETE the table holds exactly the rows of other entries |
| CartRoutes.UpdateMatching | routes/cartRoutes.js:12-18 | the UPDATE statement produces the specification table and its row count is the number of rows of that entry |
| CartRoutes.UpdateAllPointwise | routes/cartRoutes.js:13-15 | a table that agrees with the UPDATE row by row is its result |
| CartRoutes.Cart.Add | routes/cartRoutes.js:6-29 | a body missing any of the four fields is refused with no change; otherwise the table becomes the UPDATE, plus one inserted row when the UPDATE matched nothing |
| CartRoutes.Cart.Delete | routes/cartRoutes.js:104-115 | a body missing the user or product is refused with no change; otherwise exactly the rows of that entry are removed |
| CartRoutes.AddRowCount | routes/cartRoutes.js:12-24 | adding an existing entry keeps the row count; adding a new one appends exactly the new row |
| CartRoutes.AddSetsEntry | routes/cartRoutes.js:12-24 | after an add the entry exists and every row of it holds the given size and colour |
| CartRoutes.AddChangesOnlyItsEntry | routes/cartRoutes.js:12-24 | an add changes no other entry: deleting the entry afterwards leaves what deleting it before would |
| CartRoutes.RemovedAfterUpdate | routes/cartRoutes.js:13-15 | the UPDATE changes no row of another entry |
| CartRoutes.AddKeepsUnique | routes/cartRoutes.js:12-24 | an add keeps at most one row per user and product, because it inserts only when the UPDATE matched nothing |
| CartRoutes.UpdateKeepsUnique | routes/cartRoutes.js:13-15 | the UPDATE keeps every row's key, so the table stays unique |
| CartRoutes.AppendKeepsUnique | routes/cartRoutes.js:19-23 | appending a row of a new entry keeps the table unique |
| CartRoutes.RemovedKeepsUnique | routes/cartRoutes.js:110 | the DELETE keeps the table unique |
| CartRoutes.RemoveAbsent | routes/cartRoutes.js:110 | deleting an entry the table does not hold changes nothing |
| CartRoutes.DeleteIdempotent | routes/cartRoutes.js:110 | a repeated delete changes nothing |
| CartRoutes.ImageUrl | routes/cartRoutes.js:84-91 | the listed image is never empty: the variant's own image wins, then the barcode's stored image, then the CDN address when there is a barcode, else none |
| CartRoutes.InsertDesc | routes/cartRoutes.js:94 | inserting one view adds exactly that view |
| CartRoutes.InsertDescOrdered | routes/cartRoutes.js:94 | inserting into a list in descending variant-id order keeps it descending |
| CartRoutes.Listing | routes/cartRoutes.js:31-98 | the listing is in descending variant-id order and has one view per cart line |
| CartRoutes.ListingIsPermutation | routes/cartRoutes.js:31-98 | the listing shows each line's view exactly once and nothing else |
| CartRoutes.Views | routes/cartRoutes.js:71-92 | one view per joined line, in order |
| AuthRoutes.Login | routes/authRoutes.js:29-42 | a missing e-mail or password is refused, and only then; login succeeds exactly when the user exists and the stored password equals the given one; the reply carries id, name, e-mail and type (customer by default) and never the password |
| AuthRoutes.OtpInRange | routes/authRoutes.js:61 | with a random draw in [0, 1) the OTP lies between 100000 and 999999 and is written with six digits |
| AuthRoutes.DigitCount | routes/authRoutes.js:61 | a number between 10^k and 10^(k+1) is written with k+1 digits |
| AuthRoutes.CheckOtp | routes/authRoutes.js:86-91 | an OTP is accepted exactly when a token exists, has not expired (expiry is strict) and bcrypt accepts the OTP; no token and an expired token give their own refusals |
| AuthRoutes.Verify | routes/authRoutes.js:82-96 | a missing e-mail or OTP is refused; verification succeeds exactly when both are given and the token check accepts |
| AuthRoutes.StartThenVerify | routes/authRoutes.js:61-65 | a freshly issued OTP verifies until its expiry ten minutes later, that instant included |
| AuthRoutes.ExpiredAfterDeadline | routes/authRoutes.js:89 | one millisecond after its expiry an OTP is refused as expired, whatever it is |
| AuthRoutes.NoTokenNoVerify | routes/authRoutes.js:86-87 | without a token nothing verifies |
| AuthRoutes.AuthStore.Start | routes/authRoutes.js:55-80 | a missing e-mail or an unknown user changes nothing; otherwise the OTP has six digits, the e-mail's token, and only that token, is replaced by one for the new OTP expiring ten minutes from now, and the reply reports whether the mail went out (the token stays when it did not) |
| AuthRoutes.AuthStore.Reset | routes/authRoutes.js:98-114 | a missing field or a failed token check changes nothing and answers as verify would; otherwise the user's password becomes the new one and the e-mail's token is deleted, and nothing else changes |
| AuthRoutes.ResetOtpIsSpent | routes/authRoutes.js:108-109 | after a reset the same OTP no longer verifies, because the token is gone |
| AuthBranchRoutes.BcryptPrefixOnly | routes/authBranchRoutes.js:7-9 | a value is hash-like exactly when it is a string whose first four characters are `$2a$`, `$2b$` or `$2y$`; a non-string never is |
| AuthBranchRoutes.PasswordCheck | routes/authBranchRoutes.js:18-23 | a stored value that is not hash-like is compared with `===`; a hash-like one is checked by bcrypt; an accepted truthy password is a string checked against a stored value |
| AuthBranchRoutes.FirstActive | routes/authBranchRoutes.js:15-17 | the row found is the first with that username whose `is_active` is not false, and none is found only when no such row exists |
| AuthBranchRoutes.LoginDecision | routes/authBranchRoutes.js:11-24 | a missing username or password is refused, and only then; login is accepted exactly when an active user with that name exists and the password check accepts, and then it is that first row |
| AuthBranchRoutes.WithLastLogin | routes/authBranchRoutes.js:25 | the update stamps the last login of the rows with that id and leaves every other row as it was |
| AuthBranchRoutes.WithPassword | routes/authBranchRoutes.js:61 | the update sets the stored hash of the rows with that id and leaves every other row as it was |
| AuthBranchRoutes.FirstWithId | routes/authBranchRoutes.js:50-51 | the row found has the signed-in user's id, and none is found only when no row has it |
| AuthBranchRoutes.FirstActiveIgnoresPassword | routes/authBranchRoutes.js:61 | a password change keeps every row's username and activity, so the login lookup finds the same row |
| AuthBranchRoutes.NewPasswordLogsIn | routes/authBranchRoutes.js:46-66 | after a change to a bcrypt hash of the new password the user logs in with the new password |
| AuthBranchRoutes.StaffDirectory.Login | routes/authBranchRoutes.js:11-43 | a refused login writes nothing and answers with the refusal; an accepted one stamps last login on that user only and then answers 500, because the token signer it calls is undefined; no reply ever carries a token |
| AuthBranchRoutes.StaffDirectory.ChangePassword | routes/authBranchRoutes.js:46-66 | both passwords are required; the password changes exactly when the user exists and the old password passes the same check as login, and then the stored value becomes the hash of the new one; a missing user answers 404; every refusal writes nothing |
| AuthMiddleware.HashLikeLength | middleware/auth.js:22 | a string the regular expression accepts has 59 characters, or 60 exactly when it carries the variant letter |
| AuthMiddleware.DetectorsDisagree | middleware/auth.js:22 | the regular expression accepts `$2x$` and letterless `$2$` hashes that the prefix test of the branch routes rejects, and the prefix test accepts strings such as `$2a$` that the regular expression rejects |
| AuthMiddleware.FirstNamed | middleware/auth.js:13-18 | the row found is the first with that username, with no activity filter, and none is found only when no row has it |
| AuthMiddleware.Decide | middleware/auth.js:8-34 | a missing username or password is refused, and only then; a hash-like stored value is checked by bcrypt and only by bcrypt; any other stored value is accepted exactly when the password equals it |
| AuthMiddleware.UpgradeThenHashLogin | middleware/auth.js:28-32 | after the plaintext password is upgraded to a hash, the same password logs in again, now through bcrypt |
| AuthMiddleware.SameNames | middleware/auth.js:30-36 | the two updates keep every username, so the lookup finds the same row |
| AuthMiddleware.Accounts.Login | middleware/auth.js:4-43 | a refusal writes nothing; a bcrypt login stamps last login only; a plaintext login first replaces the stored password by its hash, then stamps last login; both then answer 500, because the file requires itself and its token signer is undefined, so no reply ever carries a token |
| BranchInventoryRoutes.BearerToken | routes/branchInventoryRoutes.js:10-11 | a non-empty token is exactly what follows `Bearer ` in the header; a missing header gives the empty token |
| BranchInventoryRoutes.BearerRoundTrip | routes/branchInventoryRoutes.js:10-11 | whatever follows `Bearer ` is recovered as the token |
| BranchInventoryRoutes.OtherSchemesGiveNoToken | routes/branchInventoryRoutes.js:10-11 | a lower-case `bearer`, a `Basic` header, or a bare header of at most 7 characters gives no token |
| BranchInventoryRoutes.BranchAuth | routes/branchInventoryRoutes.js:9-20 | a request passes the guard only with a non-empty token that verifies, and the user is the verified payload; an empty token is always a 401 |
| BranchInventoryRoutes.BranchAllowed | routes/branchInventoryRoutes.js:23-24 | the path's branch is accepted exactly when it parses to a non-zero integer equal to the token's branch_id, and the accepted branch is that integer |
| BranchInventoryRoutes.OwnBranchOnly | routes/branchInventoryRoutes.js:23-24 | a staff token reaches its own branch and no other |
| BranchInventoryRoutes.OfBranch | routes/branchInventoryRoutes.js:26-33 | the WHERE clause keeps exactly the jobs of the given branch |
| BranchInventoryRoutes.InsertById | routes/branchInventoryRoutes.js:26-33 | inserting a job adds exactly that job to the multiset of jobs |
| BranchInventoryRoutes.InsertByIdOrdered | routes/branchInventoryRoutes.js:26-33 | inserting into a newest-first list keeps it newest first |
| BranchInventoryRoutes.SortById | routes/branchInventoryRoutes.js:26-33 | ORDER BY id DESC yields a newest-first permutation of its input |
| BranchInventoryRoutes.JobsListing | routes/branchInventoryRoutes.js:26-33 | the listing holds at most 100 jobs, newest first, all of them jobs of that branch |
| BranchInventoryRoutes.ListingKeepsNewest | routes/branchInventoryRoutes.js:26-33 | with at most 100 jobs the listing is all of the branch's jobs; otherwise every listed job is at least as new as every one left out |
| BranchInventoryRoutes.ImportJobs.List | routes/branchInventoryRoutes.js:22-38 | a failed guard is a 401, a foreign or malformed branch a 403, and otherwise the reply is the branch's listing |
| BranchInventoryRoutes.ImportJobs.Import | routes/branchInventoryRoutes.js:40-56 | a job is created exactly when the guard passes, the branch is the token's own and a file is present; it is PENDING with zero counters, uploaded by the token's user, and appended to the table; every refusal (401, 403, 400) leaves the table unchanged |
| ProductRoutes.BlankIsMissing | routes/productRoutes.js:6 | a string field counts as missing exactly when every character of it is whitespace |
| ProductRoutes.Num | routes/productRoutes.js:7-10 | a number is taken as it is; NaN, undefined, null, booleans and objects give NaN (parseFloat reads no number from their text); strings and arrays go through parseFloat of their trimmed text |
| ProductRoutes.CountOfNumber | routes/productRoutes.js:41 | parseInt of an integer's own rendering gives that integer back |
| ProductRoutes.TextOf | routes/productRoutes.js:58-62 | a present string field trims to a clean value: non-empty and without edge whitespace |
| ProductRoutes.Stock | routes/productRoutes.js:69 | the stored count is never negative: a negative total_count is clamped to 0, any other is kept |
| ProductRoutes.Parse | routes/productRoutes.js:29-45 | a 400 exactly when a text field is missing, a price is not a finite number, total_count does not parse or image_url is missing; a valid body with a non-string text field throws in trim (500); otherwise the row holds the trimmed text, the parsed prices, the clamped count and the image as sent |
| ProductRoutes.ResubmitStoresSame | routes/productRoutes.js:151-182 | normalisation is idempotent: sending a stored row's text fields and count back with the same prices and image stores the same row |
| ProductRoutes.ResubmittedParts | routes/productRoutes.js:151-182 | each field of a resubmitted stored row parses to the stored value |
| ProductRoutes.CleanText | routes/productRoutes.js:171-175 | a clean string is present and trims to itself |
| ProductRoutes.SameText | routes/productRoutes.js:171-175 | the resubmitted body carries the stored text fields and count |
| ProductRoutes.SamePrices | routes/productRoutes.js:176-183 | resubmitting changes neither the prices nor the image |
| ProductRoutes.Create | routes/productRoutes.js:12-77 | a row is inserted exactly when the body parses, under the new id and with the parsed fields; a 400 exactly for an invalid body; every refusal leaves the table unchanged |
| ProductRoutes.Update | routes/productRoutes.js:134-211 | a row is replaced exactly when the body parses and the id exists; a valid body for an unknown id is a 404; validation comes before the lookup; the set of ids never changes |
| ProductRoutes.Delete | routes/productRoutes.js:213-221 | a 404 exactly for an unknown id; otherwise the removed row is returned; afterwards the id is gone and every other row is untouched |
| ProductRoutes.Fetch | routes/productRoutes.js:124-132 | a 404 exactly for an unknown id, otherwise that id's row |
| ProductRoutes.UpdateIdempotent | routes/productRoutes.js:134-211 | updating twice with the same body gives the same reply and table as updating once |
| ProductRoutes.UpdateThenFetch | routes/productRoutes.js:124-211 | after a successful update a read of the id returns the updated row |
| ProductRoutes.DeleteTwice | routes/productRoutes.js:213-221 | a second delete of the same id is a 404 and changes nothing |
| ProductRoutes.CreateThenDelete | routes/productRoutes.js:12-221 | deleting a freshly created row restores the table |
| ProductRoutes.RemoveFresh | routes/productRoutes.js:215 | removing a key just added to a map that lacked it restores the map |
| ProductRoutes.Select | routes/productRoutes.js:83 | from ascending keys, the selection holds exactly the accepted rows of those keys, in strictly descending id order |
| ProductRoutes.Listing | routes/productRoutes.js:83-86 | a WHERE ... ORDER BY id DESC listing holds exactly the table's accepted rows, each once, in strictly descending id order |
| ProductRoutes.ListAll | routes/productRoutes.js:79-91 | the listing is in strictly descending id order; with a truthy category it is exactly that category's rows, otherwise exactly the rows of the table |
| ProductRoutes.ByCategory | routes/productRoutes.js:93-100 | the listing is in strictly descending id order and is exactly the rows of the path's category |
| ProductRoutes.SearchText | routes/productRoutes.js:103-104 | the search runs exactly when q (or else query) is truthy and not blank, and the text searched for is clean |
| ProductRoutes.Pattern | routes/productRoutes.js:108 | the ILIKE pattern is the search text wrapped in one % on each side |
| ProductRoutes.Search | routes/productRoutes.js:102-122 | a 400 exactly when there is no search text; otherwise the result, in strictly descending id order, is exactly the rows whose trimmed name, category, brand or colour contains the text, ignoring ASCII case |
| ProductRoutes.SearchFindsName | routes/productRoutes.js:102-122 | a product whose stored name contains the query text, in any case, is found by the search |
| ProductRoutes.QueryText | routes/productRoutes.js:103-108 | a clean q parameter is searched for exactly as given |
| ProductRoutes.NameHit | routes/productRoutes.js:111 | a name that contains the text, ignoring case, is a search hit |
| JsonUserApi.Users | api/login.js:9 | a missing users file reads as the empty list, an existing one as its contents |
| JsonUserApi.FindEmail | api/signup.js:17 | the index found holds a user whose email is === the request's; none is found exactly when no user's email is |
| JsonUserApi.FindLogin | api/login.js:11 | the index found is the first user whose email and password are both === the request's; none is found exactly when no user matches both |
| JsonUserApi.Login | api/login.js:4-20 | a 405 exactly for a verb other than POST; a null body throws; a profile exactly when some stored user matches both credentials, and it is the first such user's name, email and type with the fixed picture and no password; otherwise a 401 |
| JsonUserApi.NewUser | api/signup.js:20-28 | the new user gets id one more than the number of users, type B2C, and the request's name, email and password |
| JsonUserApi.SignupKeepsUnique | api/signup.js:17-30 | an accepted signup keeps emails unique among the users |
| JsonUserApi.SignupKeepsIds | api/signup.js:21-30 | when the ids are 1..n in file order, a signup makes them 1..n+1 |
| JsonUserApi.SignupThenLogin | api/signup.js:17-32 | after a signup with primitive email and password, those credentials log in as the new user with type B2C |
| JsonUserApi.NoPasswordLogsIn | api/login.js:11 | a user stored without a password is let in by a body carrying only the email, since both passwords are undefined |
| JsonUserApi.NoFileNoLogin | api/login.js:9-12 | without a users file every login is a 401 |
| JsonUserApi.UserFile.constructor | api/signup.js:12-15 | the file starts as given |
| JsonUserApi.UserFile.Signup | api/signup.js:4-33 | a 405 for a verb other than POST, a 500 for a null body and a 400 for a taken email each leave the file unchanged; otherwise the new user is appended to the file and echoed in the 201 reply |
| Common.TrimFacts | routes/productRoutes.js:58-62 | trim yields the infix of its input left after dropping whitespace at both ends, and the result has no edge whitespace |
| Common.TrimIdempotent | routes/shiprocketRoutes.js:8 | trimming twice trims nothing more |
| Common.TrimAllSpace | routes/productRoutes.js:6 | a string of whitespace only trims to the empty string |
| Common.TrimNoEdgeSpace | routes/productRoutes.js:108 | a string without edge whitespace trims to itself |
| Common.ToUpperIdempotent | routes/shiprocketRoutes.js:8 | upper-casing twice is upper-casing once |
| Common.NatToStringValue | routes/branchInventoryRoutes.js:23 | the decimal rendering of a natural number reads back as that number |
| Common.ParseInt | routes/branchInventoryRoutes.js:23 | parseInt gives NaN exactly when no digit follows the leading whitespace and optional sign |
| Common.ParseIntOfIntToString | routes/branchInventoryRoutes.js:23 | parseInt of an integer's decimal rendering is that integer |
| Js.FirstTruthy | routes/shiprocketRoutes.js:89-97 | an `a or b or ... or fallback` chain over paths is truthy when some path is, is the fallback when none is, and is always one of the operands |
| Js.FirstTruthyIsFirst | routes/shiprocketRoutes.js:89-97 | the chain's value is the first truthy path; later paths are never consulted |

## Left out

- The database (`db.js`, SQL text, `BEGIN`/`COMMIT`/`ROLLBACK`): tables are sequences or maps, and a transaction is modelled as restoring the tables on failure. Row locking and concurrent requests are not modelled.
- Courier HTTP calls (axios): every reply is a parameter. `requestPickup`, `generateManifest` and `checkServiceability` are called but never defined in services/shiprocketService.js. Their outcomes are parameters, and the as-written lemmas fix them to a throw (`OrderFulfillment.PickupMissingAsWritten`, `ShiprocketRoutes.PincodeCheckAsWritten`).
- `haversineKm` (services/orderFulfillment.js:12-23): floating-point trigonometry. Distance is an uninterpreted function into the integers, so the nearest-branch rule is proved for any distance.
- `customerLocFromSale` (services/orderFulfillment.js:25-36): the customer location, or its absence, is a parameter.
- `computeWeightKg` (routes/shiprocketRoutes.js:47-61): floating-point rounding; it is not modelled.
- Money: prices and totals are integers, for example paise. Fractional amounts are not modelled, and neither is `JSON.stringify` of the stored totals. Product prices are reals produced by a `parseFloat` parameter.
- `Js.StrToNumber`: `Number(...)` of a string reads only an optionally signed run of decimal digits; decimal points, exponents and hexadecimal are not modelled.
- Common.Trim: only ASCII whitespace is trimmed, and case mapping is ASCII only; Unicode case folding is not modelled.
- ProductRoutes.ILikeInfix: ILIKE is modelled as a case-insensitive substring test. Query text containing `%` or `_` wildcards is not modelled.
- CartRoutes.Cart.Add: keys are compared by their text, `String(v)`, rather than after PostgreSQL's integer coercion, so `"07"` and `7` are different users here.
- bcrypt, jsonwebtoken, nodemailer, multer, `crypto.randomUUID`, `Math.random`, `Date.now` and `new Date()`: their results and the current time are parameters.
- AuthRoutes.OtpInRange: the random draw is an exact real in [0, 1). Double-precision rounding of `100000 + Math.random() * 900000` is not modelled.
- The multer upload size limit and the storage of the uploaded file in the branch inventory import are not modelled.
- ReturnsRoutes.ReturnStore.InsertItems: whether the multi-row insert succeeds is a parameter, so the intended behaviour is proved too. The statement at routes/returnsRoutes.js:59 names `reason_code` twice in its column list, which PostgreSQL rejects; `ReturnsRoutes.ReturnStore.CreateAsWritten` fixes the parameter to that failure.
- AuthBranchRoutes.StaffDirectory.Login: routes/authBranchRoutes.js:4 takes `sign` and `requireAuth` from a module that exports only its router. Passing the undefined `requireAuth` to `router.get` and `router.post` (lines 33 and 46) throws when the module loads, and neither app.js nor index.js mounts it. The model describes what the handler bodies would do if they ran.
- AuthBranchRoutes.StaffDirectory.ChangePassword: not reachable as written, for the reason above; the model describes the handler body.
- `ReturnsService.createReversePickup` is not part of this model: its result, or failure, is a parameter of `Approve`.
- Routes not modelled, because they are single reads or wrappers around courier calls:
  - the returns eligibility GET (routes/returnsRoutes.js:27-32) and the by-sale listing (107-122);
  - the customer lookup `GET /:email` (routes/authRoutes.js:44-53);
  - in routes/shiprocketRoutes.js: the warehouse listing (107-116), sync (174-204), the fulfil wrapper (206-220), couriers (279-334), courier assignment, pickup, label and manifest generation (336-470 and 506-534), and the redirect of the manifest printer.
  The pickers and id rules those routes share are modelled.
- SalesRoutes.ListByUser: whether the sales table has a `user_id` column, and the user lookup, are parameters. `LIMIT 200` and the date ordering of the queries are not modelled; the sales come in the order the query returns them.
- JsonUserApi.UserFile.Signup: the created and updated timestamps are the parameter `now`. Creating the `data` directory and any extra fields stored in the file are not modelled.
- App wiring, uploads, wishlist, user, barcode and shipment routes, and the order controller are not part of this model.
