/** The cart routes (routes/cartRoutes.js): `POST /tarascart` updates the
    size and colour of a (user, product) entry, inserting one only when the
    update touched no row; `DELETE /tarascart` removes the entry; `GET
    /:userId` lists the user's entries with an image fallback, newest
    variant first. The `tarascart` table is a sequence of rows; the code
    keeps one row per (user, product), which `Unique` states. */
module CartRoutes {
  import opened Common
  import opened Js

  /** A query parameter as the database receives it: its text. */
  function Param(v: Json): string {
    ToStr(v)
  }

  datatype CartRow = CartRow(userId: string, productId: string, size: string, color: string)

  predicate Matches(r: CartRow, u: string, p: string) {
    r.userId == u && r.productId == p
  }

  /** At most one row per (user, product). */
  predicate Unique(rows: seq<CartRow>) {
    forall i, j :: 0 <= i < j < |rows| ==> !Matches(rows[j], rows[i].userId, rows[i].productId)
  }

  /** How many of the first n rows are of (u, p). */
  function CountIn(rows: seq<CartRow>, u: string, p: string, n: nat): nat
    requires n <= |rows|
  {
    if n == 0 then 0 else CountIn(rows, u, p, n - 1) + (if Matches(rows[n - 1], u, p) then 1 else 0)
  }

  /** `upd.rowCount`: how many rows the UPDATE matches. */
  function CountMatches(rows: seq<CartRow>, u: string, p: string): nat {
    CountIn(rows, u, p, |rows|)
  }

  /** The UPDATE matches no row exactly when no row is of (u, p). */
  lemma {:induction false} CountZeroIffAbsent(rows: seq<CartRow>, u: string, p: string, n: nat)
    requires n <= |rows|
    ensures CountIn(rows, u, p, n) == 0 <==> forall i :: 0 <= i < n ==> !Matches(rows[i], u, p)
  {
    if n > 0 {
      CountZeroIffAbsent(rows, u, p, n - 1);
    }
  }

  /** One row after the UPDATE. */
  function Updated(r: CartRow, u: string, p: string, size: string, color: string): CartRow {
    if Matches(r, u, p) then r.(size := size, color := color) else r
  }

  /** The UPDATE: every matching row gets the new size and colour. */
  function UpdateAll(rows: seq<CartRow>, u: string, p: string, size: string, color: string): (r: seq<CartRow>)
    ensures |r| == |rows|
    ensures forall i :: 0 <= i < |rows| ==> r[i] == Updated(rows[i], u, p, size, color)
  {
    seq(|rows|, i requires 0 <= i < |rows| => Updated(rows[i], u, p, size, color))
  }

  /** The table after a successful add. */
  function Added(rows: seq<CartRow>, u: string, p: string, size: string, color: string): seq<CartRow> {
    if CountMatches(rows, u, p) == 0 then rows + [CartRow(u, p, size, color)]
    else UpdateAll(rows, u, p, size, color)
  }

  /** The table after the DELETE: every row of (user, product) is gone,
      the others keep their order. */
  function Removed(rows: seq<CartRow>, u: string, p: string): (r: seq<CartRow>)
    ensures |r| <= |rows|
  {
    if rows == [] then []
    else
      var last := rows[|rows| - 1];
      Removed(rows[..|rows| - 1], u, p) + (if Matches(last, u, p) then [] else [last])
  }

  /** The DELETE keeps exactly the rows of other entries. */
  lemma {:induction false} RemovedMembers(rows: seq<CartRow>, u: string, p: string)
    ensures forall x :: x in Removed(rows, u, p) <==> x in rows && !Matches(x, u, p)
  {
    if rows != [] {
      var init := rows[..|rows| - 1];
      RemovedMembers(init, u, p);
      assert rows == init + [rows[|rows| - 1]];
    }
  }

  /** `!user_id || !product_id || !selected_size || !selected_color`. */
  predicate AddFieldsMissing(body: Json) {
    !Truthy(Get(body, "user_id")) || !Truthy(Get(body, "product_id"))
    || !Truthy(Get(body, "selected_size")) || !Truthy(Get(body, "selected_color"))
  }

  predicate DeleteFieldsMissing(body: Json) {
    !Truthy(Get(body, "user_id")) || !Truthy(Get(body, "product_id"))
  }

  datatype CartReply = MissingFields | AddedToCart | RemovedFromCart

  /** The UPDATE statement: rewrites every row of (u, p) and counts the
      rows it touched. */
  method UpdateMatching(rows: seq<CartRow>, u: string, p: string, size: string, color: string)
    returns (updated: seq<CartRow>, rowCount: nat)
    ensures updated == UpdateAll(rows, u, p, size, color)
    ensures rowCount == CountMatches(rows, u, p)
  {
    updated, rowCount := rows, 0;
    for i := 0 to |rows|
      invariant |updated| == |rows|
      invariant forall j :: 0 <= j < i ==> updated[j] == Updated(rows[j], u, p, size, color)
      invariant forall j :: i <= j < |rows| ==> updated[j] == rows[j]
      invariant rowCount == CountIn(rows, u, p, i)
    {
      updated := updated[i := Updated(rows[i], u, p, size, color)];
      if Matches(rows[i], u, p) {
        rowCount := rowCount + 1;
      }
    }
    UpdateAllPointwise(rows, updated, u, p, size, color);
  }

  /** A table that agrees with the UPDATE row by row is its result. */
  lemma UpdateAllPointwise(rows: seq<CartRow>, updated: seq<CartRow>, u: string, p: string, size: string, color: string)
    requires |updated| == |rows|
    requires forall j :: 0 <= j < |rows| ==> updated[j] == Updated(rows[j], u, p, size, color)
    ensures updated == UpdateAll(rows, u, p, size, color)
  {
  }

  class Cart {
    var rows: seq<CartRow>

    constructor (rows: seq<CartRow>)
      ensures this.rows == rows
    {
      this.rows := rows;
    }

    /** `POST /tarascart`: the UPDATE loop, then the INSERT when it matched
        nothing. */
    method Add(body: Json) returns (reply: CartReply)
      modifies this
      ensures AddFieldsMissing(body) ==> reply == MissingFields && rows == old(rows)
      ensures !AddFieldsMissing(body) ==>
        reply == AddedToCart
        && rows == Added(old(rows), Param(Get(body, "user_id")), Param(Get(body, "product_id")),
                         Param(Get(body, "selected_size")), Param(Get(body, "selected_color")))
    {
      if AddFieldsMissing(body) {
        return MissingFields;
      }
      var u, p := Param(Get(body, "user_id")), Param(Get(body, "product_id"));
      var size, color := Param(Get(body, "selected_size")), Param(Get(body, "selected_color"));
      var updated, rowCount := UpdateMatching(rows, u, p, size, color);
      rows := updated;
      if rowCount == 0 {
        CountZeroIffAbsent(old(rows), u, p, |old(rows)|);
        assert rows == old(rows);
        rows := rows + [CartRow(u, p, size, color)];
      }
      reply := AddedToCart;
    }

    /** `DELETE /tarascart`. */
    method Delete(body: Json) returns (reply: CartReply)
      modifies this
      ensures DeleteFieldsMissing(body) ==> reply == MissingFields && rows == old(rows)
      ensures !DeleteFieldsMissing(body) ==>
        reply == RemovedFromCart && rows == Removed(old(rows), Param(Get(body, "user_id")), Param(Get(body, "product_id")))
    {
      if DeleteFieldsMissing(body) {
        return MissingFields;
      }
      rows := Removed(rows, Param(Get(body, "user_id")), Param(Get(body, "product_id")));
      reply := RemovedFromCart;
    }
  }

  // ---------------------------------------------------------------------
  // Properties of add and delete
  // ---------------------------------------------------------------------

  /** An add of an existing entry rewrites it in place; an add of a new one
      appends exactly one row. */
  lemma AddRowCount(rows: seq<CartRow>, u: string, p: string, size: string, color: string)
    ensures (exists i :: 0 <= i < |rows| && Matches(rows[i], u, p)) ==>
      |Added(rows, u, p, size, color)| == |rows|
    ensures (forall i :: 0 <= i < |rows| ==> !Matches(rows[i], u, p)) ==>
      Added(rows, u, p, size, color) == rows + [CartRow(u, p, size, color)]
  {
    CountZeroIffAbsent(rows, u, p, |rows|);
  }

  /** After an add, the entry exists and every row of that entry holds the
      given size and colour. */
  lemma AddSetsEntry(rows: seq<CartRow>, u: string, p: string, size: string, color: string)
    ensures CartRow(u, p, size, color) in Added(rows, u, p, size, color)
    ensures forall r :: r in Added(rows, u, p, size, color) && Matches(r, u, p) ==>
      r == CartRow(u, p, size, color)
  {
    var a := Added(rows, u, p, size, color);
    CountZeroIffAbsent(rows, u, p, |rows|);
    if CountMatches(rows, u, p) != 0 {
      var k :| 0 <= k < |rows| && Matches(rows[k], u, p);
      assert a[k] == CartRow(u, p, size, color);
    }
  }

  /** Deleting an entry after adding it leaves what deleting it before would
      have: an add changes no other entry. */
  lemma {:induction false} AddChangesOnlyItsEntry(rows: seq<CartRow>, u: string, p: string, size: string, color: string)
    ensures Removed(Added(rows, u, p, size, color), u, p) == Removed(rows, u, p)
  {
    if CountMatches(rows, u, p) == 0 {
      var a := rows + [CartRow(u, p, size, color)];
      assert a[..|a| - 1] == rows;
    } else {
      RemovedAfterUpdate(rows, u, p, size, color);
    }
  }

  lemma {:induction false} RemovedAfterUpdate(rows: seq<CartRow>, u: string, p: string, size: string, color: string)
    ensures Removed(UpdateAll(rows, u, p, size, color), u, p) == Removed(rows, u, p)
  {
    if rows != [] {
      var n := |rows| - 1;
      var up := UpdateAll(rows, u, p, size, color);
      var init := UpdateAll(rows[..n], u, p, size, color);
      RemovedAfterUpdate(rows[..n], u, p, size, color);
      assert up[..n] == init;
      assert Removed(up, u, p) == Removed(init, u, p) + (if Matches(up[n], u, p) then [] else [up[n]]);
      assert Matches(up[n], u, p) == Matches(rows[n], u, p);
      assert !Matches(rows[n], u, p) ==> up[n] == rows[n];
    }
  }

  /** An add keeps one row per (user, product). */
  lemma AddKeepsUnique(rows: seq<CartRow>, u: string, p: string, size: string, color: string)
    requires Unique(rows)
    ensures Unique(Added(rows, u, p, size, color))
  {
    if CountMatches(rows, u, p) == 0 {
      CountZeroIffAbsent(rows, u, p, |rows|);
      AppendKeepsUnique(rows, CartRow(u, p, size, color));
    } else {
      UpdateKeepsUnique(rows, u, p, size, color);
    }
  }

  /** The UPDATE keeps every row's key, so the table stays unique. */
  lemma UpdateKeepsUnique(rows: seq<CartRow>, u: string, p: string, size: string, color: string)
    requires Unique(rows)
    ensures Unique(UpdateAll(rows, u, p, size, color))
  {
    var a := UpdateAll(rows, u, p, size, color);
    assert forall i :: 0 <= i < |rows| ==> a[i].userId == rows[i].userId && a[i].productId == rows[i].productId;
  }

  /** Appending a row of a new (user, product) keeps the table unique. */
  lemma AppendKeepsUnique(rows: seq<CartRow>, row: CartRow)
    requires Unique(rows)
    requires forall i :: 0 <= i < |rows| ==> !Matches(rows[i], row.userId, row.productId)
    ensures Unique(rows + [row])
  {
    var a := rows + [row];
    forall i, j | 0 <= i < j < |a|
      ensures !Matches(a[j], a[i].userId, a[i].productId)
    {
      if j < |rows| {
        assert a[i] == rows[i] && a[j] == rows[j];
      } else {
        assert a[i] == rows[i] && a[j] == row;
      }
    }
  }

  /** Removing rows keeps one row per (user, product). */
  lemma {:induction false} RemovedKeepsUnique(rows: seq<CartRow>, u: string, p: string)
    requires Unique(rows)
    ensures Unique(Removed(rows, u, p))
  {
    if rows != [] {
      var n := |rows| - 1;
      assert Unique(rows[..n]);
      RemovedKeepsUnique(rows[..n], u, p);
      var prev := Removed(rows[..n], u, p);
      var r := Removed(rows, u, p);
      RemovedMembers(rows[..n], u, p);
      if !Matches(rows[n], u, p) {
        forall i | 0 <= i < |prev|
          ensures !Matches(rows[n], prev[i].userId, prev[i].productId)
        {
          assert prev[i] in rows[..n];
        }
      }
    }
  }

  /** A delete of an entry the table does not hold changes nothing. */
  lemma {:induction false} RemoveAbsent(rows: seq<CartRow>, u: string, p: string)
    requires forall i :: 0 <= i < |rows| ==> !Matches(rows[i], u, p)
    ensures Removed(rows, u, p) == rows
  {
    if rows != [] {
      var n := |rows| - 1;
      var init := rows[..n];
      RemoveAbsent(init, u, p);
      assert rows == init + [rows[n]];
    }
  }

  /** A repeated delete changes nothing. */
  lemma DeleteIdempotent(rows: seq<CartRow>, u: string, p: string)
    ensures Removed(Removed(rows, u, p), u, p) == Removed(rows, u, p)
  {
    var r := Removed(rows, u, p);
    RemovedMembers(rows, u, p);
    assert forall i :: 0 <= i < |r| ==> r[i] in r;
    RemoveAbsent(r, u, p);
  }

  // ---------------------------------------------------------------------
  // Listing
  // ---------------------------------------------------------------------

  /** One joined row of the listing query: the cart entry's variant, its own
      image, the image stored under its barcode, and the two barcode
      lookups (its own first barcode, then that of a same-named variant). */
  datatype CartLine = CartLine(variantId: int, vImage: Option<string>, piImage: Option<string>,
                               eanSelf: Option<string>, eanAny: Option<string>)

  datatype CartView = CartView(variantId: int, imageUrl: Option<string>, eanCode: string)

  /** `COALESCE(bc_self.ean_code, bc_any.ean_code, '')`. */
  function EanOf(l: CartLine): string {
    if l.eanSelf.Some? then l.eanSelf.value else if l.eanAny.Some? then l.eanAny.value else ""
  }

  /** `NULLIF(x, '')`. */
  function NullIfEmpty(x: Option<string>): Option<string> {
    if x == Some("") then None else x
  }

  /** The image cloud: the configured name or the built-in default. */
  function CloudName(configured: Json): string {
    ToStr(Or(configured, JStr("deymt9uyh")))
  }

  /** The CDN image address of a barcode. */
  function CdnUrl(cloud: string, ean: string): string {
    "https://res.cloudinary.com/" + cloud + "/image/upload/f_auto,q_auto/products/" + ean
  }

  /** The listed image: the variant's own, else the barcode's stored image,
      else the CDN address when there is a barcode, else none. */
  function ImageUrl(l: CartLine, cloud: string): (r: Option<string>)
    ensures r.Some? ==> r.value != ""
    ensures NullIfEmpty(l.vImage).Some? ==> r == l.vImage
    ensures NullIfEmpty(l.vImage).None? && NullIfEmpty(l.piImage).Some? ==> r == l.piImage
    ensures NullIfEmpty(l.vImage).None? && NullIfEmpty(l.piImage).None? ==>
      r == (if EanOf(l) != "" then Some(CdnUrl(cloud, EanOf(l))) else None)
  {
    var v, pi := NullIfEmpty(l.vImage), NullIfEmpty(l.piImage);
    if v.Some? then v
    else if pi.Some? then pi
    else if EanOf(l) != "" then Some(CdnUrl(cloud, EanOf(l)))
    else None
  }

  function ViewOf(l: CartLine, cloud: string): CartView {
    CartView(l.variantId, ImageUrl(l, cloud), EanOf(l))
  }

  predicate DescendingIds(vs: seq<CartView>) {
    forall i, j :: 0 <= i < j < |vs| ==> vs[i].variantId >= vs[j].variantId
  }

  /** Inserts `v` before the first view with a smaller variant id. */
  function InsertDesc(v: CartView, vs: seq<CartView>): (r: seq<CartView>)
    ensures |r| == |vs| + 1
    ensures multiset(r) == multiset(vs) + multiset{v}
  {
    if vs == [] || vs[0].variantId <= v.variantId then [v] + vs
    else
      assert vs == [vs[0]] + vs[1..];
      [vs[0]] + InsertDesc(v, vs[1..])
  }

  /** Inserting into a descending list keeps it descending. */
  lemma {:induction false} InsertDescOrdered(v: CartView, vs: seq<CartView>)
    requires DescendingIds(vs)
    ensures DescendingIds(InsertDesc(v, vs))
    ensures InsertDesc(v, vs)[0] == v || (vs != [] && InsertDesc(v, vs)[0] == vs[0])
  {
    if !(vs == [] || vs[0].variantId <= v.variantId) {
      var rest := InsertDesc(v, vs[1..]);
      InsertDescOrdered(v, vs[1..]);
      assert vs[0].variantId >= rest[0].variantId;
      assert InsertDesc(v, vs) == [vs[0]] + rest;
    }
  }

  /** `GET /:userId`: the user's lines shown in descending variant id
      order. */
  function Listing(lines: seq<CartLine>, cloud: string): (r: seq<CartView>)
    ensures DescendingIds(r)
    ensures |r| == |lines|
  {
    if lines == [] then []
    else
      var rest := Listing(lines[1..], cloud);
      InsertDescOrdered(ViewOf(lines[0], cloud), rest);
      InsertDesc(ViewOf(lines[0], cloud), rest)
  }

  /** The listing shows each line once, as its view, and nothing else. */
  lemma {:induction false} ListingIsPermutation(lines: seq<CartLine>, cloud: string)
    ensures multiset(Listing(lines, cloud)) == multiset(Views(lines, cloud))
  {
    if lines != [] {
      ListingIsPermutation(lines[1..], cloud);
      assert Views(lines, cloud) == [ViewOf(lines[0], cloud)] + Views(lines[1..], cloud);
    }
  }

  function Views(lines: seq<CartLine>, cloud: string): (r: seq<CartView>)
    ensures |r| == |lines|
    ensures forall i :: 0 <= i < |lines| ==> r[i] == ViewOf(lines[i], cloud)
  {
    if lines == [] then [] else [ViewOf(lines[0], cloud)] + Views(lines[1..], cloud)
  }
}
