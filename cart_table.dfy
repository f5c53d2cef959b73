/*
 * The `cart` table as an in-memory sequence of rows, and the operations the
 * marketplace and cart pages perform on it: add to cart (an upsert), change a
 * quantity by one, remove a row, clear a user's cart after checkout, and
 * count the items in a user's cart.
 */
module CartTable {
  import opened Store

  /** A row of the `cart` table. */
  datatype Row = Row(id: nat, userId: UserId, artworkId: ArtworkId, quantity: int)

  /** A column filter, as in `.eq("user_id", u)` or `.eq("id", id)`. */
  datatype Eq = UserIdEq(user: UserId) | IdEq(id: nat)

  predicate Matches(r: Row, e: Eq)
  {
    match e
    case UserIdEq(u) => r.userId == u
    case IdEq(id) => r.id == id
  }

  /**
   * The rows for which `Matches(r, e) == keep`, in table order: `keep` selects
   * the matching rows, `!keep` is what a `.delete().eq(...)` leaves behind.
   */
  function Where(rows: seq<Row>, e: Eq, keep: bool): seq<Row>
  {
    if rows == [] then []
    else
      var init := Where(rows[..|rows| - 1], e, keep);
      if Matches(rows[|rows| - 1], e) == keep then init + [rows[|rows| - 1]] else init
  }

  /** Σ quantity: the `reduce((sum, item) => sum + item.quantity, 0)` of the badge. */
  function TotalQuantity(rows: seq<Row>): int
  {
    if rows == [] then 0 else TotalQuantity(rows[..|rows| - 1]) + rows[|rows| - 1].quantity
  }

  /** The number shown on the cart badge of user `u`. */
  function CartCount(rows: seq<Row>, u: UserId): int
  {
    TotalQuantity(Where(rows, UserIdEq(u), true))
  }

  // ---------------------------------------------------------------- invariants

  predicate PositiveQuantities(rows: seq<Row>)
  {
    forall i :: 0 <= i < |rows| ==> rows[i].quantity > 0
  }

  predicate UniqueIds(rows: seq<Row>)
  {
    forall i, j :: 0 <= i < j < |rows| ==> rows[i].id != rows[j].id
  }

  /** At most one row per (user, artwork). */
  predicate OneRowPerArtwork(rows: seq<Row>)
  {
    forall i, j :: 0 <= i < j < |rows| ==>
      rows[i].userId != rows[j].userId || rows[i].artworkId != rows[j].artworkId
  }

  predicate WellFormed(rows: seq<Row>)
  {
    PositiveQuantities(rows) && UniqueIds(rows) && OneRowPerArtwork(rows)
  }

  // ---------------------------------------------------------------- lookups

  /** `.select(...).eq("id", cartId).single()`: the position of the row with that id. */
  function FindId(rows: seq<Row>, id: nat): (r: Option<nat>)
    ensures r.Some? ==> r.value < |rows| && rows[r.value].id == id
    ensures r.None? <==> forall i :: 0 <= i < |rows| ==> rows[i].id != id
  {
    if rows == [] then None
    else if rows[0].id == id then Some(0)
    else match FindId(rows[1..], id)
      case Some(i) => Some(i + 1)
      case None => None
  }

  /** `.eq("user_id", u).eq("artwork_id", a).maybeSingle()`: the position of that user's row for that artwork. */
  function FindPair(rows: seq<Row>, u: UserId, a: ArtworkId): (r: Option<nat>)
    ensures r.Some? ==> r.value < |rows| && rows[r.value].userId == u && rows[r.value].artworkId == a
    ensures r.None? <==> forall i :: 0 <= i < |rows| ==> rows[i].userId != u || rows[i].artworkId != a
  {
    if rows == [] then None
    else if rows[0].userId == u && rows[0].artworkId == a then Some(0)
    else match FindPair(rows[1..], u, a)
      case Some(i) => Some(i + 1)
      case None => None
  }

  // ---------------------------------------------------------------- the operations, on values

  /** Add to cart: one more of an artwork already in the cart, else a new row with quantity 1. */
  function AddedToCart(rows: seq<Row>, u: UserId, a: ArtworkId, freshId: nat): seq<Row>
  {
    match FindPair(rows, u, a)
    case Some(i) => rows[i := rows[i].(quantity := rows[i].quantity + 1)]
    case None => rows + [Row(freshId, u, a, 1)]
  }

  /** Delete the row with id `id`. */
  function Removed(rows: seq<Row>, id: nat): seq<Row>
  {
    Where(rows, IdEq(id), false)
  }

  /**
   * Change quantity by `delta`: the row goes when the new quantity is at most
   * zero, and otherwise takes the new quantity; a missing row changes nothing.
   */
  function QuantityChanged(rows: seq<Row>, id: nat, delta: int): seq<Row>
  {
    match FindId(rows, id)
    case None => rows
    case Some(i) =>
      var newQty := rows[i].quantity + delta;
      if newQty <= 0 then Removed(rows, id) else rows[i := rows[i].(quantity := newQty)]
  }

  /** Delete every row of user `u`. */
  function ClearedFor(rows: seq<Row>, u: UserId): seq<Row>
  {
    Where(rows, UserIdEq(u), false)
  }

  // ---------------------------------------------------------------- lemmas about Where and sums

  lemma {:induction false} WhereMembers(rows: seq<Row>, e: Eq, keep: bool, x: Row)
    ensures x in Where(rows, e, keep) <==> x in rows && Matches(x, e) == keep
    decreases |rows|
  {
    if rows != [] {
      var n := |rows| - 1;
      assert rows == rows[..n] + [rows[n]];
      WhereMembers(rows[..n], e, keep, x);
    }
  }

  lemma {:induction false} WhereAppend(a: seq<Row>, b: seq<Row>, e: Eq, keep: bool)
    ensures Where(a + b, e, keep) == Where(a, e, keep) + Where(b, e, keep)
    decreases |b|
  {
    if b == [] {
      assert a + b == a;
    } else {
      var n := |b| - 1;
      assert (a + b)[..|a + b| - 1] == a + b[..n];
      WhereAppend(a, b[..n], e, keep);
    }
  }

  lemma {:induction false} TotalAppend(a: seq<Row>, b: seq<Row>)
    ensures TotalQuantity(a + b) == TotalQuantity(a) + TotalQuantity(b)
    decreases |b|
  {
    if b == [] {
      assert a + b == a;
    } else {
      var n := |b| - 1;
      assert (a + b)[..|a + b| - 1] == a + b[..n];
      TotalAppend(a, b[..n]);
    }
  }

  /** The count of user `u` over three consecutive pieces of a table. */
  lemma CountSplit(pre: seq<Row>, x: Row, post: seq<Row>, u: UserId)
    ensures CartCount(pre + [x] + post, u)
         == CartCount(pre, u) + (if x.userId == u then x.quantity else 0) + CartCount(post, u)
  {
    var e := UserIdEq(u);
    WhereAppend(pre + [x], post, e, true);
    WhereAppend(pre, [x], e, true);
    assert Where([x], e, true) == if x.userId == u then [x] else [] by {
      assert [x][..0] == [];
    }
    TotalAppend(Where(pre, e, true) + Where([x], e, true), Where(post, e, true));
    TotalAppend(Where(pre, e, true), Where([x], e, true));
  }

  /** Filtering keeps the well-formedness of a table. */
  lemma {:induction false} WhereKeepsWellFormed(rows: seq<Row>, e: Eq, keep: bool)
    requires WellFormed(rows)
    ensures WellFormed(Where(rows, e, keep))
    decreases |rows|
  {
    if rows != [] {
      var n := |rows| - 1;
      var init := rows[..n];
      assert WellFormed(init);
      WhereKeepsWellFormed(init, e, keep);
      if Matches(rows[n], e) == keep {
        var w := Where(init, e, keep);
        forall i | 0 <= i < |w|
          ensures w[i].id != rows[n].id
          ensures w[i].userId != rows[n].userId || w[i].artworkId != rows[n].artworkId
        {
          WhereMembers(init, e, keep, w[i]);
          var j :| 0 <= j < n && init[j] == w[i];
        }
      }
    }
  }

  /** A row with id `id`, in a table of unique ids, splits it around that row. */
  lemma {:induction false} RemovedAt(rows: seq<Row>, i: nat)
    requires UniqueIds(rows) && i < |rows|
    ensures Removed(rows, rows[i].id) == rows[..i] + rows[i + 1..]
    decreases |rows|
  {
    var id := rows[i].id;
    var n := |rows| - 1;
    if i == n {
      assert rows[..n] + rows[n + 1..] == rows[..n];
      NoIdLeft(rows[..n], id);
    } else {
      RemovedAt(rows[..n], i);
      assert rows[..n][..i] == rows[..i];
      assert rows[..n][i + 1..] + [rows[n]] == rows[i + 1..];
    }
  }

  lemma {:induction false} NoIdLeft(rows: seq<Row>, id: nat)
    requires forall j :: 0 <= j < |rows| ==> rows[j].id != id
    ensures Removed(rows, id) == rows
    decreases |rows|
  {
    if rows != [] {
      var n := |rows| - 1;
      NoIdLeft(rows[..n], id);
      assert rows[..n] + [rows[n]] == rows;
    }
  }

  // ---------------------------------------------------------------- add to cart

  /** Adding to the cart keeps quantities positive, ids unique and one row per (user, artwork). */
  lemma AddKeepsWellFormed(rows: seq<Row>, u: UserId, a: ArtworkId, freshId: nat)
    requires WellFormed(rows)
    requires forall i :: 0 <= i < |rows| ==> rows[i].id < freshId
    ensures WellFormed(AddedToCart(rows, u, a, freshId))
  {
  }

  /** An artwork already in the cart has its quantity raised by exactly one, in place. */
  lemma AddIncrementsExisting(rows: seq<Row>, u: UserId, a: ArtworkId, freshId: nat, i: nat)
    requires OneRowPerArtwork(rows)
    requires i < |rows| && rows[i].userId == u && rows[i].artworkId == a
    ensures AddedToCart(rows, u, a, freshId)
         == rows[..i] + [rows[i].(quantity := rows[i].quantity + 1)] + rows[i + 1..]
  {
  }

  /** An artwork not yet in the cart gets one new row, with quantity 1, at the end. */
  lemma AddInsertsNew(rows: seq<Row>, u: UserId, a: ArtworkId, freshId: nat)
    requires forall i :: 0 <= i < |rows| ==> rows[i].userId != u || rows[i].artworkId != a
    ensures AddedToCart(rows, u, a, freshId) == rows + [Row(freshId, u, a, 1)]
  {
  }

  /**
   * The add-to-cart handler drops the existence lookup's error and then
   * inserts. For a user who already has a row for the artwork, the table
   * then holds two rows for that (user, artwork).
   */
  lemma FailedLookupDuplicatesRow(rows: seq<Row>, u: UserId, a: ArtworkId, freshId: nat)
    requires FindPair(rows, u, a).Some?
    ensures !OneRowPerArtwork(rows + [Row(freshId, u, a, 1)])
  {
    var i := FindPair(rows, u, a).value;
    var grown := rows + [Row(freshId, u, a, 1)];
    assert grown[i] == rows[i] && grown[|rows|] == Row(freshId, u, a, 1);
  }

  /** After add to cart the user's item count is one higher; every other user's is the same. */
  lemma AddRaisesCountByOne(rows: seq<Row>, u: UserId, a: ArtworkId, freshId: nat, v: UserId)
    ensures CartCount(AddedToCart(rows, u, a, freshId), v) == CartCount(rows, v) + (if v == u then 1 else 0)
  {
    match FindPair(rows, u, a)
    case Some(i) =>
      var x := rows[i].(quantity := rows[i].quantity + 1);
      assert rows == rows[..i] + [rows[i]] + rows[i + 1..];
      assert rows[i := x] == rows[..i] + [x] + rows[i + 1..];
      CountSplit(rows[..i], rows[i], rows[i + 1..], v);
      CountSplit(rows[..i], x, rows[i + 1..], v);
    case None =>
      CountSplit(rows, Row(freshId, u, a, 1), [], v);
      assert rows + [Row(freshId, u, a, 1)] + [] == rows + [Row(freshId, u, a, 1)];
  }

  // ---------------------------------------------------------------- change quantity and remove

  /**
   * Removing deletes exactly the row with that id: every other row stays, in
   * order, and in a table of unique ids exactly one row goes.
   */
  lemma RemoveDeletesExactlyThatRow(rows: seq<Row>, id: nat, x: Row)
    ensures x in Removed(rows, id) <==> x in rows && x.id != id
    ensures UniqueIds(rows) && FindId(rows, id).Some? ==> |Removed(rows, id)| == |rows| - 1
  {
    WhereMembers(rows, IdEq(id), false, x);
    if UniqueIds(rows) && FindId(rows, id).Some? {
      RemovedAt(rows, FindId(rows, id).value);
    }
  }

  /**
   * Change quantity on the row at `i`: the new quantity is the old one plus
   * `delta`; at zero or below the row is deleted; no other row changes.
   */
  lemma QuantityChangedAt(rows: seq<Row>, i: nat, delta: int)
    requires UniqueIds(rows) && i < |rows|
    ensures var q := rows[i].quantity + delta;
      QuantityChanged(rows, rows[i].id, delta)
      == if q <= 0 then rows[..i] + rows[i + 1..]
         else rows[..i] + [rows[i].(quantity := q)] + rows[i + 1..]
  {
    assert FindId(rows, rows[i].id) == Some(i);
    var q := rows[i].quantity + delta;
    if q <= 0 {
      RemovedAt(rows, i);
    } else {
      assert rows[i := rows[i].(quantity := q)] == rows[..i] + [rows[i].(quantity := q)] + rows[i + 1..];
    }
  }

  /** Changing a quantity keeps the table well formed: no row is left with quantity zero or less. */
  lemma QuantityChangedKeepsWellFormed(rows: seq<Row>, id: nat, delta: int)
    requires WellFormed(rows)
    ensures WellFormed(QuantityChanged(rows, id, delta))
  {
    match FindId(rows, id)
    case None =>
    case Some(i) =>
      if rows[i].quantity + delta <= 0 {
        WhereKeepsWellFormed(rows, IdEq(id), false);
      }
  }

  /**
   * The owner's item count moves by `delta`, or drops by the whole old
   * quantity when the row is deleted; other users' counts stay.
   */
  lemma QuantityChangedCount(rows: seq<Row>, i: nat, delta: int, v: UserId)
    requires UniqueIds(rows) && i < |rows|
    ensures var q := rows[i].quantity + delta;
      CartCount(QuantityChanged(rows, rows[i].id, delta), v)
      == CartCount(rows, v) + (if rows[i].userId != v then 0 else if q <= 0 then -rows[i].quantity else delta)
  {
    var q := rows[i].quantity + delta;
    QuantityChangedAt(rows, i, delta);
    assert rows == rows[..i] + [rows[i]] + rows[i + 1..];
    CountSplit(rows[..i], rows[i], rows[i + 1..], v);
    if q <= 0 {
      WhereAppend(rows[..i], rows[i + 1..], UserIdEq(v), true);
      TotalAppend(Where(rows[..i], UserIdEq(v), true), Where(rows[i + 1..], UserIdEq(v), true));
    } else {
      CountSplit(rows[..i], rows[i].(quantity := q), rows[i + 1..], v);
    }
  }

  // ---------------------------------------------------------------- clear after checkout

  /** Clearing user `u`'s cart leaves `u` no rows and every other user's rows as they were, in order. */
  lemma {:induction false} ClearedForOnlyThatUser(rows: seq<Row>, u: UserId, v: UserId)
    ensures Where(ClearedFor(rows, u), UserIdEq(u), true) == []
    ensures v != u ==> Where(ClearedFor(rows, u), UserIdEq(v), true) == Where(rows, UserIdEq(v), true)
    decreases |rows|
  {
    if rows != [] {
      var n := |rows| - 1;
      ClearedForOnlyThatUser(rows[..n], u, v);
      var c := ClearedFor(rows[..n], u);
      if rows[n].userId != u {
        assert ClearedFor(rows, u) == c + [rows[n]];
        WhereAppend(c, [rows[n]], UserIdEq(u), true);
        WhereAppend(c, [rows[n]], UserIdEq(v), true);
        assert [rows[n]][..0] == [];
      }
    }
  }

  /** After the checkout's cart delete the buyer's badge reads zero and every other user's count is unchanged. */
  lemma ClearedCartCountsZero(rows: seq<Row>, u: UserId, v: UserId)
    ensures CartCount(ClearedFor(rows, u), u) == 0
    ensures v != u ==> CartCount(ClearedFor(rows, u), v) == CartCount(rows, v)
  {
    ClearedForOnlyThatUser(rows, u, v);
  }

  // ---------------------------------------------------------------- the table

  /** The `cart` table; `nextId` is the identity the store gives the next inserted row. */
  class Table {
    var rows: seq<Row>
    var nextId: nat

    ghost predicate Valid()
      reads this
    {
      WellFormed(rows) && forall i :: 0 <= i < |rows| ==> rows[i].id < nextId
    }

    constructor ()
      ensures Valid() && rows == [] && nextId == 0
    {
      rows := [];
      nextId := 0;
    }

    /** The add-to-cart click: without a logged-in user nothing happens. */
    method AddToCart(user: Option<UserId>, artworkId: ArtworkId)
      requires Valid()
      modifies this
      ensures Valid()
      ensures user.None? ==> rows == old(rows) && nextId == old(nextId)
      ensures user.Some? ==> rows == AddedToCart(old(rows), user.value, artworkId, old(nextId))
      ensures nextId == old(nextId) + (if user.Some? && FindPair(old(rows), user.value, artworkId).None? then 1 else 0)
    {
      if user.None? {
        return;
      }
      AddKeepsWellFormed(rows, user.value, artworkId, nextId);
      var existing := FindPair(rows, user.value, artworkId);
      match existing {
        case Some(i) =>
          rows := rows[i := rows[i].(quantity := rows[i].quantity + 1)];
        case None =>
          rows := rows + [Row(nextId, user.value, artworkId, 1)];
          nextId := nextId + 1;
      }
    }

    /** The minus (`delta == -1`) and plus (`delta == +1`) buttons. */
    method ChangeQuantity(cartId: nat, delta: int)
      requires Valid()
      modifies this
      ensures Valid() && nextId == old(nextId)
      ensures rows == QuantityChanged(old(rows), cartId, delta)
    {
      QuantityChangedKeepsWellFormed(rows, cartId, delta);
      var found := FindId(rows, cartId);
      if found.None? {
        return;
      }
      var i := found.value;
      var newQty := rows[i].quantity + delta;
      if newQty <= 0 {
        RemoveItem(cartId);
        return;
      }
      rows := rows[i := rows[i].(quantity := newQty)];
    }

    /** The remove button: delete the row with id `cartId`. */
    method RemoveItem(cartId: nat)
      requires Valid()
      modifies this
      ensures Valid() && nextId == old(nextId)
      ensures rows == Removed(old(rows), cartId)
    {
      WhereKeepsWellFormed(rows, IdEq(cartId), false);
      forall x | x in Removed(rows, cartId) ensures x.id < nextId {
        WhereMembers(rows, IdEq(cartId), false, x);
      }
      rows := Removed(rows, cartId);
    }

    /** `.delete().eq("user_id", user)` after a payment. */
    method ClearCart(user: UserId)
      requires Valid()
      modifies this
      ensures Valid() && nextId == old(nextId)
      ensures rows == ClearedFor(old(rows), user)
    {
      WhereKeepsWellFormed(rows, UserIdEq(user), false);
      forall x | x in ClearedFor(rows, user) ensures x.id < nextId {
        WhereMembers(rows, UserIdEq(user), false, x);
      }
      rows := ClearedFor(rows, user);
    }

    /**
     * `loadCartCount`: the badge keeps its text without a logged-in user or
     * when the quantity query returns no data; otherwise it shows the sum of
     * that user's quantities.
     */
    method LoadCartCount(user: Option<UserId>, queryFails: bool) returns (badge: Option<int>)
      ensures badge.None? <==> user.None? || queryFails
      ensures badge.Some? ==> badge.value == CartCount(rows, user.value)
    {
      if user.None? || queryFails {
        return None;
      }
      var data := Where(rows, UserIdEq(user.value), true);
      badge := Some(TotalQuantity(data));
    }
  }
}
