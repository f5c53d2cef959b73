/*
 * Checkout: `startPayment` prices the cart and asks the relay for a gateway
 * order; the gateway's success callback stores one order and one
 * `order_items` row per cart row, then clears the buyer's cart.
 */
module Checkout {
  import opened Store
  import opened Amounts
  import CartTable
  import Server

  /** What the success callback closes over: the buyer, the cart rows read at checkout, and the rupee total. */
  datatype Session = Session(buyer: UserId, lines: seq<CartLine>, total: int)

  datatype Started =
    | LoginRequired
    | CartEmpty
    | RelayUnreachable(session: Session)
    | PaymentOpened(session: Session, gatewayOrder: Server.CreateOrderResponse)

  /**
   * `startPayment` up to opening the gateway's payment form: a missing user or
   * an empty or failed cart query stops before any order is requested;
   * otherwise the rounded total in rupees is sent to `/create-order`. A
   * request that is rejected (`relayRejects`: the relay cannot be reached or
   * its body is not JSON) throws and opens nothing; otherwise the form is
   * opened whatever `/create-order` answered.
   */
  method StartPayment(user: Option<UserId>, query: Query<seq<CartLine>>, relayRejects: bool,
                      gateway: Server.GatewayRequest -> Server.GatewayReply)
    returns (started: Started)
    ensures started == LoginRequired <==> user.None?
    ensures started == CartEmpty <==> user.Some? && (query.QueryError? || query.rows == [])
    ensures started.RelayUnreachable? <==> user.Some? && query.Data? && query.rows != [] && relayRejects
    ensures started.RelayUnreachable? || started.PaymentOpened? ==>
      && started.session.buyer == user.value
      && started.session.lines == query.rows
      && started.session.total == CheckoutTotal(Subtotal(query.rows))
    ensures started.PaymentOpened? ==>
      && started.gatewayOrder == Server.CreateOrder(started.session.total as real, gateway)
      && Server.OrderRequest(started.session.total as real).amount == 100 * started.session.total
  {
    if user.None? {
      return LoginRequired;
    }
    if query.QueryError? || query.rows == [] {
      return CartEmpty;
    }
    var cartItems := query.rows;
    var subtotal := AccumulateSubtotal(cartItems);
    var total := CheckoutTotal(subtotal);
    if relayRejects {
      return RelayUnreachable(Session(user.value, cartItems, total));
    }
    var reply := Server.CreateOrder(total as real, gateway);
    started := PaymentOpened(Session(user.value, cartItems, total), reply);
  }

  /**
   * For any cart the gateway is asked for a whole number of rupees in paise,
   * within half a rupee of subtotal plus tax.
   */
  lemma ChargedPaise(lines: seq<CartLine>)
    ensures var paise := Server.OrderRequest(CheckoutTotal(Subtotal(lines)) as real).amount;
      && paise % 100 == 0
      && paise as real - 50.0 <= 118.0 * Subtotal(lines) < paise as real + 50.0
  {
  }

  /** Two pieces at ₹1000 come to ₹2000 + ₹360 tax = ₹2360, charged as 236000 paise. */
  lemma TwoPiecesAtThousandRupees(art: Artwork)
    requires art.price == 1000.0
    ensures var lines := [CartLine(1, 2, art)];
      && Subtotal(lines) == 2000.0
      && OrderSummary(Subtotal(lines)).gst == 360.0
      && CheckoutTotal(Subtotal(lines)) == 2360
      && Server.OrderRequest(CheckoutTotal(Subtotal(lines)) as real).amount == 236000
  {
  }

  // ---------------------------------------------------------------- stored records

  datatype Order = Order(id: nat, buyerId: UserId, totalAmount: int, status: string)

  datatype OrderItem = OrderItem(orderId: nat, artworkId: ArtworkId, artistId: UserId, price: real, quantity: int)

  /** The `cartItems.map(...)` building the `order_items` rows of order `orderId`. */
  function OrderItems(lines: seq<CartLine>, orderId: nat): (items: seq<OrderItem>)
    ensures |items| == |lines|
    ensures forall i :: 0 <= i < |lines| ==>
      items[i] == OrderItem(orderId, lines[i].artwork.id, lines[i].artwork.artistId, lines[i].artwork.price, lines[i].quantity)
  {
    if lines == [] then []
    else
      var last := lines[|lines| - 1];
      OrderItems(lines[..|lines| - 1], orderId)
        + [OrderItem(orderId, last.artwork.id, last.artwork.artistId, last.artwork.price, last.quantity)]
  }

  /** Σ price × quantity over stored items. */
  function ItemsSubtotal(items: seq<OrderItem>): real
  {
    if items == [] then 0.0
    else ItemsSubtotal(items[..|items| - 1]) + items[|items| - 1].price * items[|items| - 1].quantity as real
  }

  lemma ItemsSubtotalSnoc(init: seq<OrderItem>, item: OrderItem)
    ensures ItemsSubtotal(init + [item]) == ItemsSubtotal(init) + item.price * item.quantity as real
  {
    assert (init + [item])[..|init|] == init;
  }

  /** The stored items of an order add up to the subtotal the total was computed from. */
  lemma {:induction false} OrderItemsKeepSubtotal(lines: seq<CartLine>, orderId: nat)
    ensures ItemsSubtotal(OrderItems(lines, orderId)) == Subtotal(lines)
    decreases |lines|
  {
    if lines != [] {
      var n := |lines| - 1;
      var last := lines[n];
      var item := OrderItem(orderId, last.artwork.id, last.artwork.artistId, last.artwork.price, last.quantity);
      ItemsSubtotalSnoc(OrderItems(lines[..n], orderId), item);
      OrderItemsKeepSubtotal(lines[..n], orderId);
    }
  }

  /** Some stored order has id `id`. */
  ghost predicate HasOrder(orders: seq<Order>, id: nat)
  {
    exists i :: 0 <= i < |orders| && orders[i].id == id
  }

  /** Order ids are unique and below `nextOrderId`, and every item belongs to a stored order. */
  ghost predicate Consistent(orders: seq<Order>, items: seq<OrderItem>, nextOrderId: nat)
  {
    && (forall i :: 0 <= i < |orders| ==> orders[i].id < nextOrderId)
    && (forall i, j :: 0 <= i < j < |orders| ==> orders[i].id != orders[j].id)
    && (forall k :: 0 <= k < |items| ==> HasOrder(orders, items[k].orderId))
  }

  /** Storing an order under the next id, with items of that order only, keeps the tables consistent. */
  lemma StoringOrderKeepsConsistent(orders: seq<Order>, items: seq<OrderItem>, nextOrderId: nat,
                                    order: Order, newItems: seq<OrderItem>)
    requires Consistent(orders, items, nextOrderId)
    requires order.id == nextOrderId
    requires forall k :: 0 <= k < |newItems| ==> newItems[k].orderId == nextOrderId
    ensures Consistent(orders + [order], items + newItems, nextOrderId + 1)
  {
    var orders', items' := orders + [order], items + newItems;
    forall k | 0 <= k < |items'|
      ensures HasOrder(orders', items'[k].orderId)
    {
      if k < |items| {
        var i :| 0 <= i < |orders| && orders[i].id == items[k].orderId;
        assert orders'[i] == orders[i];
      } else {
        assert items'[k] == newItems[k - |items|];
        assert orders'[|orders|] == order;
      }
    }
  }

  /**
   * What can go wrong in the success callback: the `/verify` request is
   * rejected (it throws before anything is stored), the order insert
   * returns an error, the `order_items` insert returns an error, the cart
   * delete returns an error. Only the order insert's error is read.
   */
  datatype CallbackFailures = CallbackFailures(verifyRejects: bool, orderInsertFails: bool,
                                               itemsInsertFails: bool, cartClearFails: bool)

  const NoFailures := CallbackFailures(false, false, false, false)

  /** The `orders` and `order_items` tables; `nextOrderId` is the id the store gives the next order. */
  class OrderTables {
    var orders: seq<Order>
    var items: seq<OrderItem>
    var nextOrderId: nat

    ghost predicate Valid()
      reads this
    {
      Consistent(orders, items, nextOrderId)
    }

    constructor ()
      ensures Valid() && orders == [] && items == [] && nextOrderId == 0
    {
      orders, items, nextOrderId := [], [], 0;
    }

    /**
     * The gateway's success callback as written. It posts the confirmation
     * to `/verify` and does not read the answer, so nothing below depends
     * on `confirmation`. A rejected `/verify` request or a failed order
     * insert stops it; a failed `order_items` insert does not, and a failed
     * cart delete leaves the cart as it was.
     */
    method CompletePayment(cart: CartTable.Table, session: Session, confirmation: Server.VerifyRequest,
                           failures: CallbackFailures)
      requires Valid() && cart.Valid()
      modifies this, cart
      ensures Valid() && cart.Valid() && cart.nextId == old(cart.nextId)
      ensures failures.verifyRejects || failures.orderInsertFails ==>
        && orders == old(orders) && items == old(items) && nextOrderId == old(nextOrderId)
        && cart.rows == old(cart.rows)
      ensures !failures.verifyRejects && !failures.orderInsertFails ==>
        && orders == old(orders) + [Order(old(nextOrderId), session.buyer, session.total, "paid")]
        && nextOrderId == old(nextOrderId) + 1
        && items == old(items) + (if failures.itemsInsertFails then [] else OrderItems(session.lines, old(nextOrderId)))
        && cart.rows == (if failures.cartClearFails then old(cart.rows) else CartTable.ClearedFor(old(cart.rows), session.buyer))
    {
      if failures.verifyRejects || failures.orderInsertFails {
        return;
      }
      var order := Order(nextOrderId, session.buyer, session.total, "paid");
      var stored := if failures.itemsInsertFails then [] else OrderItems(session.lines, nextOrderId);
      StoringOrderKeepsConsistent(orders, items, nextOrderId, order, stored);
      orders, items, nextOrderId := orders + [order], items + stored, nextOrderId + 1;
      if !failures.cartClearFails {
        cart.ClearCart(session.buyer);
      }
    }

    /**
     * The callback with the order insert gated on `/verify`'s answer: a
     * confirmation whose signature does not verify changes nothing.
     */
    method CompleteVerifiedPayment(cart: CartTable.Table, session: Session, hmac: Server.Hmac, secret: string,
                                   confirmation: Server.VerifyRequest, failures: CallbackFailures)
      requires Valid() && cart.Valid()
      modifies this, cart
      ensures Valid() && cart.Valid() && cart.nextId == old(cart.nextId)
      ensures |orders| > old(|orders|) ==> Server.Verify(hmac, secret, confirmation).success
      ensures !Server.Verify(hmac, secret, confirmation).success || failures.verifyRejects || failures.orderInsertFails ==>
        && orders == old(orders) && items == old(items) && nextOrderId == old(nextOrderId)
        && cart.rows == old(cart.rows)
      ensures Server.Verify(hmac, secret, confirmation).success && !failures.verifyRejects && !failures.orderInsertFails ==>
        && orders == old(orders) + [Order(old(nextOrderId), session.buyer, session.total, "paid")]
        && nextOrderId == old(nextOrderId) + 1
        && items == old(items) + (if failures.itemsInsertFails then [] else OrderItems(session.lines, old(nextOrderId)))
        && cart.rows == (if failures.cartClearFails then old(cart.rows) else CartTable.ClearedFor(old(cart.rows), session.buyer))
    {
      if failures.verifyRejects {
        return;
      }
      var reply := Server.Verify(hmac, secret, confirmation);
      if !reply.success {
        return;
      }
      CompletePayment(cart, session, confirmation, failures);
    }
  }

  /** As written: a confirmation with a wrong signature still stores a paid order. */
  method ForgedConfirmationStored(hmac: Server.Hmac, secret: string, session: Session, forged: Server.VerifyRequest)
    returns (paid: seq<Order>)
    requires !Server.Verify(hmac, secret, forged).success
    ensures paid == [Order(0, session.buyer, session.total, "paid")]
  {
    var cart := new CartTable.Table();
    var tables := new OrderTables();
    tables.CompletePayment(cart, session, forged, NoFailures);
    paid := tables.orders;
  }

  /** With the insert gated on verification, the same confirmation stores nothing. */
  method ForgedConfirmationRefused(hmac: Server.Hmac, secret: string, session: Session, forged: Server.VerifyRequest)
    returns (paid: seq<Order>)
    requires !Server.Verify(hmac, secret, forged).success
    ensures paid == []
  {
    var cart := new CartTable.Table();
    var tables := new OrderTables();
    tables.CompleteVerifiedPayment(cart, session, hmac, secret, forged, NoFailures);
    paid := tables.orders;
  }
}
