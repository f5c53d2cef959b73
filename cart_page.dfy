/*
 * The branches of the cart page's `loadCart`: which view it ends in, and the
 * summary amounts it shows for a non-empty cart.
 */
module CartPage {
  import opened Store
  import opened Amounts

  datatype View =
    | RedirectToLogin
    | QueryFailed
    | RedirectToMarketplace     // an empty cart right after a successful payment
    | EmptyCartAlert
    | CartSummary(lines: seq<CartLine>, summary: Summary)

  /**
   * `loadCart` for the logged-in `user` (if any), the rows the cart query
   * returned, and whether the page was reached from a successful payment.
   */
  method LoadCart(user: Option<UserId>, query: Query<seq<CartLine>>, fromPayment: bool) returns (view: View)
    ensures view == RedirectToLogin <==> user.None?
    ensures view == QueryFailed <==> user.Some? && query.QueryError?
    ensures view == RedirectToMarketplace <==> user.Some? && query == Data([]) && fromPayment
    ensures view == EmptyCartAlert <==> user.Some? && query == Data([]) && !fromPayment
    ensures view.CartSummary? <==> user.Some? && query.Data? && query.rows != []
    ensures view.CartSummary? ==> view.lines == query.rows && view.summary == OrderSummary(Subtotal(query.rows))
  {
    if user.None? {
      return RedirectToLogin;
    }
    if query.QueryError? {
      return QueryFailed;
    }
    var data := query.rows;
    if data == [] && fromPayment {
      return RedirectToMarketplace;
    }
    if data == [] {
      return EmptyCartAlert;
    }
    var subtotal := AccumulateSubtotal(data);
    view := CartSummary(data, OrderSummary(subtotal));
  }
}
