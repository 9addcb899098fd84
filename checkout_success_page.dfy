/**
 * app/checkout/success/page.tsx: the confirmation page. When it renders
 * with a signed-in user, a non-empty cart and no order created yet, it posts
 * the cart as a new order; an ok reply records the order number, marks the
 * order created and empties the cart, so a later render posts nothing.
 * The order route's reply (or an exception) is a parameter.
 */
module CheckoutSuccessPage {
  import opened Js
  import opened Api
  import C = CartContext
  import O = OrderCreateRoute
  import P = CheckoutPage

  const FailedMessage: string := "Failed to create order"

  /**
   * The posted JSON: the cart lines, `subtotal` as the recomputed cart total,
   * `shipping`, `tax` and `total` as on the checkout page, and no
   * `shipping_address` field.
   */
  function RequestBody(userId: Option<string>, items: seq<C.CartItem>): O.OrderBody {
    var subtotal := C.TotalPriceOf(items);
    O.OrderBody(userId, None, P.OrderItems(items),
                O.JNumber(subtotal as real), O.JNumber(P.ShippingCost as real),
                O.JNumber(P.Tax(subtotal)), O.JNumber(P.FinalTotal(subtotal)),
                None)
  }

  /** The body as written: no `userId` field. */
  function AsWrittenBody(items: seq<C.CartItem>): O.OrderBody {
    RequestBody(None, items)
  }

  /** The body as intended: `userId` is the signed-in user's id. */
  function CorrectedBody(user: User, items: seq<C.CartItem>): O.OrderBody {
    RequestBody(Some(user.id), items)
  }

  /** As written, this page's order is refused too, and nothing is inserted. */
  lemma AsWrittenOrderRefused(session: Option<O.SessionData>, items: seq<C.CartItem>,
                              clock: O.Clock, inserted: Call<O.StoredOrder>)
    ensures var r := O.CreateOrder(session, O.Body(AsWrittenBody(items)), clock, inserted);
            && r.insertRequested == None
            && (session.None? ==> r.response == Failure(401, O.NotAuthenticatedMessage))
            && (session.Some? ==> r.response == Failure(403, O.UnauthorizedMessage))
  {
    O.CreateOrderAuthorisation(session, O.Body(AsWrittenBody(items)), clock, inserted);
  }

  /**
   * With the user's id, the order is inserted for that user with the cart's
   * lines and the same amounts the checkout page computes, and no address.
   */
  lemma CorrectedOrderAccepted(user: User, session: O.SessionData, items: seq<C.CartItem>,
                               clock: O.Clock, inserted: Call<O.StoredOrder>)
    requires session.userId == user.id
    ensures var r := O.CreateOrder(Some(session), O.Body(CorrectedBody(user, items)), clock, inserted);
            var subtotal := C.TotalPriceOf(items);
            && r.insertRequested.Some?
            && r.insertRequested.value.user == user.id
            && r.insertRequested.value.items == P.OrderItems(items)
            && Sum(r.insertRequested.value.items, P.OrderLineTotal) == subtotal
            && r.insertRequested.value.total == O.Finite(P.FinalTotal(subtotal))
            && r.insertRequested.value.shippingAddress == None
            && (r.response.Success? <==> inserted.Returned?)
  {
    var request := O.Body(CorrectedBody(user, items));
    O.CreateOrderAuthorisation(Some(session), request, clock, inserted);
    O.CreateOrderRecord(Some(session), request, clock, inserted);
    P.OrderItemsKeepTotal(items);
  }

  /**
   * `data.orderNumber` as written: the route replies `{ success, order }`,
   * which has no top-level `orderNumber`, so the value read is undefined.
   */
  function OrderNumberAsWritten(order: O.StoredOrder): (r: Option<string>)
    ensures r.None?
  {
    None
  }

  /** The number as intended: `data.order.metadata.order_number`. */
  function OrderNumberOf(order: O.StoredOrder): (r: Option<string>)
    ensures r == Some(order.record.orderNumber)
  {
    Some(order.record.orderNumber)
  }

  /** `{orderNumber && ...}`: the number is shown only when it is a non-empty string. */
  predicate Shown(orderNumber: Option<string>) {
    orderNumber.Some? && orderNumber.value != ""
  }

  /** As written, the confirmation never shows an order number, whatever the route stored. */
  lemma OrderNumberNeverShown(session: Option<O.SessionData>, request: O.OrderRequest, clock: O.Clock, order: O.StoredOrder)
    ensures var r := O.CreateOrder(session, request, clock, Returned(order));
            r.response.Success? ==> !Shown(OrderNumberAsWritten(r.response.body))
  {
  }

  /**
   * Read from the order itself, the number is shown on every ok reply, and
   * it is the number the route generated whenever the content service
   * returns the record it was given.
   */
  lemma OrderNumberShown(session: Option<O.SessionData>, request: O.OrderRequest, clock: O.Clock, order: O.StoredOrder)
    ensures var r := O.CreateOrder(session, request, clock, Returned(order));
            r.insertRequested == Some(order.record) ==>
              && r.response == Success(order)
              && Shown(OrderNumberOf(r.response.body))
              && OrderNumberOf(r.response.body) == Some(O.OrderNumber(clock.nowMs, clock.suffix))
  {
    O.CreateOrderRecord(session, request, clock, Returned(order));
    if O.CreateOrder(session, request, clock, Returned(order)).insertRequested == Some(order.record) {
      assert O.OrderNumberPrefix <= order.record.orderNumber;
    }
  }

  class Confirmation {
    const cart: C.CartStore
    var orderCreated: bool
    /** `None` stands for the undefined that `setOrderNumber` can receive. */
    var orderNumber: Option<string>
    var error: string

    constructor(cart: C.CartStore)
      ensures this.cart == cart
      ensures !orderCreated && orderNumber == Some("") && error == ""
    {
      this.cart := cart;
      orderCreated := false;
      orderNumber := Some("");
      error := "";
    }

    /**
     * `createOrder`: posts nothing without a user, with an empty cart or
     * once an order was created. Otherwise it posts the body as written,
     * with no `userId` (refused by the route, by `AsWrittenOrderRefused`);
     * an ok reply stores `data.orderNumber`, which is undefined (so nothing
     * is shown), marks the order created and empties the cart, and any
     * other outcome sets "Failed to create order" and keeps the cart.
     */
    method CreateOrder(user: Option<User>, reply: Call<Response<O.StoredOrder>>) returns (sent: Option<O.OrderBody>)
      modifies this, cart
      ensures user.None? || old(cart.items) == [] || old(orderCreated) ==>
                && sent == None && cart.items == old(cart.items) && orderCreated == old(orderCreated)
                && orderNumber == old(orderNumber) && error == old(error)
      ensures user.Some? && old(cart.items) != [] && !old(orderCreated) ==>
                sent == Some(AsWrittenBody(old(cart.items)))
      ensures user.Some? && old(cart.items) != [] && !old(orderCreated) && reply.Returned? && reply.value.Success? ==>
                && orderNumber == OrderNumberAsWritten(reply.value.body) && !Shown(orderNumber)
                && orderCreated && cart.items == []
                && error == old(error)
      ensures user.Some? && old(cart.items) != [] && !old(orderCreated) && !(reply.Returned? && reply.value.Success?) ==>
                && error == FailedMessage && cart.items == old(cart.items)
                && orderCreated == old(orderCreated) && orderNumber == old(orderNumber)
    {
      if user.None? || cart.items == [] || orderCreated {
        return None;
      }
      sent := Some(AsWrittenBody(cart.items));
      if reply.Returned? && reply.value.Success? {
        orderNumber := OrderNumberAsWritten(reply.value.body);
        orderCreated := true;
        cart.ClearCart();
      } else {
        error := FailedMessage;
      }
    }
  }
}
