/**
 * app/checkout/page.tsx: the checkout form. It shows the cart's subtotal,
 * a flat shipping cost, 8% tax and the total; on submit it posts the cart
 * lines, the amounts and the shipping address to the order route, and on
 * success empties the cart and moves to the confirmation page. Amounts are
 * in cents, as everywhere in this model. The order route's reply (or an
 * exception from `fetch` or `response.json()`) is a parameter.
 */
module CheckoutPage {
  import opened Js
  import opened Api
  import C = CartContext
  import O = OrderCreateRoute

  const ShippingCost: int := 1000
  const EmptyCartMessage: string := "Your cart is empty"
  const FailedMessage: string := "Failed to process order. Please try again."
  const SuccessPath: string := "/checkout/success?order="
  const DefaultCountry: string := "US"

  // ---------------------------------------------------------------------------
  // Amounts
  // ---------------------------------------------------------------------------

  /** `totalPrice * 0.08`: not rounded, so it may carry fractions of a cent. */
  function Tax(subtotal: int): (tax: real)
    ensures subtotal >= 0 ==> 0.0 <= tax <= subtotal as real
    ensures subtotal == 0 <==> tax == 0.0
  {
    subtotal as real * 0.08
  }

  /** `totalPrice + shippingCost + tax`. */
  function FinalTotal(subtotal: int): (total: real)
    ensures subtotal >= 0 ==> total >= (subtotal + ShippingCost) as real
  {
    subtotal as real + ShippingCost as real + Tax(subtotal)
  }

  /**
   * The total is 108% of the subtotal plus shipping; for a non-negative
   * subtotal the tax lies between 0 and the subtotal and the total is at
   * least the subtotal plus shipping.
   */
  lemma TotalsAddUp(subtotal: int)
    ensures FinalTotal(subtotal) == subtotal as real * 1.08 + ShippingCost as real
    ensures subtotal >= 0 ==> 0.0 <= Tax(subtotal) <= subtotal as real
    ensures subtotal >= 0 ==> FinalTotal(subtotal) >= (subtotal + ShippingCost) as real
  {
  }

  // ---------------------------------------------------------------------------
  // The request body
  // ---------------------------------------------------------------------------

  /** `{ product_id, product_name, quantity, price, size }` for one cart line. */
  function ToOrderItem(item: C.CartItem): O.OrderItem {
    O.OrderItem(item.id, item.name, item.quantity, item.price, item.size)
  }

  /** `items.map(...)`: one order line per cart line, in cart order. */
  function OrderItems(items: seq<C.CartItem>): (r: seq<O.OrderItem>)
    ensures |r| == |items|
    ensures forall i :: 0 <= i < |items| ==> r[i] == ToOrderItem(items[i])
  {
    if items == [] then [] else [ToOrderItem(items[0])] + OrderItems(items[1..])
  }

  function OrderLineTotal(line: O.OrderItem): int {
    line.price * line.quantity
  }

  /** The order lines sent add up to the cart total the page shows as the subtotal. */
  lemma {:induction false} OrderItemsKeepTotal(items: seq<C.CartItem>)
    ensures Sum(OrderItems(items), OrderLineTotal) == C.TotalPriceOf(items)
  {
    if items != [] {
      OrderItemsKeepTotal(items[1..]);
      assert OrderItems(items)[1..] == OrderItems(items[1..]);
    }
  }

  /** The form's fields, by their input names. */
  datatype FormData = FormData(email: string, name: string, address: string, city: string,
                               state: string, zipCode: string, country: string)

  datatype Field = Email | Name | Address | City | State | ZipCode | Country

  function Get(form: FormData, field: Field): string {
    match field
    case Email => form.email
    case Name => form.name
    case Address => form.address
    case City => form.city
    case State => form.state
    case ZipCode => form.zipCode
    case Country => form.country
  }

  /** `{ ...formData, [e.target.name]: e.target.value }`. */
  function WithField(form: FormData, field: Field, value: string): (r: FormData)
    ensures Get(r, field) == value
    ensures forall other :: other != field ==> Get(r, other) == Get(form, other)
  {
    match field
    case Email => form.(email := value)
    case Name => form.(name := value)
    case Address => form.(address := value)
    case City => form.(city := value)
    case State => form.(state := value)
    case ZipCode => form.(zipCode := value)
    case Country => form.(country := value)
  }

  /** `user?.metadata?.[key] || ''`. */
  function MetadataOr(user: Option<User>, key: string): string {
    if user.Some? && key in user.value.metadata then user.value.metadata[key] else ""
  }

  /** The form's first state: name and email from the signed-in user, country "US", the rest blank. */
  function InitialForm(user: Option<User>): (r: FormData)
    ensures r.address == "" && r.city == "" && r.state == "" && r.zipCode == "" && r.country == DefaultCountry
    ensures user.None? ==> r.email == "" && r.name == ""
    ensures user.Some? && "email" in user.value.metadata ==> r.email == user.value.metadata["email"]
    ensures user.Some? && "name" in user.value.metadata ==> r.name == user.value.metadata["name"]
    ensures user.Some? && "email" !in user.value.metadata ==> r.email == ""
    ensures user.Some? && "name" !in user.value.metadata ==> r.name == ""
  {
    FormData(MetadataOr(user, "email"), MetadataOr(user, "name"), "", "", "", "", DefaultCountry)
  }

  /** `shipping_address`: there is no second address line. */
  function AddressOf(form: FormData): O.ShippingAddress {
    O.ShippingAddress(form.name, form.address, None, form.city, form.state, form.zipCode, form.country)
  }

  /** The posted JSON for the given `userId` field, cart lines and form. */
  function RequestBody(userId: Option<string>, items: seq<C.CartItem>, form: FormData): O.OrderBody {
    var subtotal := C.TotalPriceOf(items);
    O.OrderBody(userId, None, OrderItems(items),
                O.JNumber(subtotal as real), O.JNumber(ShippingCost as real),
                O.JNumber(Tax(subtotal)), O.JNumber(FinalTotal(subtotal)),
                Some(AddressOf(form)))
  }

  /** The body as written: it has no `userId` field. */
  function AsWrittenBody(items: seq<C.CartItem>, form: FormData): O.OrderBody {
    RequestBody(None, items, form)
  }

  /** The body as intended: `userId` is the signed-in user's id. */
  function CorrectedBody(user: Option<User>, items: seq<C.CartItem>, form: FormData): O.OrderBody {
    RequestBody(if user.Some? then Some(user.value.id) else None, items, form)
  }

  /**
   * As written, the order route never creates the order: without a session
   * it answers 401 and with one it answers 403, since the missing `userId`
   * is never the session's user id; nothing is inserted either way.
   */
  lemma AsWrittenCheckoutRefused(session: Option<O.SessionData>, items: seq<C.CartItem>, form: FormData,
                                 clock: O.Clock, inserted: Call<O.StoredOrder>)
    ensures var r := O.CreateOrder(session, O.Body(AsWrittenBody(items, form)), clock, inserted);
            && r.insertRequested == None
            && (session.None? ==> r.response == Failure(401, O.NotAuthenticatedMessage))
            && (session.Some? ==> r.response == Failure(403, O.UnauthorizedMessage))
  {
    O.CreateOrderAuthorisation(session, O.Body(AsWrittenBody(items, form)), clock, inserted);
  }

  /**
   * With the user's id in the body, a signed-in user's checkout reaches the
   * insert, and the stored order carries the user, the cart's lines (adding
   * up to the subtotal) and the amounts the page showed.
   */
  lemma CorrectedCheckoutAccepted(user: User, session: O.SessionData, items: seq<C.CartItem>, form: FormData,
                                  clock: O.Clock, inserted: Call<O.StoredOrder>)
    requires session.userId == user.id
    ensures var r := O.CreateOrder(Some(session), O.Body(CorrectedBody(Some(user), items, form)), clock, inserted);
            var subtotal := C.TotalPriceOf(items);
            && r.insertRequested.Some?
            && r.insertRequested.value.user == user.id
            && r.insertRequested.value.items == OrderItems(items)
            && Sum(r.insertRequested.value.items, OrderLineTotal) == subtotal
            && r.insertRequested.value.subtotal == O.Finite(subtotal as real)
            && r.insertRequested.value.shipping == O.Finite(ShippingCost as real)
            && r.insertRequested.value.tax == O.Finite(Tax(subtotal))
            && r.insertRequested.value.total == O.Finite(FinalTotal(subtotal))
            && r.insertRequested.value.shippingAddress == Some(AddressOf(form))
            && (r.response.Success? <==> inserted.Returned?)
  {
    var request := O.Body(CorrectedBody(Some(user), items, form));
    O.CreateOrderAuthorisation(Some(session), request, clock, inserted);
    O.CreateOrderRecord(Some(session), request, clock, inserted);
    OrderItemsKeepTotal(items);
  }

  // ---------------------------------------------------------------------------
  // The page
  // ---------------------------------------------------------------------------

  class Checkout {
    const cart: C.CartStore
    var isProcessing: bool
    var error: string
    var formData: FormData
    /** Where `router.push` last sent the browser, if anywhere. */
    var redirect: Option<string>

    constructor(cart: C.CartStore, user: Option<User>)
      ensures this.cart == cart
      ensures !isProcessing && error == "" && formData == InitialForm(user) && redirect == None
    {
      this.cart := cart;
      isProcessing := false;
      error := "";
      formData := InitialForm(user);
      redirect := None;
    }

    /** `handleInputChange`: one field takes the input's value. */
    method InputChange(field: Field, value: string)
      modifies this
      ensures formData == WithField(old(formData), field, value)
      ensures isProcessing == old(isProcessing) && error == old(error) && redirect == old(redirect)
    {
      formData := WithField(formData, field, value);
    }

    /**
     * `handleSubmit`: an empty cart only sets "Your cart is empty".
     * Otherwise the body as written, with no `userId`, is posted (which the
     * order route refuses, by `AsWrittenCheckoutRefused`); an ok reply empties the cart and
     * redirects to the confirmation page with the order's id, and any other
     * outcome sets the retry message and keeps the cart. Processing is over
     * either way.
     */
    method HandleSubmit(reply: Call<Response<O.StoredOrder>>) returns (sent: Option<O.OrderBody>)
      modifies this, cart
      ensures formData == old(formData)
      ensures old(cart.items) == [] ==>
                && sent == None && error == EmptyCartMessage && cart.items == old(cart.items)
                && isProcessing == old(isProcessing) && redirect == old(redirect)
      ensures old(cart.items) != [] ==>
                sent == Some(AsWrittenBody(old(cart.items), old(formData))) && !isProcessing
      ensures old(cart.items) != [] && reply.Returned? && reply.value.Success? ==>
                && cart.items == [] && error == ""
                && redirect == Some(SuccessPath + reply.value.body.id)
      ensures old(cart.items) != [] && !(reply.Returned? && reply.value.Success?) ==>
                cart.items == old(cart.items) && error == FailedMessage && redirect == old(redirect)
    {
      if cart.items == [] {
        error := EmptyCartMessage;
        return None;
      }
      isProcessing := true;
      error := "";
      sent := Some(AsWrittenBody(cart.items, formData));
      if reply.Returned? && reply.value.Success? {
        cart.ClearCart();
        redirect := Some(SuccessPath + reply.value.body.id);
      } else {
        error := FailedMessage;
      }
      isProcessing := false;
    }
  }
}
