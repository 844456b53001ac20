/**
 * Checkout: the empty-cart gate of the checkout dialog, the field checks and order
 * assembly of `processCheckout`, and the rule that only a confirmed order clears the
 * cart (app.js:286-380). The order service is not modelled; its answer is an input.
 */
module Checkout {
  import opened Results
  import opened Text
  import opened Escape
  import opened CartStore

  /** What the order service answered, transport and HTTP failures included. */
  datatype Reply = Accepted | Refused(message: string)

  /** The order submitted to the service (app.js:339-345). */
  datatype Order = Order(
    customerName: string,
    discordId: string,
    additionalInfo: string,
    items: Cart,
    totalPrice: int)

  datatype CheckoutError =
    | EmptyCart                 // app.js:288-291
    | CustomerNameMissing       // app.js:327-330
    | DiscordIdMissing          // app.js:332-335
    | OrderFailed(message: string)

  /** The cart after a checkout attempt, together with the order placed or the reason it was not. */
  datatype Attempt = Attempt(cart: Cart, outcome: Result<Order, CheckoutError>)

  /** The message shown when the service refuses without saying why (`result.error || ...`). */
  const DefaultFailureMessage := "Gagal membuat pesanan"

  /** `showCheckoutModal`: an empty cart cannot be checked out; otherwise the dialog shows the total. */
  function OpenCheckout(cart: Cart): (r: Result<int, CheckoutError>)
    ensures r.Err? <==> cart == []
    ensures r.Err? ==> r.error == EmptyCart
    ensures r.Ok? ==> r.value == Total(cart)
  {
    if cart == [] then Err(EmptyCart) else Ok(Total(cart))
  }

  /**
   * The checks `processCheckout` makes before contacting the service, and the order it
   * builds: trimmed, escaped text fields, the cart as it is, and the cart total.
   */
  function PrepareOrder(cart: Cart, name: string, discordId: string, info: string): (r: Result<Order, CheckoutError>)
    ensures r.Err? <==> Blank(name) || Blank(discordId)
    ensures Blank(name) ==> r == Err(CustomerNameMissing)
    ensures !Blank(name) && Blank(discordId) ==> r == Err(DiscordIdMissing)
    ensures r.Ok? ==>
              && r.value.items == cart
              && r.value.totalPrice == Total(cart)
              && r.value.customerName == EscapeHtml(Trim(name))
              && r.value.discordId == EscapeHtml(Trim(discordId))
              && r.value.additionalInfo == EscapeHtml(Trim(info))
              && Unescape(r.value.customerName) == Trim(name)
              && Unescape(r.value.discordId) == Trim(discordId)
              && Unescape(r.value.additionalInfo) == Trim(info)
  {
    var customerName := Trim(name);
    var discord := Trim(discordId);
    if customerName == [] then Err(CustomerNameMissing)
    else if discord == [] then Err(DiscordIdMissing)
    else
      UnescapeEscapeHtml(customerName);
      UnescapeEscapeHtml(discord);
      UnescapeEscapeHtml(Trim(info));
      Ok(Order(EscapeHtml(customerName), EscapeHtml(discord), EscapeHtml(Trim(info)), cart, Total(cart)))
  }

  /**
   * `processCheckout`: a form that fails its checks is refused before anything is sent;
   * otherwise the order is sent, and the cart is emptied only when the service accepts it.
   */
  function ProcessCheckout(cart: Cart, name: string, discordId: string, info: string, reply: Reply): (r: Attempt)
    ensures r.outcome.Ok? ==> r.cart == []
    ensures r.outcome.Err? ==> r.cart == cart
    ensures r.outcome.Ok? <==> !Blank(name) && !Blank(discordId) && reply.Accepted?
    ensures PrepareOrder(cart, name, discordId, info).Err? ==> r.outcome == PrepareOrder(cart, name, discordId, info)
    ensures r.outcome.Ok? ==> r.outcome == PrepareOrder(cart, name, discordId, info)
    ensures PrepareOrder(cart, name, discordId, info).Ok? && reply.Refused? ==>
              r.outcome == Err(OrderFailed(if reply.message == "" then DefaultFailureMessage else reply.message))
  {
    match PrepareOrder(cart, name, discordId, info)
    case Err(e) => Attempt(cart, Err(e))
    case Ok(order) =>
      match reply
      case Accepted => Attempt([], Ok(order))
      case Refused(message) =>
        Attempt(cart, Err(OrderFailed(if message == "" then DefaultFailureMessage else message)))
  }

  /** A refused checkout can be retried as is: a later success places the same order. */
  lemma RetryAfterRefusal(cart: Cart, name: string, discordId: string, info: string, message: string)
    ensures var first := ProcessCheckout(cart, name, discordId, info, Refused(message));
            ProcessCheckout(first.cart, name, discordId, info, Accepted)
              == ProcessCheckout(cart, name, discordId, info, Accepted)
  {
  }
}
