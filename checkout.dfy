/** The checkout page (src/app/checkout/page.tsx): a customer-only page whose order
    handler checks the session and the address, posts the cart as order items, and
    clears the cart only once the order is accepted; an empty cart sends the
    visitor back to the menu. */
module Checkout {
  import opened Types
  import opened Json
  import opened Platform
  import Http
  import Cart
  import Strings
  import Guard

  /** One `{ mealId, quantity, price }` entry of an order request. */
  datatype OrderItemInput = OrderItemInput(mealId: string, quantity: int, price: int)

  /** An order request body: the address, and the items under the key the page uses. */
  datatype OrderPayload = OrderPayload(address: string, itemsKey: string, items: seq<OrderItemInput>)

  const OrderPath: string := "/orders"
  const LoginFirstText: string := "Please login to place an order"
  const AddressText: string := "Please provide a delivery address"
  const PlacedText: string := "Order placed successfully!"

  /** The page's role list. */
  const CheckoutRoles: seq<Role> := [Customer]

  /** Only customers reach the checkout; providers and administrators are sent home. */
  lemma OnlyCustomersCheckOut(u: User)
    ensures Guard.View(Some(u), false, Some(CheckoutRoles)) == Guard.Children <==> u.role == Customer
    ensures u.role != Customer ==> Guard.Redirect(Some(u), false, Some(CheckoutRoles)) == Some("/")
  {
  }

  function ToOrderItem(l: CartLine): OrderItemInput {
    OrderItemInput(l.Id(), l.quantity, l.Price())
  }

  /** `cart.map(item => ({ mealId: item.id, quantity: item.quantity, price: item.price }))`. */
  function OrderItems(ls: seq<CartLine>): (r: seq<OrderItemInput>)
    ensures |r| == |ls|
    ensures forall i :: 0 <= i < |ls| ==>
      r[i].mealId == ls[i].Id() && r[i].quantity == ls[i].quantity && r[i].price == ls[i].Price()
  {
    if ls == [] then [] else [ToOrderItem(ls[0])] + OrderItems(ls[1..])
  }

  /** What an order costs at the prices it carries. */
  function ItemsTotal(items: seq<OrderItemInput>): int {
    if items == [] then 0 else items[0].price * items[0].quantity + ItemsTotal(items[1..])
  }

  /** The posted order costs exactly the cart's displayed total. */
  lemma {:induction false} OrderTotalMatchesCart(ls: seq<CartLine>)
    ensures ItemsTotal(OrderItems(ls)) == Cart.TotalPrice(ls)
  {
    if ls != [] {
      OrderTotalMatchesCart(ls[1..]);
      assert OrderItems(ls)[1..] == OrderItems(ls[1..]);
    }
  }

  /** A cart with unique meal ids posts each meal once. */
  lemma OrderItemsUnique(ls: seq<CartLine>)
    requires Cart.UniqueIds(ls)
    ensures forall i, j :: 0 <= i < j < |ls| ==> OrderItems(ls)[i].mealId != OrderItems(ls)[j].mealId
  {
  }

  const CheckoutFailedText: string := "Checkout failed"

  /** The `try` block shared by both order handlers: post, then on success toast,
      clear the cart and go to the success page; on failure toast the reason. */
  method PostOrder<T>(c: Cart.CartStore, outcome: ApiOutcome<T>)
    modifies c, c.browser
    ensures outcome.Ok? ==> (c.lines == []
      && c.browser.storage == old(c.browser.storage)[CartKey := CartToJson([])]
      && c.browser.events == old(c.browser.events)
         + [Request("POST", OrderPath, Http.BearerHeader(old(c.browser.storage))),
            Toast(ToastSuccess, PlacedText), Navigate("/orders/success")])
    ensures !outcome.Ok? ==> (c.lines == old(c.lines)
      && c.browser.storage == Http.StorageAfterError(old(c.browser.storage), Http.ErrorOf(outcome).status, old(c.browser.pathname))
      && c.browser.events == old(c.browser.events)
         + [Request("POST", OrderPath, Http.BearerHeader(old(c.browser.storage)))]
         + Http.ErrorEvents(Http.ErrorOf(outcome).status, old(c.browser.pathname))
         + [Toast(ToastError, Http.MessageOr(outcome, CheckoutFailedText))])
    ensures c.browser.pathname == old(c.browser.pathname)
  {
    Http.Call(c.browser, "POST", OrderPath, outcome);
    if outcome.Ok? {
      c.browser.Emit(Toast(ToastSuccess, PlacedText));
      c.ClearCart();
      c.browser.Emit(Navigate("/orders/success"));
    } else {
      c.browser.Emit(Toast(ToastError, Http.MessageOr(outcome, CheckoutFailedText)));
    }
  }

  class CheckoutPage {
    var address: string
    var isLoading: bool
    const cart: Cart.CartStore

    constructor (c: Cart.CartStore)
      ensures cart == c && address == "" && !isLoading
    {
      cart := c;
      address, isLoading := "", false;
    }

    /** The address field's `onChange`. */
    method SetAddress(a: string)
      modifies this
      ensures address == a && isLoading == old(isLoading)
    {
      address := a;
    }

    /** The `[cart]` effect: an empty cart returns to the menu. */
    method OnCartChange()
      modifies cart.browser
      ensures cart.browser.events == old(cart.browser.events) + (if cart.lines == [] then [Navigate("/meals")] else [])
      ensures cart.browser.storage == old(cart.browser.storage) && cart.browser.pathname == old(cart.browser.pathname)
    {
      if |cart.lines| == 0 {
        cart.browser.Emit(Navigate("/meals"));
      }
    }

    /** `handlePlaceOrder`; `posted` is the request body, when one is sent. */
    method PlaceOrder<T>(user: Option<User>, outcome: ApiOutcome<T>) returns (posted: Option<OrderPayload>)
      modifies this, cart, cart.browser
      ensures address == old(address)
      ensures isLoading == (if posted.Some? then false else old(isLoading))
      ensures posted.Some? <==> user.Some? && Strings.Trim(address) != ""
      ensures user.None? ==> (cart.lines == old(cart.lines)
        && cart.browser.storage == old(cart.browser.storage)
        && cart.browser.events == old(cart.browser.events) + [Toast(ToastError, LoginFirstText), Navigate("/login")])
      ensures user.Some? && Strings.Trim(address) == "" ==> (cart.lines == old(cart.lines)
        && cart.browser.storage == old(cart.browser.storage)
        && cart.browser.events == old(cart.browser.events) + [Toast(ToastError, AddressText)])
      ensures posted.Some? ==> posted.value == OrderPayload(address, "items", OrderItems(old(cart.lines)))
      ensures posted.Some? && outcome.Ok? ==> (cart.lines == []
        && cart.browser.storage == old(cart.browser.storage)[CartKey := CartToJson([])]
        && cart.browser.events == old(cart.browser.events)
           + [Request("POST", OrderPath, Http.BearerHeader(old(cart.browser.storage))),
              Toast(ToastSuccess, PlacedText), Navigate("/orders/success")])
      ensures posted.Some? && !outcome.Ok? ==> (cart.lines == old(cart.lines)
        && cart.browser.storage ==
           Http.StorageAfterError(old(cart.browser.storage), Http.ErrorOf(outcome).status, old(cart.browser.pathname))
        && cart.browser.events == old(cart.browser.events)
           + [Request("POST", OrderPath, Http.BearerHeader(old(cart.browser.storage)))]
           + Http.ErrorEvents(Http.ErrorOf(outcome).status, old(cart.browser.pathname))
           + [Toast(ToastError, Http.MessageOr(outcome, CheckoutFailedText))])
      ensures cart.browser.pathname == old(cart.browser.pathname)
    {
      if user.None? {
        cart.browser.Emit(Toast(ToastError, LoginFirstText));
        cart.browser.Emit(Navigate("/login"));
        return None;
      }
      if Strings.Trim(address) == "" {
        cart.browser.Emit(Toast(ToastError, AddressText));
        return None;
      }
      isLoading := true;
      posted := Some(OrderPayload(address, "items", OrderItems(cart.lines)));
      PostOrder(cart, outcome);
      isLoading := false;
    }

    /** `handlePlaceOrder` followed by the `[cart]` effect that a cleared cart sets
        off: after an accepted order the push to the menu is the last thing
        logged, after the push to the success page. */
    method PlaceOrderAndRerender<T>(user: Option<User>, outcome: ApiOutcome<T>) returns (posted: Option<OrderPayload>)
      modifies this, cart, cart.browser
      ensures posted.Some? && outcome.Ok? ==> cart.lines == []
      ensures posted.Some? && outcome.Ok? ==> (cart.browser.events == old(cart.browser.events)
        + [Request("POST", OrderPath, Http.BearerHeader(old(cart.browser.storage))),
           Toast(ToastSuccess, PlacedText), Navigate("/orders/success")]
        + [Navigate("/meals")])
      ensures cart.browser.pathname == old(cart.browser.pathname)
    {
      posted := PlaceOrder(user, outcome);
      if posted.Some? && outcome.Ok? {
        // the order was posted and accepted: the cart changed, so the effect runs
        OnCartChange();
      }
    }

    /** The `[cart]` effect as it is evidently meant to behave: an emptied cart
        returns to the menu only when it was not emptied by a placed order. */
    method OnCartChangeUnlessPlaced(placed: bool)
      modifies cart.browser
      ensures cart.browser.events == old(cart.browser.events) + (if cart.lines == [] && !placed then [Navigate("/meals")] else [])
      ensures cart.browser.storage == old(cart.browser.storage) && cart.browser.pathname == old(cart.browser.pathname)
    {
      if |cart.lines| == 0 && !placed {
        cart.browser.Emit(Navigate("/meals"));
      }
    }

    /** `handlePlaceOrder` followed by the guarded effect: after an accepted order
        the push to the success page is the last thing logged. */
    method IntendedPlaceOrderAndRerender<T>(user: Option<User>, outcome: ApiOutcome<T>) returns (posted: Option<OrderPayload>)
      modifies this, cart, cart.browser
      ensures posted.Some? && outcome.Ok? ==> cart.lines == []
      ensures posted.Some? && outcome.Ok? ==> (cart.browser.events == old(cart.browser.events)
        + [Request("POST", OrderPath, Http.BearerHeader(old(cart.browser.storage))),
           Toast(ToastSuccess, PlacedText), Navigate("/orders/success")])
      ensures cart.browser.pathname == old(cart.browser.pathname)
    {
      posted := PlaceOrder(user, outcome);
      if posted.Some? && outcome.Ok? {
        // the order was posted and accepted: the cart changed, so the effect runs
        OnCartChangeUnlessPlaced(true);
      }
    }
  }

  /** An address made only of spaces, tabs or line breaks is refused before anything is sent. */
  lemma BlankAddressRefused(address: string)
    requires Strings.IsBlank(address)
    ensures Strings.Trim(address) == ""
  {
    Strings.TrimEmptyIffBlank(address);
  }
}
