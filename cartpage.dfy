/** The cart page (src/app/cart/page.tsx): per-line minus, plus and remove buttons
    that call the cart store, an "Items (n)" summary, an empty state, and an order
    handler no control is wired to, which differs from the checkout page's in its
    address test and in the key it posts the items under. */
module CartPage {
  import opened Types
  import opened Json
  import opened Platform
  import Http
  import Cart
  import Checkout
  import Strings

  datatype View = EmptyState | LineList(lines: seq<CartLine>)

  /** `cart.length === 0` shows the empty state instead of the list. */
  function ViewOf(ls: seq<CartLine>): (v: View)
    ensures v == EmptyState <==> ls == []
    ensures v.LineList? ==> v.lines == ls
  {
    if |ls| == 0 then EmptyState else LineList(ls)
  }

  /** The "Items (n)" label counts lines, not units. */
  function ItemsLabelCount(ls: seq<CartLine>): nat {
    |ls|
  }

  /** The label never exceeds the unit count, and falls short of it once any line holds
      more than one unit. */
  lemma ItemsLabelVersusUnits(ls: seq<CartLine>)
    requires Cart.PositiveQuantities(ls)
    ensures ItemsLabelCount(ls) <= Cart.TotalItems(ls)
  {
    Cart.TotalItemsBounds(ls);
  }

  /** One line of two units is labelled "Items (1)". */
  lemma ItemsLabelUndercounts(m: Meal)
    ensures ItemsLabelCount([CartLine(m, 2)]) == 1 && Cart.TotalItems([CartLine(m, 2)]) == 2
  {
  }

  /** Minus on a line holding one unit removes the line. */
  lemma MinusAtOneRemoves(ls: seq<CartLine>, i: nat)
    requires i < |ls| && ls[i].quantity == 1
    ensures Cart.ChangeQuantity(ls, ls[i].Id(), ls[i].quantity - 1) == Cart.RemoveMeal(ls, ls[i].Id())
    ensures !Cart.HasId(Cart.ChangeQuantity(ls, ls[i].Id(), ls[i].quantity - 1), ls[i].Id())
  {
    Cart.UpdateNonPositiveRemoves(ls, ls[i].Id(), 0);
  }

  /** With unique ids, plus raises that line by one unit and changes no other line. */
  lemma PlusAddsOne(ls: seq<CartLine>, i: nat)
    requires i < |ls| && Cart.UniqueIds(ls) && Cart.PositiveQuantities(ls)
    ensures var r := Cart.ChangeQuantity(ls, ls[i].Id(), ls[i].quantity + 1);
      && |r| == |ls|
      && r[i] == ls[i].(quantity := ls[i].quantity + 1)
      && (forall j :: 0 <= j < |ls| && j != i ==> r[j] == ls[j])
  {
    Cart.UpdatePositiveSets(ls, ls[i].Id(), ls[i].quantity + 1);
  }

  /** The cart page's address test is `!address`: only the empty string is refused,
      so an address of spaces passes here though the checkout page refuses it. */
  lemma AddressTestsDiffer()
    ensures " " != "" && Strings.Trim(" ") == ""
  {
    assert Strings.IsBlank(" ");
    Strings.TrimEmptyIffBlank(" ");
  }

  class CartPage {
    var address: string
    var isLoading: bool
    const cart: Cart.CartStore

    constructor (c: Cart.CartStore)
      ensures cart == c && address == "" && !isLoading
    {
      cart := c;
      address, isLoading := "", false;
    }

    /** The minus button of the line at `i`: `updateQuantity(item.id, item.quantity - 1)`. */
    method Minus(i: nat)
      requires i < |cart.lines|
      modifies cart, cart.browser
      ensures cart.lines == Cart.ChangeQuantity(old(cart.lines), old(cart.lines[i].Id()), old(cart.lines[i].quantity) - 1)
      ensures cart.browser.storage == old(cart.browser.storage)[CartKey := CartToJson(cart.lines)]
      ensures cart.browser.events == old(cart.browser.events)
        + (if old(cart.lines[i].quantity) <= 1 then [Toast(ToastError, "Removed from cart")] else [])
      ensures cart.browser.pathname == old(cart.browser.pathname)
    {
      var item := cart.lines[i];
      cart.UpdateQuantity(item.Id(), item.quantity - 1);
    }

    /** The plus button of the line at `i`: `updateQuantity(item.id, item.quantity + 1)`. */
    method Plus(i: nat)
      requires i < |cart.lines|
      modifies cart, cart.browser
      ensures cart.lines == Cart.ChangeQuantity(old(cart.lines), old(cart.lines[i].Id()), old(cart.lines[i].quantity) + 1)
      ensures cart.browser.storage == old(cart.browser.storage)[CartKey := CartToJson(cart.lines)]
      ensures cart.browser.events == old(cart.browser.events)
        + (if old(cart.lines[i].quantity) + 1 <= 0 then [Toast(ToastError, "Removed from cart")] else [])
      ensures cart.browser.pathname == old(cart.browser.pathname)
    {
      var item := cart.lines[i];
      cart.UpdateQuantity(item.Id(), item.quantity + 1);
    }

    /** The trash button of the line at `i`: `removeFromCart(item.id)`. */
    method Trash(i: nat)
      requires i < |cart.lines|
      modifies cart, cart.browser
      ensures cart.lines == Cart.RemoveMeal(old(cart.lines), old(cart.lines[i].Id()))
      ensures cart.browser.storage == old(cart.browser.storage)[CartKey := CartToJson(cart.lines)]
      ensures cart.browser.events == old(cart.browser.events) + [Toast(ToastError, "Removed from cart")]
      ensures cart.browser.pathname == old(cart.browser.pathname)
    {
      var item := cart.lines[i];
      cart.RemoveFromCart(item.Id());
    }

    /** `handleCheckout`; `posted` is the request body, when one is sent. */
    method HandleCheckout<T>(user: Option<User>, outcome: ApiOutcome<T>) returns (posted: Option<Checkout.OrderPayload>)
      modifies this, cart, cart.browser
      ensures address == old(address)
      ensures isLoading == (if posted.Some? then false else old(isLoading))
      ensures posted.Some? <==> user.Some? && address != ""
      ensures user.None? ==> (cart.lines == old(cart.lines)
        && cart.browser.storage == old(cart.browser.storage)
        && cart.browser.events == old(cart.browser.events)
           + [Toast(ToastError, Checkout.LoginFirstText), Navigate("/login")])
      ensures user.Some? && address == "" ==> (cart.lines == old(cart.lines)
        && cart.browser.storage == old(cart.browser.storage)
        && cart.browser.events == old(cart.browser.events) + [Toast(ToastError, Checkout.AddressText)])
      ensures posted.Some? ==>
        posted.value == Checkout.OrderPayload(address, "orderItems", Checkout.OrderItems(old(cart.lines)))
      ensures posted.Some? && outcome.Ok? ==> (cart.lines == []
        && cart.browser.storage == old(cart.browser.storage)[CartKey := CartToJson([])]
        && cart.browser.events == old(cart.browser.events)
           + [Request("POST", Checkout.OrderPath, Http.BearerHeader(old(cart.browser.storage))),
              Toast(ToastSuccess, Checkout.PlacedText), Navigate("/orders/success")])
      ensures posted.Some? && !outcome.Ok? ==> (cart.lines == old(cart.lines)
        && cart.browser.storage ==
           Http.StorageAfterError(old(cart.browser.storage), Http.ErrorOf(outcome).status, old(cart.browser.pathname))
        && cart.browser.events == old(cart.browser.events)
           + [Request("POST", Checkout.OrderPath, Http.BearerHeader(old(cart.browser.storage)))]
           + Http.ErrorEvents(Http.ErrorOf(outcome).status, old(cart.browser.pathname))
           + [Toast(ToastError, Http.MessageOr(outcome, Checkout.CheckoutFailedText))])
      ensures cart.browser.pathname == old(cart.browser.pathname)
    {
      if user.None? {
        cart.browser.Emit(Toast(ToastError, Checkout.LoginFirstText));
        cart.browser.Emit(Navigate("/login"));
        return None;
      }
      if address == "" {
        cart.browser.Emit(Toast(ToastError, Checkout.AddressText));
        return None;
      }
      isLoading := true;
      posted := Some(Checkout.OrderPayload(address, "orderItems", Checkout.OrderItems(cart.lines)));
      Checkout.PostOrder(cart, outcome);
      isLoading := false;
    }
  }
}
