/** The provider's order board (src/app/provider/orders/page.tsx): orders are
    fetched, shown under a status filter, and moved along the kitchen workflow
    PLACED, PREPARING, READY, DELIVERED, or rejected, by the buttons each status offers. */
module ProviderOrders {
  import opened Types
  import opened Platform
  import Http
  import Seqs

  /** `filter === "ALL" ? orders : orders.filter(o => o.status === filter)`. */
  function FilterOrders(orders: seq<Order>, f: StatusFilter): (r: seq<Order>)
    ensures f.Only? ==> forall i :: 0 <= i < |r| ==> r[i].status == f.status
    ensures |r| <= |orders|
  {
    if f.All? then orders else Seqs.Filter(orders, (o: Order) => o.status == f.status)
  }

  /** The filter buttons, in order; there is none for CANCELLED. */
  const FilterOptions: seq<StatusFilter> := [All, Only(Placed), Only(Preparing), Only(Ready), Only(Delivered)]

  /** The two statuses that show "Archived Flow" and no buttons. */
  predicate Archived(s: OrderStatus) {
    s == Delivered || s == Cancelled
  }

  /** The statuses the buttons of an order in status `s` move it to, in button order. */
  function Actions(s: OrderStatus): (r: seq<OrderStatus>)
    ensures |r| <= 2
    ensures r != [] ==> r[|r| - 1] == Cancelled
  {
    if Archived(s) then []
    else
      (if s == Placed then [Preparing] else [])
      + (if s == Preparing then [Ready] else [])
      + (if s == Ready then [Delivered] else [])
      + [Cancelled]
  }

  /** Position along the forward workflow. */
  function Stage(s: OrderStatus): nat {
    match s
    case Placed => 0
    case Preparing => 1
    case Ready => 2
    case Delivered => 3
    case Cancelled => 4
  }

  // ---- what the board promises ----

  /** "ALL" keeps every order; a status keeps exactly the orders in it, in order. */
  lemma FilterSpec(orders: seq<Order>, f: StatusFilter)
    ensures f.All? ==> FilterOrders(orders, f) == orders
    ensures forall o :: o in FilterOrders(orders, f) <==> o in orders && f.Admits(o.status)
    ensures Seqs.IsSubsequence(FilterOrders(orders, f), orders)
  {
    if f.Only? {
      var p := (o: Order) => o.status == f.status;
      forall o ensures o in FilterOrders(orders, f) <==> o in orders && f.Admits(o.status) {
        Seqs.FilterMembers(orders, p, o);
      }
      Seqs.FilterIsSubsequence(orders, p);
    } else {
      SubsequenceRefl(orders);
    }
  }

  lemma {:induction false} SubsequenceRefl<T>(s: seq<T>)
    ensures Seqs.IsSubsequence(s, s)
  {
    if s != [] {
      SubsequenceRefl(s[1..]);
    }
  }

  /** Cancelled orders are visible only under "ALL". */
  lemma CancelledOnlyUnderAll(orders: seq<Order>, f: StatusFilter, o: Order)
    requires f in FilterOptions && o.status == Cancelled
    ensures o in FilterOrders(orders, f) <==> f == All && o in orders
  {
    FilterSpec(orders, f);
  }

  lemma NoCancelledOption()
    ensures Only(Cancelled) !in FilterOptions
  {
  }

  /** The three forward buttons: PLACED to PREPARING, PREPARING to READY, READY to DELIVERED,
      each beside a Reject button. */
  lemma ForwardButtons()
    ensures Actions(Placed) == [Preparing, Cancelled]
    ensures Actions(Preparing) == [Ready, Cancelled]
    ensures Actions(Ready) == [Delivered, Cancelled]
  {
  }

  /** A status offers buttons exactly when it is not archived, and then one of them rejects. */
  lemma ButtonsIffLive(s: OrderStatus)
    ensures Actions(s) == [] <==> Archived(s)
    ensures Cancelled in Actions(s) <==> !Archived(s)
  {
  }

  /** Every button moves one stage forward or rejects; none goes back or stays. */
  lemma ForwardOnly(s: OrderStatus, t: OrderStatus)
    requires t in Actions(s)
    ensures t == Cancelled || Stage(t) == Stage(s) + 1
    ensures t != s && t != Placed
  {
  }

  // ---- the page ----

  const OrdersPath: string := "/provider/orders"

  class ProviderOrdersPage {
    var orders: seq<Order>
    var loading: bool
    var filter: StatusFilter
    const browser: Browser

    constructor (b: Browser)
      ensures browser == b && orders == [] && loading && filter == All
    {
      browser := b;
      orders, loading, filter := [], true, All;
    }

    /** What the board lists. */
    function Visible(): seq<Order>
      reads this
    {
      FilterOrders(orders, filter)
    }

    /** A filter button's `setFilter(s)`. */
    method SetFilter(f: StatusFilter)
      requires f in FilterOptions
      modifies this
      ensures filter == f && orders == old(orders) && loading == old(loading)
    {
      filter := f;
    }

    /** `fetchOrders`: a success replaces the list, a failure keeps it and toasts. */
    method FetchOrders(outcome: ApiOutcome<seq<Order>>)
      modifies this, browser
      ensures orders == (if outcome.Ok? then outcome.data else old(orders))
      ensures !loading && filter == old(filter)
      ensures browser.storage == Http.SettledStorage(old(browser.storage), old(browser.pathname), outcome)
      ensures browser.events == old(browser.events)
        + [Request("GET", OrdersPath, Http.BearerHeader(old(browser.storage)))]
        + Http.SettledEvents(old(browser.pathname), outcome)
        + (if outcome.Ok? then [] else [Toast(ToastError, "Failed to load your orders")])
      ensures browser.pathname == old(browser.pathname)
    {
      loading := true;
      Http.Send(browser, "GET", OrdersPath);
      Http.Settle(browser, outcome);
      if outcome.Ok? {
        orders := outcome.data;
      } else {
        browser.Emit(Toast(ToastError, "Failed to load your orders"));
      }
      loading := false;
    }

    /** `updateStatus(orderId, status)`: the patch, then on success a toast and a refetch. */
    method UpdateStatus(orderId: string, status: OrderStatus, patch: ApiOutcome<()>, refetch: ApiOutcome<seq<Order>>)
      modifies this, browser
      ensures orders == (if patch.Ok? && refetch.Ok? then refetch.data else old(orders))
      ensures loading == (if patch.Ok? then false else old(loading))
      ensures filter == old(filter)
      ensures var afterPatch := Http.SettledStorage(old(browser.storage), old(browser.pathname), patch);
        && browser.storage == (if patch.Ok? then Http.SettledStorage(afterPatch, old(browser.pathname), refetch) else afterPatch)
        && browser.events == old(browser.events)
           + [Request("PATCH", OrdersPath + "/" + orderId, Http.BearerHeader(old(browser.storage)))]
           + Http.SettledEvents(old(browser.pathname), patch)
           + (if patch.Ok? then
                [Toast(ToastSuccess, "Order is now " + StatusName(status)),
                 Request("GET", OrdersPath, Http.BearerHeader(afterPatch))]
                + Http.SettledEvents(old(browser.pathname), refetch)
                + (if refetch.Ok? then [] else [Toast(ToastError, "Failed to load your orders")])
              else [Toast(ToastError, "Failed to update status")])
      ensures browser.pathname == old(browser.pathname)
    {
      Http.Call(browser, "PATCH", OrdersPath + "/" + orderId, patch);
      if patch.Ok? {
        browser.Emit(Toast(ToastSuccess, "Order is now " + StatusName(status)));
        FetchOrders(refetch);
      } else {
        browser.Emit(Toast(ToastError, "Failed to update status"));
      }
    }
  }
}
