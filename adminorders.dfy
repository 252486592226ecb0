/** The administrator's order list (src/app/admin/orders/page.tsx): a search box
    that matches the order id or the customer's name regardless of case, combined
    with a status selector that includes CANCELLED. */
module AdminOrders {
  import opened Types
  import Seqs
  import Strings

  /** `o.id...includes(term) || o.user?.name...includes(term)`: an order without a
      customer summary can match only through its id. */
  predicate MatchesSearch(o: Order, term: string) {
    Strings.ContainsIgnoringCase(o.id, term)
    || (o.user.Some? && Strings.ContainsIgnoringCase(o.user.value.name, term))
  }

  predicate Shown(o: Order, term: string, f: StatusFilter) {
    MatchesSearch(o, term) && f.Admits(o.status)
  }

  /** `filteredOrders`. */
  function FilterOrders(orders: seq<Order>, term: string, f: StatusFilter): (r: seq<Order>)
    ensures forall i :: 0 <= i < |r| ==> Shown(r[i], term, f)
    ensures |r| <= |orders|
  {
    Seqs.Filter(orders, (o: Order) => Shown(o, term, f))
  }

  /** The selector's options, in order. */
  const StatusOptions: seq<StatusFilter> :=
    [All, Only(Placed), Only(Preparing), Only(Ready), Only(Delivered), Only(Cancelled)]

  /** What "Clear All Filters" resets the search and the selector to. */
  const ClearedTerm: string := ""
  const ClearedFilter: StatusFilter := All

  // ---- what the list promises ----

  /** The list keeps, in their original order, exactly the orders that match the
      search and the selected status. */
  lemma FilterSpec(orders: seq<Order>, term: string, f: StatusFilter)
    ensures forall o :: o in FilterOrders(orders, term, f) <==> o in orders && MatchesSearch(o, term) && f.Admits(o.status)
    ensures Seqs.IsSubsequence(FilterOrders(orders, term, f), orders)
  {
    var p := (o: Order) => Shown(o, term, f);
    forall o ensures o in FilterOrders(orders, term, f) <==> o in orders && Shown(o, term, f) {
      Seqs.FilterMembers(orders, p, o);
    }
    Seqs.FilterIsSubsequence(orders, p);
  }

  /** An empty search term matches every order. */
  lemma EmptyTermMatchesAll(o: Order)
    ensures MatchesSearch(o, "")
  {
    Strings.EmptyTermMatches(o.id);
  }

  /** An order with no customer summary matches exactly when its id does. */
  lemma UserlessMatchesById(o: Order, term: string)
    requires o.user.None?
    ensures MatchesSearch(o, term) <==> Strings.ContainsIgnoringCase(o.id, term)
  {
  }

  /** The search does not depend on the case of the term. */
  lemma SearchIgnoresTermCase(o: Order, term: string)
    ensures MatchesSearch(o, Strings.ToLower(term)) == MatchesSearch(o, term)
  {
    Strings.IgnoresCase(o.id, term);
    if o.user.Some? {
      Strings.IgnoresCase(o.user.value.name, term);
    }
  }

  /** After "Clear All Filters" every order is listed again. */
  lemma ClearedShowsAll(orders: seq<Order>)
    ensures FilterOrders(orders, ClearedTerm, ClearedFilter) == orders
  {
    forall i | 0 <= i < |orders| ensures Shown(orders[i], ClearedTerm, ClearedFilter) {
      EmptyTermMatchesAll(orders[i]);
    }
    Seqs.FilterKeepsAll(orders, (o: Order) => Shown(o, ClearedTerm, ClearedFilter));
  }

  /** With "ALL" selected the list is just the search. */
  lemma AllIsSearchOnly(orders: seq<Order>, term: string)
    ensures FilterOrders(orders, term, All) == Seqs.Filter(orders, (o: Order) => MatchesSearch(o, term))
  {
    Seqs.FilterCongruent(orders, (o: Order) => Shown(o, term, All), (o: Order) => MatchesSearch(o, term));
  }

  /** Here, unlike on the provider board, cancelled orders can be selected on their own. */
  lemma CancelledSelectable()
    ensures Only(Cancelled) in StatusOptions
  {
  }
}
