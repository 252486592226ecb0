/** The provider dashboard's figures (src/app/provider/dashboard/page.tsx): the
    number of meals and orders, the mean of the meals' ratings, and the earnings
    from delivered orders, computed once both lists have arrived. */
module ProviderDashboard {
  import opened Types
  import opened Platform
  import Http
  import Seqs

  datatype DashboardStats = DashboardStats(totalMeals: int, totalOrders: int, avgRating: real, earnings: int)

  function InitialStats(): DashboardStats {
    DashboardStats(0, 0, 0.0, 0)
  }

  /** `meals.reduce((acc, m) => acc + (m.averageRating || 0), 0)`. */
  function RatingSum(meals: seq<Meal>): real {
    if meals == [] then 0.0 else meals[0].averageRating.GetOr(0.0) + RatingSum(meals[1..])
  }

  /** `orders.reduce((acc, o) => o.status === 'DELIVERED' ? acc + o.totalAmount : acc, 0)`. */
  function Earnings(orders: seq<Order>): (e: int)
    ensures (forall i :: 0 <= i < |orders| ==> orders[i].status != Delivered) ==> e == 0
  {
    if orders == [] then 0
    else (if orders[0].status == Delivered then orders[0].totalAmount else 0) + Earnings(orders[1..])
  }

  function AmountSum(orders: seq<Order>): int {
    if orders == [] then 0 else orders[0].totalAmount + AmountSum(orders[1..])
  }

  /** The figures `setStats` receives; `meals.length || 1` guards the division. */
  function ComputeStats(meals: seq<Meal>, orders: seq<Order>): (s: DashboardStats)
    ensures s.totalMeals == |meals| && s.totalOrders == |orders|
    ensures meals == [] && orders == [] ==> s == InitialStats()
  {
    DashboardStats(|meals|, |orders|,
                   RatingSum(meals) / (if |meals| == 0 then 1 else |meals|) as real,
                   Earnings(orders))
  }

  /** The figures after the fetch: computed when both calls succeed, else the initial zeros. */
  function StatsAfterFetch(meals: ApiOutcome<seq<Meal>>, orders: ApiOutcome<seq<Order>>): (s: DashboardStats)
    ensures !meals.Ok? || !orders.Ok? ==> s == InitialStats()
    ensures meals.Ok? && orders.Ok? ==> s.totalMeals == |meals.data| && s.totalOrders == |orders.data|
  {
    if meals.Ok? && orders.Ok? then ComputeStats(meals.data, orders.data) else InitialStats()
  }

  // ---- what the figures promise ----

  /** Earnings are the total amount of exactly the delivered orders. */
  lemma {:induction false} EarningsAreDelivered(orders: seq<Order>)
    ensures Earnings(orders) == AmountSum(Seqs.Filter(orders, (o: Order) => o.status == Delivered))
  {
    if orders != [] {
      EarningsAreDelivered(orders[1..]);
      var p := (o: Order) => o.status == Delivered;
      var rest := Seqs.Filter(orders[1..], p);
      if orders[0].status == Delivered {
        assert Seqs.Filter(orders, p) == [orders[0]] + rest;
        assert ([orders[0]] + rest)[1..] == rest;
      } else {
        assert Seqs.Filter(orders, p) == rest;
      }
    }
  }

  /** An order that is not delivered adds nothing to the earnings. */
  lemma {:induction false} UndeliveredAddsNothing(orders: seq<Order>, o: Order)
    requires o.status != Delivered
    ensures Earnings(orders + [o]) == Earnings(orders)
  {
    if orders == [] {
      assert [o][1..] == [];
    } else {
      UndeliveredAddsNothing(orders[1..], o);
      assert (orders + [o])[1..] == orders[1..] + [o];
    }
  }

  /** An empty menu rates 0. */
  lemma EmptyMenuRatesZero(orders: seq<Order>)
    ensures ComputeStats([], orders).avgRating == 0.0
  {
  }

  lemma {:induction false} RatingSumBounds(meals: seq<Meal>)
    requires forall i :: 0 <= i < |meals| ==> 0.0 <= meals[i].averageRating.GetOr(0.0) <= 5.0
    ensures 0.0 <= RatingSum(meals) <= 5.0 * |meals| as real
  {
    if meals != [] {
      RatingSumBounds(meals[1..]);
    }
  }

  /** Ratings from 0 to 5 average to a value from 0 to 5; unrated meals count as 0. */
  lemma AverageBounds(meals: seq<Meal>, orders: seq<Order>)
    requires forall i :: 0 <= i < |meals| ==> 0.0 <= meals[i].averageRating.GetOr(0.0) <= 5.0
    ensures 0.0 <= ComputeStats(meals, orders).avgRating <= 5.0
  {
    RatingSumBounds(meals);
    if meals != [] {
      var n := |meals| as real;
      var q := RatingSum(meals) / n;
      assert q * n == RatingSum(meals);
      assert (5.0 - q) * n == 5.0 * n - RatingSum(meals);
    }
  }

  /** Non-negative amounts give non-negative earnings, never above the sum of all amounts. */
  lemma {:induction false} EarningsBounds(orders: seq<Order>)
    requires forall i :: 0 <= i < |orders| ==> orders[i].totalAmount >= 0
    ensures 0 <= Earnings(orders) <= AmountSum(orders)
  {
    if orders != [] {
      EarningsBounds(orders[1..]);
    }
  }

  // ---- the page ----

  class ProviderDashboardPage {
    var stats: DashboardStats
    const browser: Browser

    constructor (b: Browser)
      ensures browser == b && stats == InitialStats()
    {
      browser := b;
      stats := InitialStats();
    }

    /** `fetchStats`: both requests go out together; a failure of either keeps the
        figures and logs to the console. */
    method FetchStats(meals: ApiOutcome<seq<Meal>>, orders: ApiOutcome<seq<Order>>)
      modifies this, browser
      ensures stats == (if meals.Ok? && orders.Ok? then StatsAfterFetch(meals, orders) else old(stats))
      ensures browser.storage == Http.SettledStorage(
        Http.SettledStorage(old(browser.storage), old(browser.pathname), meals), old(browser.pathname), orders)
      ensures browser.events == old(browser.events)
        + [Request("GET", "/provider/meals", Http.BearerHeader(old(browser.storage))),
           Request("GET", "/provider/orders", Http.BearerHeader(old(browser.storage)))]
        + Http.SettledEvents(old(browser.pathname), meals) + Http.SettledEvents(old(browser.pathname), orders)
        + (if meals.Ok? && orders.Ok? then [] else [Console("Failed to fetch provider stats")])
      ensures browser.pathname == old(browser.pathname)
    {
      ghost var e0, p := browser.events, browser.pathname;
      ghost var sent := [Request("GET", "/provider/meals", Http.BearerHeader(browser.storage)),
                         Request("GET", "/provider/orders", Http.BearerHeader(browser.storage))];
      ghost var settled := Http.SettledEvents(p, meals) + Http.SettledEvents(p, orders);
      Http.Send(browser, "GET", "/provider/meals");
      Http.Send(browser, "GET", "/provider/orders");
      assert browser.events == e0 + sent;
      Http.Settle(browser, meals);
      Http.Settle(browser, orders);
      assert browser.events == e0 + sent + settled;
      if meals.Ok? && orders.Ok? {
        stats := StatsAfterFetch(meals, orders);
      } else {
        browser.Emit(Console("Failed to fetch provider stats"));
      }
    }
  }

  /** On a fresh page any failure leaves the initial zeros. */
  lemma FailureKeepsZeros(meals: ApiOutcome<seq<Meal>>, orders: ApiOutcome<seq<Order>>)
    requires !meals.Ok? || !orders.Ok?
    ensures StatsAfterFetch(meals, orders) == DashboardStats(0, 0, 0.0, 0)
  {
  }
}
