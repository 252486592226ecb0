/** The provider's review overview (src/app/provider/reviews/page.tsx): the
    provider's meals are fetched, then every meal's reviews at once; the reviews are
    flattened in meal order, each tagged with its meal, and folded into a total, an
    average and a count per star, shown with a percentage. */
module ProviderReviews {
  import opened Types
  import opened Platform
  import Http
  import Seqs

  datatype TaggedReview = TaggedReview(review: Review, meal: Meal)

  datatype Stats = Stats(
    totalReviews: int,
    averageRating: real,
    fiveStars: int,
    fourStars: int,
    threeStars: int,
    twoStars: int,
    oneStars: int)

  /** The initial state of the stats. */
  function InitialStats(): Stats {
    Stats(0, 0.0, 0, 0, 0, 0, 0)
  }

  /** A review fetch that fails is caught and counts as no reviews. */
  function ResponseReviews(o: ApiOutcome<seq<Review>>): (r: seq<Review>)
    ensures o.Ok? ==> r == o.data
    ensures !o.Ok? ==> r == []
  {
    if o.Ok? then o.data else []
  }

  function Tag(rs: seq<Review>, m: Meal): (r: seq<TaggedReview>)
    ensures |r| == |rs|
    ensures forall i :: 0 <= i < |rs| ==> r[i] == TaggedReview(rs[i], m)
  {
    if rs == [] then [] else [TaggedReview(rs[0], m)] + Tag(rs[1..], m)
  }

  /** `responses.flatMap((res, idx) => res.map(review => ({ ...review, meal: meals[idx] })))`. */
  function Flatten(meals: seq<Meal>, responses: seq<seq<Review>>): seq<TaggedReview>
    requires |meals| == |responses|
  {
    if meals == [] then [] else Tag(responses[0], meals[0]) + Flatten(meals[1..], responses[1..])
  }

  function Total(responses: seq<seq<Review>>): nat {
    if responses == [] then 0 else |responses[0]| + Total(responses[1..])
  }

  /** `allReviews.filter(r => r.rating === k).length`. */
  function CountRating(rs: seq<TaggedReview>, k: int): nat {
    |Seqs.Filter(rs, (t: TaggedReview) => t.review.rating == k)|
  }

  function SumRatings(rs: seq<TaggedReview>): int {
    if rs == [] then 0 else rs[0].review.rating + SumRatings(rs[1..])
  }

  /** The stats fold over the flattened reviews. */
  function ComputeStats(rs: seq<TaggedReview>): (s: Stats)
    ensures s.totalReviews == |rs|
    ensures s.fiveStars <= |rs| && s.fourStars <= |rs| && s.threeStars <= |rs| && s.twoStars <= |rs| && s.oneStars <= |rs|
    ensures rs == [] ==> s.averageRating == 0.0
  {
    var total := |rs|;
    Stats(total,
          if total > 0 then SumRatings(rs) as real / total as real else 0.0,
          CountRating(rs, 5), CountRating(rs, 4), CountRating(rs, 3), CountRating(rs, 2), CountRating(rs, 1))
  }

  /** The `"<one..five>Stars"` field a distribution row reads for rating `r`. */
  function StarCount(s: Stats, r: int): int
    requires 1 <= r <= 5
  {
    match r
    case 1 => s.oneStars
    case 2 => s.twoStars
    case 3 => s.threeStars
    case 4 => s.fourStars
    case 5 => s.fiveStars
  }

  /** A distribution row's width: `count / total * 100`, or 0 without reviews. */
  function Percentage(count: int, total: int): (p: real)
    ensures total <= 0 ==> p == 0.0
    ensures 0 <= count <= total ==> 0.0 <= p <= 100.0
  {
    if total > 0 then (count as real / total as real) * 100.0 else 0.0
  }

  // ---- what the overview promises ----

  /** Flattening distributes over appending meal lists with their responses. */
  lemma {:induction false} FlattenAppend(m1: seq<Meal>, r1: seq<seq<Review>>, m2: seq<Meal>, r2: seq<seq<Review>>)
    requires |m1| == |r1| && |m2| == |r2|
    ensures Flatten(m1 + m2, r1 + r2) == Flatten(m1, r1) + Flatten(m2, r2)
  {
    if m1 == [] {
      assert m1 + m2 == m2 && r1 + r2 == r2;
    } else {
      assert (m1 + m2)[1..] == m1[1..] + m2 && (r1 + r2)[1..] == r1[1..] + r2;
      FlattenAppend(m1[1..], r1[1..], m2, r2);
      calc {
        Flatten(m1 + m2, r1 + r2);
        Tag(r1[0], m1[0]) + Flatten(m1[1..] + m2, r1[1..] + r2);
        Tag(r1[0], m1[0]) + (Flatten(m1[1..], r1[1..]) + Flatten(m2, r2));
        Flatten(m1, r1) + Flatten(m2, r2);
      }
    }
  }

  /** The flattened list holds as many reviews as the responses do. */
  lemma {:induction false} FlattenLength(meals: seq<Meal>, responses: seq<seq<Review>>)
    requires |meals| == |responses|
    ensures |Flatten(meals, responses)| == Total(responses)
  {
    if meals != [] {
      FlattenLength(meals[1..], responses[1..]);
    }
  }

  /** Meal `k`'s block sits between the blocks of the meals before it and those after it. */
  lemma FlattenSplit(meals: seq<Meal>, responses: seq<seq<Review>>, k: int)
    requires |meals| == |responses| && 0 <= k < |meals|
    ensures Flatten(meals, responses)
         == Flatten(meals[..k], responses[..k]) + Tag(responses[k], meals[k]) + Flatten(meals[k + 1..], responses[k + 1..])
  {
    assert meals == meals[..k] + meals[k..] && responses == responses[..k] + responses[k..];
    FlattenAppend(meals[..k], responses[..k], meals[k..], responses[k..]);
    assert meals[k..][1..] == meals[k + 1..] && responses[k..][1..] == responses[k + 1..];
    assert Flatten(meals[k..], responses[k..])
        == Tag(responses[k], meals[k]) + Flatten(meals[k + 1..], responses[k + 1..]);
  }

  /** Review `j` of meal `k` sits right after the reviews of the meals before `k`. */
  lemma FlattenAt(meals: seq<Meal>, responses: seq<seq<Review>>, k: int, j: int)
    requires |meals| == |responses| && 0 <= k < |meals| && 0 <= j < |responses[k]|
    ensures |Flatten(meals, responses)| == Total(responses)
    ensures Total(responses[..k]) + |responses[k]| <= Total(responses)
    ensures Flatten(meals, responses)[Total(responses[..k]) + j] == TaggedReview(responses[k][j], meals[k])
  {
    FlattenSplit(meals, responses, k);
    FlattenLength(meals, responses);
    FlattenLength(meals[..k], responses[..k]);
    var before, block := Flatten(meals[..k], responses[..k]), Tag(responses[k], meals[k]);
    var after := Flatten(meals[k + 1..], responses[k + 1..]);
    assert (before + block + after)[|before| + j] == block[j];
  }

  /** The flattened list has every response's reviews, in meal order, each tagged
      with the meal at the same index: meal `k`'s block starts after the reviews of
      the meals before it. */
  lemma FlattenSpec(meals: seq<Meal>, responses: seq<seq<Review>>)
    requires |meals| == |responses|
    ensures |Flatten(meals, responses)| == Total(responses)
    ensures forall k :: 0 <= k < |meals| ==> Total(responses[..k]) + |responses[k]| <= Total(responses)
    ensures forall k, j :: 0 <= k < |meals| && 0 <= j < |responses[k]| ==>
      Flatten(meals, responses)[Total(responses[..k]) + j] == TaggedReview(responses[k][j], meals[k])
  {
    FlattenLength(meals, responses);
    forall k | 0 <= k < |meals|
      ensures Total(responses[..k]) + |responses[k]| <= Total(responses)
    {
      if responses[k] == [] {
        FlattenLength(meals[..k], responses[..k]);
        FlattenSplit(meals, responses, k);
      } else {
        FlattenAt(meals, responses, k, 0);
      }
    }
    forall k, j | 0 <= k < |meals| && 0 <= j < |responses[k]|
      ensures Flatten(meals, responses)[Total(responses[..k]) + j] == TaggedReview(responses[k][j], meals[k])
    {
      FlattenAt(meals, responses, k, j);
    }
  }

  /** A meal whose review call fails contributes nothing: its slot flattens to no reviews. */
  lemma FailedMealContributesNothing(m: Meal, o: ApiOutcome<seq<Review>>)
    requires !o.Ok?
    ensures Tag(ResponseReviews(o), m) == []
  {
  }

  lemma {:induction false} StarCountsSum(rs: seq<TaggedReview>)
    ensures CountRating(rs, 1) + CountRating(rs, 2) + CountRating(rs, 3) + CountRating(rs, 4) + CountRating(rs, 5)
      + |Seqs.Filter(rs, (t: TaggedReview) => !(1 <= t.review.rating <= 5))| == |rs|
  {
    if rs != [] {
      StarCountsSum(rs[1..]);
    }
  }

  /** The five star counts add up to at most the total, and to exactly the total when
      every rating is a whole number of stars from 1 to 5. */
  lemma StarCountsBound(rs: seq<TaggedReview>)
    ensures var s := ComputeStats(rs);
      s.oneStars + s.twoStars + s.threeStars + s.fourStars + s.fiveStars <= s.totalReviews
    ensures (forall i :: 0 <= i < |rs| ==> 1 <= rs[i].review.rating <= 5) ==>
      var s := ComputeStats(rs);
      s.oneStars + s.twoStars + s.threeStars + s.fourStars + s.fiveStars == s.totalReviews
  {
    StarCountsSum(rs);
    var q := (t: TaggedReview) => !(1 <= t.review.rating <= 5);
    if forall i :: 0 <= i < |rs| ==> 1 <= rs[i].review.rating <= 5 {
      NoneOutOfRange(rs, q);
    }
  }

  lemma {:induction false} NoneOutOfRange(rs: seq<TaggedReview>, q: TaggedReview -> bool)
    requires forall i :: 0 <= i < |rs| ==> !q(rs[i])
    ensures Seqs.Filter(rs, q) == []
  {
    if rs != [] {
      NoneOutOfRange(rs[1..], q);
    }
  }

  lemma {:induction false} SumRatingsBounds(rs: seq<TaggedReview>)
    requires forall i :: 0 <= i < |rs| ==> 1 <= rs[i].review.rating <= 5
    ensures |rs| <= SumRatings(rs) <= 5 * |rs|
  {
    if rs != [] {
      SumRatingsBounds(rs[1..]);
    }
  }

  /** With ratings from 1 to 5 the average lies between 1 and 5; without reviews it is 0. */
  lemma AverageBounds(rs: seq<TaggedReview>)
    ensures rs == [] ==> ComputeStats(rs).averageRating == 0.0
    ensures rs != [] && (forall i :: 0 <= i < |rs| ==> 1 <= rs[i].review.rating <= 5) ==>
      1.0 <= ComputeStats(rs).averageRating <= 5.0
  {
    if rs != [] && forall i :: 0 <= i < |rs| ==> 1 <= rs[i].review.rating <= 5 {
      SumRatingsBounds(rs);
      var n := |rs| as real;
      var sum := SumRatings(rs) as real;
      QuotientBounds(sum, n);
    }
  }

  lemma QuotientBounds(sum: real, n: real)
    requires n > 0.0 && n <= sum <= 5.0 * n
    ensures 1.0 <= sum / n <= 5.0
  {
    var q := sum / n;
    assert q * n == sum;
    assert (q - 1.0) * n == sum - n;
    assert (5.0 - q) * n == 5.0 * n - sum;
  }

  /** Each distribution row reads the count of its own rating. */
  lemma StarCountMatches(rs: seq<TaggedReview>, r: int)
    requires 1 <= r <= 5
    ensures StarCount(ComputeStats(rs), r) == CountRating(rs, r)
  {
  }

  // ---- the page ----

  const MealsPath: string := "/provider/meals"

  function ReviewsPath(m: Meal): string {
    "/reviews/meal/" + m.id
  }

  /** The review requests, all issued with the same authorization header. */
  function ReviewRequests(meals: seq<Meal>, auth: Option<string>): (r: seq<Event>)
    ensures |r| == |meals|
    ensures forall k :: 0 <= k < |meals| ==> r[k] == Request("GET", ReviewsPath(meals[k]), auth)
  {
    if meals == [] then [] else ReviewRequests(meals[..|meals| - 1], auth) + [Request("GET", ReviewsPath(meals[|meals| - 1]), auth)]
  }

  /** Storage once the review responses have passed the interceptor in meal order. */
  function StorageAfterAll(storage: map<string, Json.Json>, pathname: string, outcomes: seq<ApiOutcome<seq<Review>>>)
    : map<string, Json.Json>
  {
    if outcomes == [] then storage
    else StorageAfterAll(Http.SettledStorage(storage, pathname, outcomes[0]), pathname, outcomes[1..])
  }

  /** The interceptor's effects for the review responses, in meal order. */
  function EventsAfterAll(pathname: string, outcomes: seq<ApiOutcome<seq<Review>>>): seq<Event> {
    if outcomes == [] then []
    else Http.SettledEvents(pathname, outcomes[0]) + EventsAfterAll(pathname, outcomes[1..])
  }

  function Outcomes(meals: seq<Meal>, reviewsFor: Meal -> ApiOutcome<seq<Review>>): (r: seq<ApiOutcome<seq<Review>>>)
    ensures |r| == |meals|
    ensures forall k :: 0 <= k < |meals| ==> r[k] == reviewsFor(meals[k])
  {
    seq(|meals|, k requires 0 <= k < |meals| => reviewsFor(meals[k]))
  }

  function Responses(meals: seq<Meal>, reviewsFor: Meal -> ApiOutcome<seq<Review>>): (r: seq<seq<Review>>)
    ensures |r| == |meals|
    ensures forall k :: 0 <= k < |meals| ==> r[k] == ResponseReviews(reviewsFor(meals[k]))
  {
    seq(|meals|, k requires 0 <= k < |meals| => ResponseReviews(reviewsFor(meals[k])))
  }

  /** `meals.map(meal => api.get(...))`: every request is issued before any response arrives. */
  method SendReviewRequests(b: Browser, meals: seq<Meal>)
    modifies b
    ensures b.events == old(b.events) + ReviewRequests(meals, Http.BearerHeader(old(b.storage)))
    ensures b.storage == old(b.storage) && b.pathname == old(b.pathname)
  {
    var auth := Http.BearerHeader(b.storage);
    var i := 0;
    while i < |meals|
      invariant 0 <= i <= |meals|
      invariant b.storage == old(b.storage) && b.pathname == old(b.pathname)
      invariant b.events == old(b.events) + ReviewRequests(meals[..i], auth)
    {
      Http.Send(b, "GET", ReviewsPath(meals[i]));
      assert meals[..i + 1][..i] == meals[..i];
      i := i + 1;
    }
    assert meals[..|meals|] == meals;
  }

  /** The responses reaching the interceptor one after the other, in list order. */
  method SettleInOrder(b: Browser, outcomes: seq<ApiOutcome<seq<Review>>>)
    modifies b
    ensures b.storage == StorageAfterAll(old(b.storage), old(b.pathname), outcomes)
    ensures b.events == old(b.events) + EventsAfterAll(old(b.pathname), outcomes)
    ensures b.pathname == old(b.pathname)
    decreases |outcomes|
  {
    if outcomes != [] {
      ghost var e0, se := b.events, Http.SettledEvents(b.pathname, outcomes[0]);
      ghost var rest := EventsAfterAll(b.pathname, outcomes[1..]);
      ghost var s1 := Http.SettledStorage(b.storage, b.pathname, outcomes[0]);
      assert StorageAfterAll(b.storage, b.pathname, outcomes) == StorageAfterAll(s1, b.pathname, outcomes[1..]);
      Http.Settle(b, outcomes[0]);
      SettleInOrder(b, outcomes[1..]);
      assert EventsAfterAll(old(b.pathname), outcomes) == se + rest;
      assert b.events == e0 + se + rest;
      assert e0 + se + rest == e0 + (se + rest);
    }
  }

  /** `Promise.all` over the review calls, each with its `.catch`: the responses pass
      the interceptor in meal order and a failed one yields no reviews. */
  method SettleReviewResponses(b: Browser, meals: seq<Meal>, reviewsFor: Meal -> ApiOutcome<seq<Review>>)
    returns (responses: seq<seq<Review>>)
    modifies b
    ensures responses == Responses(meals, reviewsFor)
    ensures b.storage == StorageAfterAll(old(b.storage), old(b.pathname), Outcomes(meals, reviewsFor))
    ensures b.events == old(b.events) + EventsAfterAll(old(b.pathname), Outcomes(meals, reviewsFor))
    ensures b.pathname == old(b.pathname)
  {
    SettleInOrder(b, Outcomes(meals, reviewsFor));
    responses := Responses(meals, reviewsFor);
  }

  class ProviderReviewsPage {
    var reviews: seq<TaggedReview>
    var loading: bool
    var stats: Stats
    const browser: Browser

    constructor (b: Browser)
      ensures browser == b && reviews == [] && loading && stats == InitialStats()
    {
      browser := b;
      reviews, loading, stats := [], true, InitialStats();
    }

    /** `fetchReviews`: `reviewsFor` gives each meal's review call outcome. */
    method FetchReviews(mealsOutcome: ApiOutcome<seq<Meal>>, reviewsFor: Meal -> ApiOutcome<seq<Review>>)
      modifies this, browser
      ensures !loading
      ensures !mealsOutcome.Ok? ==> (reviews == old(reviews) && stats == old(stats)
        && browser.storage == Http.SettledStorage(old(browser.storage), old(browser.pathname), mealsOutcome)
        && browser.events == old(browser.events)
           + [Request("GET", MealsPath, Http.BearerHeader(old(browser.storage)))]
           + Http.SettledEvents(old(browser.pathname), mealsOutcome)
           + [Toast(ToastError, "Failed to load reviews")])
      ensures mealsOutcome.Ok? ==> (
        var meals := mealsOutcome.data;
        && reviews == Flatten(meals, Responses(meals, reviewsFor))
        && stats == ComputeStats(reviews)
        && browser.storage == StorageAfterAll(old(browser.storage), old(browser.pathname), Outcomes(meals, reviewsFor))
        && browser.events == old(browser.events)
           + [Request("GET", MealsPath, Http.BearerHeader(old(browser.storage)))]
           + ReviewRequests(meals, Http.BearerHeader(old(browser.storage)))
           + EventsAfterAll(old(browser.pathname), Outcomes(meals, reviewsFor)))
      ensures browser.pathname == old(browser.pathname)
    {
      loading := true;
      ghost var e0, s0 := browser.events, browser.storage;
      ghost var call := Request("GET", MealsPath, Http.BearerHeader(s0));
      Http.Call(browser, "GET", MealsPath, mealsOutcome);
      if mealsOutcome.Ok? {
        assert browser.events == e0 + [call] && browser.storage == s0;
        LoadReviews(mealsOutcome.data, reviewsFor);
      } else {
        browser.Emit(Toast(ToastError, "Failed to load reviews"));
      }
      loading := false;
    }

    /** The part of `fetchReviews` after the meal list has arrived: the review calls,
        their responses in meal order, and the reviews and stats they give. */
    method LoadReviews(meals: seq<Meal>, reviewsFor: Meal -> ApiOutcome<seq<Review>>)
      modifies this, browser
      ensures reviews == Flatten(meals, Responses(meals, reviewsFor))
      ensures stats == ComputeStats(reviews) && loading == old(loading)
      ensures browser.storage == StorageAfterAll(old(browser.storage), old(browser.pathname), Outcomes(meals, reviewsFor))
      ensures browser.events == old(browser.events)
        + ReviewRequests(meals, Http.BearerHeader(old(browser.storage)))
        + EventsAfterAll(old(browser.pathname), Outcomes(meals, reviewsFor))
      ensures browser.pathname == old(browser.pathname)
    {
      SendReviewRequests(browser, meals);
      var responses := SettleReviewResponses(browser, meals, reviewsFor);
      reviews := Flatten(meals, responses);
      stats := ComputeStats(reviews);
    }
  }
}
