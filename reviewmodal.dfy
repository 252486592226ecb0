/** The review dialog (src/components/reviews/ReviewModal.tsx): five star buttons
    that set the rating, a comment of at least three characters, and a post of
    the review that closes the dialog only once it is accepted; plus the file's
    class-name helper `cn`. */
module ReviewModal {
  import opened Types
  import opened Platform
  import Http
  import Strings

  // ---- cn ----

  /** The truthy arguments, in order; `None` stands for `false`, `null` and `undefined`. */
  function Parts(xs: seq<Option<string>>): (r: seq<string>)
    ensures |r| <= |xs|
    ensures forall i :: 0 <= i < |r| ==> r[i] != ""
  {
    if xs == [] then []
    else (if Http.Truthy(xs[0]) then [xs[0].value] else []) + Parts(xs[1..])
  }

  /** `inputs.filter(Boolean).join(" ")`. */
  function Cn(xs: seq<Option<string>>): (c: string)
    ensures Parts(xs) != [] ==> Parts(xs)[0] <= c
    ensures |Parts(xs)| == 1 ==> c == Parts(xs)[0]
  {
    Strings.Join(Parts(xs), " ")
  }

  /** `cn()` and a call whose arguments are all falsy give "", and nothing else does. */
  lemma CnEmptyIff(xs: seq<Option<string>>)
    ensures Cn(xs) == "" <==> Parts(xs) == []
  {
    var ps := Parts(xs);
    if |ps| >= 2 {
      assert Cn(xs) == ps[0] + " " + Strings.Join(ps[1..], " ");
    }
  }

  /** Class names free of spaces come back, in order, when the result is split on spaces. */
  lemma CnSplitsBack(xs: seq<Option<string>>)
    requires Parts(xs) != []
    requires forall i :: 0 <= i < |Parts(xs)| ==> ' ' !in Parts(xs)[i]
    ensures Strings.Split(Cn(xs), ' ') == Parts(xs)
  {
    assert Strings.Separated(Parts(xs), ' ');
    Strings.SplitJoin(Parts(xs), ' ');
  }

  /** The truthy arguments of two runs of arguments are those of each run, in turn. */
  lemma {:induction false} PartsAppend(xs: seq<Option<string>>, ys: seq<Option<string>>)
    ensures Parts(xs + ys) == Parts(xs) + Parts(ys)
  {
    if xs != [] {
      PartsAppend(xs[1..], ys);
      assert (xs + ys)[1..] == xs[1..] + ys;
    } else {
      assert xs + ys == ys;
    }
  }

  /** A falsy argument leaves no trace, not even an extra space. */
  lemma FalsyArgumentsVanish(xs: seq<Option<string>>, ys: seq<Option<string>>)
    ensures Parts(xs + [None] + ys) == Parts(xs + ys)
    ensures Parts(xs + [Some("")] + ys) == Parts(xs + ys)
  {
    PartsAppend(xs, ys);
    PartsAppend(xs + [None], ys);
    PartsAppend(xs, [None]);
    PartsAppend(xs + [Some("")], ys);
    PartsAppend(xs, [Some("")]);
    assert Parts([None]) == [] && Parts([Some("")]) == [];
  }

  // ---- the dialog ----

  /** `reviewSchema`'s comment rule; the form's own `rating` field keeps its default
      of 5 and so always passes. */
  predicate CommentValid(comment: string) {
    |comment| >= 3
  }

  /** The body posted to `/reviews`. */
  datatype ReviewPayload = ReviewPayload(mealId: string, orderId: string, rating: int, comment: string)

  datatype ModalView = Hidden | Open(lit: seq<bool>)

  /** `if (!isOpen) return null`; an open dialog lights the stars up to the rating: star `i + 1` is lit when it is at most the rating. */
  function ViewOf(isOpen: bool, rating: int): (v: ModalView)
    ensures v == Hidden <==> !isOpen
    ensures v.Open? ==> |v.lit| == 5 && forall i :: 0 <= i < 5 ==> (v.lit[i] <==> i + 1 <= rating)
  {
    if !isOpen then Hidden else Open(seq(5, (i: int) => i + 1 <= rating))
  }

  const ReviewPath: string := "/reviews"
  const SubmittedText: string := "Review submitted! Thank you."
  const ReviewFailedText: string := "Failed to submit review"

  class Dialog {
    var rating: int
    var isLoading: bool
    const browser: Browser

    /** The rating is always one of the five stars. */
    predicate Valid()
      reads this
    {
      1 <= rating <= 5
    }

    /** `useState(5)`. */
    constructor (b: Browser)
      ensures browser == b && rating == 5 && !isLoading && Valid()
    {
      browser := b;
      rating, isLoading := 5, false;
    }

    /** The star button at position `i` (0 to 4) calls `setRating(i + 1)`. */
    method ClickStar(i: nat)
      requires i < 5
      modifies this
      ensures rating == i + 1 && Valid() && isLoading == old(isLoading)
    {
      var stars := [1, 2, 3, 4, 5];
      rating := stars[i];
    }

    /** Submitting: a short comment posts nothing; otherwise the star rating (not
        the form's field) is posted, and only an accepted review runs `onSuccess`
        then `onClose`. */
    method Submit<T>(mealId: string, orderId: string, comment: string, outcome: ApiOutcome<T>)
      returns (posted: Option<ReviewPayload>)
      requires Valid()
      modifies this, browser
      ensures Valid() && rating == old(rating)
      ensures posted == (if CommentValid(comment) then Some(ReviewPayload(mealId, orderId, rating, comment)) else None)
      ensures isLoading == (if posted.Some? then false else old(isLoading))
      ensures !CommentValid(comment) ==> browser.storage == old(browser.storage) && browser.events == old(browser.events)
      ensures CommentValid(comment) ==> (browser.storage == Http.SettledStorage(old(browser.storage), old(browser.pathname), outcome)
        && browser.events == old(browser.events)
           + [Request("POST", ReviewPath, Http.BearerHeader(old(browser.storage)))]
           + Http.SettledEvents(old(browser.pathname), outcome)
           + (if outcome.Ok? then [Toast(ToastSuccess, SubmittedText), Callback("onSuccess"), Callback("onClose")]
              else [Toast(ToastError, Http.MessageOr(outcome, ReviewFailedText))]))
      ensures browser.pathname == old(browser.pathname)
    {
      if !CommentValid(comment) {
        return None;
      }
      isLoading := true;
      posted := Some(ReviewPayload(mealId, orderId, rating, comment));
      Http.Call(browser, "POST", ReviewPath, outcome);
      if outcome.Ok? {
        browser.Emit(Toast(ToastSuccess, SubmittedText));
        browser.Emit(Callback("onSuccess"));
        browser.Emit(Callback("onClose"));
      } else {
        browser.Emit(Toast(ToastError, Http.MessageOr(outcome, ReviewFailedText)));
      }
      isLoading := false;
    }
  }
}
