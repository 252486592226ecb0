/** The shopping-cart store (src/context/CartContext.tsx): a keyed list of lines
    with add, remove, set-quantity and clear, two folds (item count and price
    total), and persistence under the "cart" storage key.
    The updaters are pure list expressions; the store object replaces its list with
    their results and then runs the save effect. */
module Cart {
  import opened Types
  import opened Json
  import opened Platform
  import Seqs

  // ---- predicates on a list of lines ----

  /** No two lines share a meal id. */
  ghost predicate UniqueIds(ls: seq<CartLine>) {
    forall i, j :: 0 <= i < j < |ls| ==> ls[i].Id() != ls[j].Id()
  }

  /** Every line has quantity at least 1. */
  ghost predicate PositiveQuantities(ls: seq<CartLine>) {
    forall i :: 0 <= i < |ls| ==> ls[i].quantity >= 1
  }

  predicate HasId(ls: seq<CartLine>, id: string) {
    exists i :: 0 <= i < |ls| && ls[i].Id() == id
  }

  // ---- the updaters ----

  /** `prev.find(item => item.id === id)`: the first line with that id. */
  function Find(ls: seq<CartLine>, id: string): (r: Option<CartLine>)
    ensures r.Some? ==> r.value in ls && r.value.Id() == id
    ensures r.None? <==> !HasId(ls, id)
  {
    if ls == [] then None
    else if ls[0].Id() == id then Some(ls[0])
    else
      var r := Find(ls[1..], id);
      assert HasId(ls, id) ==> ls[0].Id() == id || HasId(ls[1..], id) by {
        if HasId(ls, id) {
          var i :| 0 <= i < |ls| && ls[i].Id() == id;
          assert i == 0 || ls[1..][i - 1].Id() == id;
        }
      }
      assert HasId(ls[1..], id) ==> HasId(ls, id) by {
        if HasId(ls[1..], id) {
          var i :| 0 <= i < |ls[1..]| && ls[1..][i].Id() == id;
          assert ls[i + 1].Id() == id;
        }
      }
      r
  }

  /** `find` returns the first line with the id: the one at index `i` when no line
      before it has that id. */
  lemma {:induction false} FindIsFirst(ls: seq<CartLine>, id: string, i: int)
    requires 0 <= i < |ls| && ls[i].Id() == id
    requires forall j :: 0 <= j < i ==> ls[j].Id() != id
    ensures Find(ls, id) == Some(ls[i])
  {
    if i > 0 {
      assert ls[0].Id() != id;
      forall j | 0 <= j < i - 1 ensures ls[1..][j].Id() != id {
        assert ls[1..][j] == ls[j + 1];
      }
      FindIsFirst(ls[1..], id, i - 1);
    }
  }

  /** One line after `addToCart`'s map: a matching line's quantity goes up by one. */
  function Bump(l: CartLine, id: string): CartLine {
    if l.Id() == id then l.(quantity := l.quantity + 1) else l
  }

  function Increment(ls: seq<CartLine>, id: string): (r: seq<CartLine>)
    ensures |r| == |ls|
    ensures forall i :: 0 <= i < |ls| ==> r[i] == Bump(ls[i], id)
  {
    if ls == [] then [] else [Bump(ls[0], id)] + Increment(ls[1..], id)
  }

  /** `addToCart(meal)`'s updater. */
  function AddMeal(ls: seq<CartLine>, meal: Meal): (r: seq<CartLine>)
    ensures PositiveQuantities(ls) ==> PositiveQuantities(r)
  {
    if Find(ls, meal.id).Some? then Increment(ls, meal.id) else ls + [CartLine(meal, 1)]
  }

  /** `removeFromCart(id)`'s updater: keep the lines with a different id. */
  function RemoveMeal(ls: seq<CartLine>, id: string): (r: seq<CartLine>)
    ensures !HasId(r, id)
    ensures |r| <= |ls|
  {
    Seqs.Filter(ls, (l: CartLine) => l.Id() != id)
  }

  function SetLine(l: CartLine, id: string, q: int): CartLine {
    if l.Id() == id then l.(quantity := q) else l
  }

  /** `updateQuantity(id, q)`'s map for `q > 0`. */
  function SetQuantity(ls: seq<CartLine>, id: string, q: int): (r: seq<CartLine>)
    ensures |r| == |ls|
    ensures forall i :: 0 <= i < |ls| ==> r[i] == SetLine(ls[i], id, q)
  {
    if ls == [] then [] else [SetLine(ls[0], id, q)] + SetQuantity(ls[1..], id, q)
  }

  /** `updateQuantity(id, q)`: a quantity of zero or less removes the line. */
  function ChangeQuantity(ls: seq<CartLine>, id: string, q: int): (r: seq<CartLine>)
    ensures UniqueIds(ls) ==> UniqueIds(r)
    ensures PositiveQuantities(ls) ==> PositiveQuantities(r)
  {
    if q <= 0 then
      RemoveKeepsInvariants(ls, id);
      RemoveMeal(ls, id)
    else
      SetKeepsInvariants(ls, id, q);
      SetQuantity(ls, id, q)
  }

  // ---- the folds ----

  /** `cart.reduce((sum, item) => sum + item.quantity, 0)`. */
  function TotalItems(ls: seq<CartLine>): int {
    if ls == [] then 0 else ls[0].quantity + TotalItems(ls[1..])
  }

  /** `cart.reduce((sum, item) => sum + item.price * item.quantity, 0)`. */
  function TotalPrice(ls: seq<CartLine>): int {
    if ls == [] then 0 else ls[0].Price() * ls[0].quantity + TotalPrice(ls[1..])
  }

  /** The quantity held under one id. */
  function QuantityOf(ls: seq<CartLine>, id: string): int {
    TotalItems(Seqs.Filter(ls, (l: CartLine) => l.Id() == id))
  }

  // ---- the store ----

  class CartStore {
    var lines: seq<CartLine>
    const browser: Browser

    /** The persisted entry reads back as the current lines. */
    ghost predicate Persisted()
      reads this, browser
    {
      CartKey in browser.storage && CartFromJson(browser.storage[CartKey]) == Some(lines)
    }

    ghost predicate WellFormed()
      reads this
    {
      UniqueIds(lines) && PositiveQuantities(lines)
    }

    /** `useState<CartItem[]>([])`. */
    constructor (b: Browser)
      ensures browser == b && lines == []
    {
      browser := b;
      lines := [];
    }

    /** The `[cart]` effect: `localStorage.setItem("cart", JSON.stringify(cart))`. */
    method Persist()
      modifies browser
      ensures browser.storage == old(browser.storage)[CartKey := CartToJson(lines)]
      ensures browser.events == old(browser.events) && browser.pathname == old(browser.pathname)
      ensures Persisted()
    {
      browser.SetItem(CartKey, CartToJson(lines));
      CartRoundTrip(lines);
    }

    /** The mount: the load effect (a truthy stored cart replaces the empty list),
        then the save effect, which ends by writing back whatever the list then is. */
    method Mount()
      modifies this, browser
      ensures var stored := if CartKey in old(browser.storage) then Some(old(browser.storage)[CartKey]) else None;
        lines == (if stored.Some? && stored.value != JStr("") && CartFromJson(stored.value).Some?
                  then CartFromJson(stored.value).value else old(lines))
      ensures browser.storage == old(browser.storage)[CartKey := CartToJson(lines)]
      ensures browser.events == old(browser.events) && browser.pathname == old(browser.pathname)
      ensures Persisted()
    {
      if CartKey in browser.storage {
        var storedCart := browser.storage[CartKey];
        if storedCart != JStr("") {
          var parsed := CartFromJson(storedCart);
          if parsed.Some? {
            lines := parsed.value;
          }
        }
      }
      Persist();
    }

    method AddToCart(meal: Meal)
      modifies this, browser
      ensures lines == AddMeal(old(lines), meal)
      ensures browser.storage == old(browser.storage)[CartKey := CartToJson(lines)]
      ensures browser.events == old(browser.events) +
        [if HasId(old(lines), meal.id) then Toast(ToastSuccess, "Increased " + meal.title + " quantity")
         else Toast(ToastSuccess, "Added " + meal.title + " to cart")]
      ensures browser.pathname == old(browser.pathname)
      ensures old(WellFormed()) ==> WellFormed()
    {
      var existing := Find(lines, meal.id);
      if existing.Some? {
        browser.Emit(Toast(ToastSuccess, "Increased " + meal.title + " quantity"));
        lines := Increment(lines, meal.id);
      } else {
        browser.Emit(Toast(ToastSuccess, "Added " + meal.title + " to cart"));
        lines := lines + [CartLine(meal, 1)];
      }
      if old(WellFormed()) {
        AddKeepsUnique(old(lines), meal);
      }
      Persist();
    }

    method RemoveFromCart(mealId: string)
      modifies this, browser
      ensures lines == RemoveMeal(old(lines), mealId)
      ensures browser.storage == old(browser.storage)[CartKey := CartToJson(lines)]
      ensures browser.events == old(browser.events) + [Toast(ToastError, "Removed from cart")]
      ensures browser.pathname == old(browser.pathname)
      ensures old(WellFormed()) ==> WellFormed()
    {
      lines := RemoveMeal(lines, mealId);
      browser.Emit(Toast(ToastError, "Removed from cart"));
      RemoveKeepsInvariants(old(lines), mealId);
      Persist();
    }

    method UpdateQuantity(mealId: string, quantity: int)
      modifies this, browser
      ensures lines == ChangeQuantity(old(lines), mealId, quantity)
      ensures browser.storage == old(browser.storage)[CartKey := CartToJson(lines)]
      ensures browser.events == old(browser.events) +
        (if quantity <= 0 then [Toast(ToastError, "Removed from cart")] else [])
      ensures browser.pathname == old(browser.pathname)
      ensures old(WellFormed()) ==> WellFormed()
    {
      if quantity <= 0 {
        RemoveFromCart(mealId);
        return;
      }
      lines := SetQuantity(lines, mealId, quantity);
      SetKeepsInvariants(old(lines), mealId, quantity);
      Persist();
    }

    /** `clearCart`: the list is emptied and the key removed; the save effect then
        runs for the new empty list and writes `[]` back under the key. */
    method ClearCart()
      modifies this, browser
      ensures lines == []
      ensures browser.storage == old(browser.storage)[CartKey := CartToJson([])]
      ensures browser.events == old(browser.events) && browser.pathname == old(browser.pathname)
      ensures WellFormed()
    {
      lines := [];
      browser.RemoveItem(CartKey);
      Persist();
    }
  }

  // ---- what the updaters promise ----

  lemma IncrementWithoutId(ls: seq<CartLine>, id: string)
    requires !HasId(ls, id)
    ensures Increment(ls, id) == ls
  {
  }

  /** Adding a meal already in the cart raises only that line's quantity, by one,
      and keeps every line's meal and position. */
  lemma AddExisting(ls: seq<CartLine>, m: Meal)
    requires HasId(ls, m.id)
    ensures var r := AddMeal(ls, m);
      && |r| == |ls|
      && (forall i :: 0 <= i < |ls| ==> r[i].meal == ls[i].meal)
      && (forall i :: 0 <= i < |ls| && ls[i].Id() == m.id ==> r[i].quantity == ls[i].quantity + 1)
      && (forall i :: 0 <= i < |ls| && ls[i].Id() != m.id ==> r[i] == ls[i])
  {
  }

  /** Adding a meal not in the cart appends one line of quantity 1 at the end. */
  lemma AddNew(ls: seq<CartLine>, m: Meal)
    requires !HasId(ls, m.id)
    ensures AddMeal(ls, m) == ls + [CartLine(m, 1)]
  {
  }

  lemma AddKeepsUnique(ls: seq<CartLine>, m: Meal)
    requires UniqueIds(ls)
    ensures UniqueIds(AddMeal(ls, m))
  {
    var r := AddMeal(ls, m);
    if !HasId(ls, m.id) {
      forall i, j | 0 <= i < j < |r| ensures r[i].Id() != r[j].Id() {
        if j == |ls| {
          assert r[j].Id() == m.id && r[i] == ls[i];
        }
      }
    }
  }

  /** `addToCart` called once per meal of a list, in order. */
  function AddAll(ls: seq<CartLine>, meals: seq<Meal>): seq<CartLine>
    decreases |meals|
  {
    if meals == [] then ls else AddAll(AddMeal(ls, meals[0]), meals[1..])
  }

  /** Any sequence of adds keeps the ids unique and the quantities positive. */
  lemma {:induction false} AddAllKeepsInvariants(ls: seq<CartLine>, meals: seq<Meal>)
    requires UniqueIds(ls) && PositiveQuantities(ls)
    ensures UniqueIds(AddAll(ls, meals)) && PositiveQuantities(AddAll(ls, meals))
    decreases |meals|
  {
    if meals != [] {
      AddKeepsUnique(ls, meals[0]);
      AddAllKeepsInvariants(AddMeal(ls, meals[0]), meals[1..]);
    }
  }

  /** `addToCart(m)` called `n` times. */
  function AddTimes(ls: seq<CartLine>, m: Meal, n: nat): seq<CartLine> {
    if n == 0 then ls else AddMeal(AddTimes(ls, m, n - 1), m)
  }

  lemma IncrementLast(ls: seq<CartLine>, l: CartLine, id: string)
    requires !HasId(ls, id)
    ensures Increment(ls + [l], id) == ls + [Bump(l, id)]
  {
  }

  /** Adding a meal whose line is the last one, and the only one with its id,
      raises that line by one. */
  lemma AddToLast(ls: seq<CartLine>, m: Meal, q: int)
    requires !HasId(ls, m.id)
    ensures AddMeal(ls + [CartLine(m, q)], m) == ls + [CartLine(m, q + 1)]
  {
    var prev := ls + [CartLine(m, q)];
    assert prev[|ls|].Id() == m.id;
    assert Find(prev, m.id).Some?;
    assert AddMeal(prev, m) == Increment(prev, m.id);
    IncrementLast(ls, CartLine(m, q), m.id);
    assert Bump(CartLine(m, q), m.id) == CartLine(m, q + 1);
  }

  /** `n` adds of a meal that is not in the cart give exactly one new line, last,
      with quantity `n`; the lines before it are untouched. */
  /** One more add on top of `n - 1` adds. */
  lemma AddTimesStep(ls: seq<CartLine>, m: Meal, n: nat, prev: seq<CartLine>)
    requires n >= 1 && AddTimes(ls, m, n - 1) == prev
    ensures AddTimes(ls, m, n) == AddMeal(prev, m)
  {
  }

  lemma {:induction false} RepeatedAdds(ls: seq<CartLine>, m: Meal, n: nat)
    requires !HasId(ls, m.id) && n >= 1
    ensures AddTimes(ls, m, n) == ls + [CartLine(m, n)]
  {
    if n == 1 {
      AddTimesStep(ls, m, 1, ls);
      AddNew(ls, m);
    } else {
      RepeatedAdds(ls, m, n - 1);
      AddTimesStep(ls, m, n, ls + [CartLine(m, n - 1)]);
      AddToLast(ls, m, n - 1);
    }
  }

  /** After a removal no line has the id, and the other lines stay in order. */
  lemma RemoveSpec(ls: seq<CartLine>, id: string)
    ensures !HasId(RemoveMeal(ls, id), id)
    ensures Seqs.IsSubsequence(RemoveMeal(ls, id), ls)
    ensures forall l :: l in ls && l.Id() != id ==> l in RemoveMeal(ls, id)
  {
    var p := (l: CartLine) => l.Id() != id;
    var r := RemoveMeal(ls, id);
    forall i | 0 <= i < |r| ensures r[i].Id() != id {
      Seqs.FilterMembers(ls, p, r[i]);
    }
    forall l | l in ls && l.Id() != id ensures l in r {
      Seqs.FilterMembers(ls, p, l);
    }
    Seqs.FilterIsSubsequence(ls, p);
  }

  /** Removing an id that is not in the cart changes nothing. */
  lemma RemoveAbsent(ls: seq<CartLine>, id: string)
    requires !HasId(ls, id)
    ensures RemoveMeal(ls, id) == ls
  {
    Seqs.FilterKeepsAll(ls, (l: CartLine) => l.Id() != id);
  }

  /** A quantity of zero or less is the same as removing the line. */
  lemma UpdateNonPositiveRemoves(ls: seq<CartLine>, id: string, q: int)
    requires q <= 0
    ensures ChangeQuantity(ls, id, q) == RemoveMeal(ls, id)
    ensures !HasId(ChangeQuantity(ls, id, q), id)
  {
    RemoveSpec(ls, id);
  }

  /** A positive quantity is set exactly on the matching line; nothing else changes,
      and an absent id leaves the cart as it was. */
  lemma UpdatePositiveSets(ls: seq<CartLine>, id: string, q: int)
    requires q > 0
    ensures var r := ChangeQuantity(ls, id, q);
      && |r| == |ls|
      && (forall i :: 0 <= i < |ls| && ls[i].Id() == id ==> r[i] == ls[i].(quantity := q))
      && (forall i :: 0 <= i < |ls| && ls[i].Id() != id ==> r[i] == ls[i])
      && (!HasId(ls, id) ==> r == ls)
  {
  }

  lemma RemoveKeepsInvariants(ls: seq<CartLine>, id: string)
    ensures UniqueIds(ls) ==> UniqueIds(RemoveMeal(ls, id))
    ensures PositiveQuantities(ls) ==> PositiveQuantities(RemoveMeal(ls, id))
  {
    var p := (l: CartLine) => l.Id() != id;
    var r := RemoveMeal(ls, id);
    Seqs.FilterIsSubsequence(ls, p);
    forall i | 0 <= i < |r| ensures r[i] in ls {
      Seqs.FilterMembers(ls, p, r[i]);
    }
    if UniqueIds(ls) {
      SubsequenceKeepsUnique(r, ls);
    }
  }

  lemma {:induction false} SubsequenceKeepsUnique(r: seq<CartLine>, s: seq<CartLine>)
    requires UniqueIds(s) && Seqs.IsSubsequence(r, s)
    ensures UniqueIds(r)
    decreases |s|
  {
    if r != [] {
      if r[0] == s[0] && Seqs.IsSubsequence(r[1..], s[1..]) {
        SubsequenceKeepsUnique(r[1..], s[1..]);
        SubsequenceMembers(r[1..], s[1..]);
        forall j | 0 < j < |r| ensures r[0].Id() != r[j].Id() {
          assert r[1..][j - 1] in s[1..];
          var k :| 0 <= k < |s[1..]| && s[1..][k] == r[j];
          assert s[k + 1] == r[j];
        }
      } else {
        SubsequenceKeepsUnique(r, s[1..]);
      }
    }
  }

  lemma {:induction false} SubsequenceMembers<T>(r: seq<T>, s: seq<T>)
    requires Seqs.IsSubsequence(r, s)
    ensures forall i :: 0 <= i < |r| ==> r[i] in s
    decreases |s|
  {
    if r != [] {
      if r[0] == s[0] && Seqs.IsSubsequence(r[1..], s[1..]) {
        SubsequenceMembers(r[1..], s[1..]);
        forall i | 0 < i < |r| ensures r[i] in s {
          assert r[1..][i - 1] in s[1..];
        }
      } else {
        SubsequenceMembers(r, s[1..]);
      }
    }
  }

  lemma SetKeepsInvariants(ls: seq<CartLine>, id: string, q: int)
    requires q > 0
    ensures UniqueIds(ls) ==> UniqueIds(SetQuantity(ls, id, q))
    ensures PositiveQuantities(ls) ==> PositiveQuantities(SetQuantity(ls, id, q))
  {
  }

  // ---- what the folds promise ----

  /** Both totals of an empty cart are zero. */
  lemma EmptyTotals()
    ensures TotalItems([]) == 0 && TotalPrice([]) == 0
  {
  }

  lemma {:induction false} TotalsAppend(a: seq<CartLine>, b: seq<CartLine>)
    ensures TotalItems(a + b) == TotalItems(a) + TotalItems(b)
    ensures TotalPrice(a + b) == TotalPrice(a) + TotalPrice(b)
  {
    if a == [] {
      assert a + b == b;
    } else {
      TotalsAppend(a[1..], b);
      assert (a + b)[1..] == a[1..] + b;
    }
  }

  /** A list has an id exactly when its first line or its tail does. */
  lemma HasIdCons(ls: seq<CartLine>, id: string)
    requires ls != []
    ensures HasId(ls, id) <==> ls[0].Id() == id || HasId(ls[1..], id)
  {
    if HasId(ls, id) {
      var i :| 0 <= i < |ls| && ls[i].Id() == id;
      assert i == 0 || ls[1..][i - 1].Id() == id;
    }
    if HasId(ls[1..], id) {
      var i :| 0 <= i < |ls[1..]| && ls[1..][i].Id() == id;
      assert ls[i + 1].Id() == id;
    }
  }

  /** With unique ids the first line's id is not in the tail. */
  lemma UniqueHead(ls: seq<CartLine>)
    requires ls != [] && UniqueIds(ls)
    ensures !HasId(ls[1..], ls[0].Id()) && UniqueIds(ls[1..])
  {
    forall i | 0 <= i < |ls[1..]| ensures ls[1..][i].Id() != ls[0].Id() {
      assert ls[i + 1].Id() != ls[0].Id();
    }
  }

  /** Incrementing adds one item and one unit price of the matching line to the
      totals; a list without the id keeps both totals. */
  lemma {:induction false} IncrementTotals(ls: seq<CartLine>, id: string)
    requires UniqueIds(ls)
    ensures var r := Increment(ls, id);
      && TotalItems(r) == TotalItems(ls) + (if HasId(ls, id) then 1 else 0)
      && TotalPrice(r) == TotalPrice(ls) + (if HasId(ls, id) then Find(ls, id).value.Price() else 0)
  {
    if ls != [] {
      UniqueHead(ls);
      HasIdCons(ls, id);
      IncrementTotals(ls[1..], id);
      var r := Increment(ls, id);
      assert r[1..] == Increment(ls[1..], id);
    }
  }

  /** Each add raises the item count by one and the price total by that line's price. */
  lemma AddTotals(ls: seq<CartLine>, m: Meal)
    requires UniqueIds(ls)
    ensures TotalItems(AddMeal(ls, m)) == TotalItems(ls) + 1
    ensures TotalPrice(AddMeal(ls, m)) ==
      TotalPrice(ls) + (if HasId(ls, m.id) then Find(ls, m.id).value.Price() else m.price)
  {
    if HasId(ls, m.id) {
      assert AddMeal(ls, m) == Increment(ls, m.id);
      IncrementTotals(ls, m.id);
    } else {
      assert AddMeal(ls, m) == ls + [CartLine(m, 1)];
      TotalsAppend(ls, [CartLine(m, 1)]);
    }
  }

  /** Removing an id subtracts exactly the quantity held under it. */
  lemma {:induction false} RemoveTotals(ls: seq<CartLine>, id: string)
    ensures TotalItems(RemoveMeal(ls, id)) == TotalItems(ls) - QuantityOf(ls, id)
  {
    if ls != [] {
      RemoveTotals(ls[1..], id);
      var keep := Seqs.Filter(ls[1..], (l: CartLine) => l.Id() != id);
      var drop := Seqs.Filter(ls[1..], (l: CartLine) => l.Id() == id);
      if ls[0].Id() == id {
        assert RemoveMeal(ls, id) == keep;
        assert Seqs.Filter(ls, (l: CartLine) => l.Id() == id) == [ls[0]] + drop;
        assert ([ls[0]] + drop)[1..] == drop;
      } else {
        assert RemoveMeal(ls, id) == [ls[0]] + keep;
        assert ([ls[0]] + keep)[1..] == keep;
        assert Seqs.Filter(ls, (l: CartLine) => l.Id() == id) == drop;
      }
    }
  }

  /** With positive quantities the item count is at least the number of lines,
      and is positive exactly when the cart is non-empty. */
  lemma {:induction false} TotalItemsBounds(ls: seq<CartLine>)
    requires PositiveQuantities(ls)
    ensures TotalItems(ls) >= |ls|
    ensures TotalItems(ls) > 0 <==> ls != []
  {
    if ls != [] {
      TotalItemsBounds(ls[1..]);
    }
  }

  /** Non-negative prices give a non-negative price total. */
  lemma {:induction false} TotalPriceNonNegative(ls: seq<CartLine>)
    requires PositiveQuantities(ls)
    requires forall i :: 0 <= i < |ls| ==> ls[i].Price() >= 0
    ensures TotalPrice(ls) >= 0
  {
    if ls != [] {
      TotalPriceNonNegative(ls[1..]);
    }
  }

  /** After `clearCart` the stored entry reads back as an empty cart. */
  lemma ClearedCartDecodesEmpty()
    ensures CartFromJson(CartToJson([])) == Some([])
    ensures TotalItems([]) == 0
  {
  }
}
