/** The meal browser's filters (src/app/meals/page.tsx): the search term and the
    selected category start from the URL, a category button toggles the selection
    and rewrites the URL's `categoryId`, and the meal fetch builds its query from
    whichever of the two filters is set. */
module Meals {
  import opened Types
  import opened Platform
  import Http
  import Seqs
  import Strings

  // ---- URLSearchParams ----

  /** One name-value pair of a query string. */
  datatype Param = Param(key: string, value: string)

  predicate HasKey(ps: seq<Param>, k: string) {
    exists i :: 0 <= i < |ps| && ps[i].key == k
  }

  /** `params.get(k)`: the value of the first pair named `k`. */
  function Get(ps: seq<Param>, k: string): (r: Option<string>)
    ensures r.None? <==> !HasKey(ps, k)
  {
    if ps == [] then None
    else if ps[0].key == k then Some(ps[0].value)
    else Get(ps[1..], k)
  }

  /** `params.delete(k)`: every pair named `k` goes, the rest keep their order. */
  function DeleteParam(ps: seq<Param>, k: string): (r: seq<Param>)
    ensures !HasKey(r, k)
    ensures |r| <= |ps|
  {
    Seqs.Filter(ps, (p: Param) => p.key != k)
  }

  /** The first pair named `k` takes the value `v` and the later ones go. */
  function SetFirst(ps: seq<Param>, k: string, v: string): seq<Param>
    requires HasKey(ps, k)
  {
    if ps[0].key == k then [Param(k, v)] + DeleteParam(ps[1..], k)
    else
      assert HasKey(ps[1..], k) by {
        var i :| 0 <= i < |ps| && ps[i].key == k;
        assert ps[1..][i - 1].key == k;
      }
      [ps[0]] + SetFirst(ps[1..], k, v)
  }

  /** `params.set(k, v)` as the URL standard defines it: the first pair named `k`
      is updated in place and the others removed, or the pair is appended. */
  function SetParam(ps: seq<Param>, k: string, v: string): (r: seq<Param>)
    ensures Get(r, k) == Some(v)
  {
    if HasKey(ps, k) then
      SetFirstSpec(ps, k, v);
      SetFirst(ps, k, v)
    else
      AppendAbsent(ps, k, v);
      ps + [Param(k, v)]
  }

  /** `params.toString()`: `key=value` pairs joined by `&`. */
  function Serialize(ps: seq<Param>): (t: string)
    ensures t == "" <==> ps == []
    ensures ps != [] ==> ps[0].key + "=" + ps[0].value <= t
  {
    Strings.Join(seq(|ps|, (i: int) requires 0 <= i < |ps| => ps[i].key + "=" + ps[i].value), "&")
  }

  lemma DeleteTwice(ps: seq<Param>, k: string)
    ensures DeleteParam(DeleteParam(ps, k), k) == DeleteParam(ps, k)
  {
    var p := (q: Param) => q.key != k;
    var s := DeleteParam(ps, k);
    forall i | 0 <= i < |s| ensures p(s[i]) {
      Seqs.FilterMembers(ps, p, s[i]);
    }
    Seqs.FilterKeepsAll(s, p);
  }

  lemma {:induction false} SetFirstSpec(ps: seq<Param>, k: string, v: string)
    requires HasKey(ps, k)
    ensures Get(SetFirst(ps, k, v), k) == Some(v)
    ensures DeleteParam(SetFirst(ps, k, v), k) == DeleteParam(ps, k)
  {
    var p := (q: Param) => q.key != k;
    if ps[0].key == k {
      var rest := DeleteParam(ps[1..], k);
      assert SetFirst(ps, k, v) == [Param(k, v)] + rest;
      assert ([Param(k, v)] + rest)[1..] == rest;
      assert DeleteParam([Param(k, v)] + rest, k) == DeleteParam(rest, k);
      DeleteTwice(ps[1..], k);
      assert DeleteParam(ps, k) == DeleteParam(ps[1..], k);
    } else {
      assert HasKey(ps[1..], k) by {
        var i :| 0 <= i < |ps| && ps[i].key == k;
        assert ps[1..][i - 1].key == k;
      }
      SetFirstSpec(ps[1..], k, v);
      var rest := SetFirst(ps[1..], k, v);
      assert SetFirst(ps, k, v) == [ps[0]] + rest;
      assert ([ps[0]] + rest)[1..] == rest;
    }
  }

  /** After `set`, reading the key gives the new value and every other pair is
      where it was. */
  lemma SetParamSpec(ps: seq<Param>, k: string, v: string)
    ensures Get(SetParam(ps, k, v), k) == Some(v)
    ensures DeleteParam(SetParam(ps, k, v), k) == DeleteParam(ps, k)
  {
    if HasKey(ps, k) {
      SetFirstSpec(ps, k, v);
    } else {
      AppendAbsent(ps, k, v);
    }
  }

  lemma {:induction false} AppendAbsent(ps: seq<Param>, k: string, v: string)
    requires !HasKey(ps, k)
    ensures Get(ps + [Param(k, v)], k) == Some(v)
    ensures DeleteParam(ps + [Param(k, v)], k) == DeleteParam(ps, k)
  {
    Seqs.FilterAppend(ps, [Param(k, v)], (q: Param) => q.key != k);
    assert DeleteParam([Param(k, v)], k) == [];
    if ps != [] {
      forall i | 0 <= i < |ps[1..]| ensures ps[1..][i].key != k {
        assert ps[1..][i] == ps[i + 1];
      }
      AppendAbsent(ps[1..], k, v);
      assert (ps + [Param(k, v)])[1..] == ps[1..] + [Param(k, v)];
    }
  }

  /** After `delete`, the key is gone and every other pair is where it was. */
  lemma DeleteParamSpec(ps: seq<Param>, k: string)
    ensures Get(DeleteParam(ps, k), k).None?
    ensures Seqs.IsSubsequence(DeleteParam(ps, k), ps)
  {
    Seqs.FilterIsSubsequence(ps, (q: Param) => q.key != k);
  }

  /** A `URLSearchParams` object. */
  class SearchParams {
    var entries: seq<Param>

    /** `new URLSearchParams(...)` over already parsed pairs. */
    constructor (ps: seq<Param>)
      ensures entries == ps
    {
      entries := ps;
    }

    method Append(k: string, v: string)
      modifies this
      ensures entries == old(entries) + [Param(k, v)]
    {
      entries := entries + [Param(k, v)];
    }

    method Set(k: string, v: string)
      modifies this
      ensures entries == SetParam(old(entries), k, v)
    {
      entries := SetParam(entries, k, v);
    }

    method Delete(k: string)
      modifies this
      ensures entries == DeleteParam(old(entries), k)
    {
      entries := DeleteParam(entries, k);
    }
  }

  // ---- the page's filters ----

  /** `searchParams.get(k) || ""`: a missing or empty parameter gives "". */
  function InitialValue(ps: seq<Param>, k: string): (r: string)
    ensures !HasKey(ps, k) ==> r == ""
    ensures Get(ps, k).Some? ==> r == Get(ps, k).value
  {
    Get(ps, k).GetOr("")
  }

  /** The pairs the meal fetch sends: `search` when the term is set, then
      `categoryId` when a category is selected. */
  function MealsQuery(term: string, cat: string): (r: seq<Param>)
    ensures Get(r, "search") == (if term != "" then Some(term) else None)
    ensures Get(r, "categoryId") == (if cat != "" then Some(cat) else None)
    ensures |r| == (if term != "" then 1 else 0) + (if cat != "" then 1 else 0)
    ensures term != "" ==> r[0] == Param("search", term)
  {
    (if term != "" then [Param("search", term)] else []) + (if cat != "" then [Param("categoryId", cat)] else [])
  }

  /** Lines 44 to 46: the query is built by appending to an empty parameter list. */
  method BuildMealsQuery(term: string, cat: string) returns (q: seq<Param>)
    ensures q == MealsQuery(term, cat)
  {
    var params := new SearchParams([]);
    if term != "" {
      params.Append("search", term);
    }
    if cat != "" {
      params.Append("categoryId", cat);
    }
    q := params.entries;
  }

  /** `selectedCat === id ? "" : id`. */
  function ToggleTarget(current: string, id: string): (r: string)
    ensures r == "" <==> current == id || id == ""
    ensures r != "" ==> r == id
  {
    if current == id then "" else id
  }

  /** The Clear button, `toggleCategory("")`, always ends with no category. */
  lemma ClearSelects(current: string)
    ensures ToggleTarget(current, "") == ""
  {
  }

  /** Pressing the same category twice ends on that category if it started
      there, and on no category otherwise; so it restores the start exactly when
      the start was that category or none. */
  lemma ToggleTwice(current: string, id: string)
    requires id != ""
    ensures ToggleTarget(ToggleTarget(current, id), id) == (if current == id then id else "")
    ensures ToggleTarget(ToggleTarget(current, id), id) == current <==> current == id || current == ""
  {
  }

  /** The URL rewrite: `categoryId` now reads as the new selection, or is absent
      when there is none, and every other parameter stays where it was. */
  function ToggledParams(ps: seq<Param>, newCat: string): (r: seq<Param>)
    ensures newCat != "" <==> HasKey(r, "categoryId")
  {
    if newCat != "" then SetParam(ps, "categoryId", newCat) else DeleteParam(ps, "categoryId")
  }

  lemma ToggledParamsSpec(ps: seq<Param>, newCat: string)
    ensures Get(ToggledParams(ps, newCat), "categoryId") == (if newCat != "" then Some(newCat) else None)
    ensures DeleteParam(ToggledParams(ps, newCat), "categoryId") == DeleteParam(ps, "categoryId")
  {
    if newCat != "" {
      SetParamSpec(ps, "categoryId", newCat);
    } else {
      DeleteParamSpec(ps, "categoryId");
      DeleteTwice(ps, "categoryId");
    }
  }

  class MealsPage {
    var query: seq<Param>
    var searchTerm: string
    var selectedCat: string
    var meals: seq<Meal>
    var loading: bool
    const browser: Browser

    /** The page opened at `/meals?<query0>`. */
    constructor (b: Browser, query0: seq<Param>)
      ensures browser == b && query == query0 && meals == [] && loading
      ensures searchTerm == InitialValue(query0, "search") && selectedCat == InitialValue(query0, "categoryId")
    {
      browser := b;
      query := query0;
      searchTerm := InitialValue(query0, "search");
      selectedCat := InitialValue(query0, "categoryId");
      meals, loading := [], true;
    }

    /** The search box's `onChange`. */
    method SetSearchTerm(t: string)
      modifies this
      ensures searchTerm == t && selectedCat == old(selectedCat) && query == old(query)
      ensures meals == old(meals) && loading == old(loading)
    {
      searchTerm := t;
    }

    /** `fetchMeals`, run whenever the term or the category changes. */
    method FetchMeals(outcome: ApiOutcome<seq<Meal>>)
      modifies this, browser
      ensures meals == (if outcome.Ok? then outcome.data else old(meals)) && !loading
      ensures searchTerm == old(searchTerm) && selectedCat == old(selectedCat) && query == old(query)
      ensures browser.storage == Http.SettledStorage(old(browser.storage), old(browser.pathname), outcome)
      ensures browser.events == old(browser.events)
        + [Request("GET", "/meals?" + Serialize(MealsQuery(searchTerm, selectedCat)), Http.BearerHeader(old(browser.storage)))]
        + Http.SettledEvents(old(browser.pathname), outcome)
        + (if outcome.Ok? then [] else [Console("Failed to fetch meals")])
      ensures browser.pathname == old(browser.pathname)
    {
      loading := true;
      var q := BuildMealsQuery(searchTerm, selectedCat);
      Http.Call(browser, "GET", "/meals?" + Serialize(q), outcome);
      if outcome.Ok? {
        meals := outcome.data;
      } else {
        browser.Emit(Console("Failed to fetch meals"));
      }
      loading := false;
    }

    /** `toggleCategory(id)`: the new selection, and a push of the rewritten URL,
        which the page then reads its parameters from. */
    method ToggleCategory(id: string)
      modifies this, browser
      ensures selectedCat == ToggleTarget(old(selectedCat), id)
      ensures query == ToggledParams(old(query), selectedCat)
      ensures browser.events == old(browser.events) + [Navigate("/meals?" + Serialize(query))]
      ensures browser.storage == old(browser.storage) && browser.pathname == old(browser.pathname)
      ensures searchTerm == old(searchTerm) && meals == old(meals) && loading == old(loading)
    {
      var newCat := if selectedCat == id then "" else id;
      selectedCat := newCat;
      var params := new SearchParams(query);
      if newCat != "" {
        params.Set("categoryId", newCat);
      } else {
        params.Delete("categoryId");
      }
      query := params.entries;
      browser.Emit(Navigate("/meals?" + Serialize(query)));
    }
  }
}
