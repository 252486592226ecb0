/** The public provider directory (src/app/providers/page.tsx): the providers are
    fetched once and filtered by a search over the shop name or the cuisine. */
module Providers {
  import opened Types
  import opened Platform
  import Http
  import Seqs
  import Strings

  /** `p.shopName...includes(term) || p.cuisine?...includes(term)`. */
  predicate MatchesSearch(p: ProviderProfile, term: string) {
    Strings.ContainsIgnoringCase(p.shopName, term)
    || (p.cuisine.Some? && Strings.ContainsIgnoringCase(p.cuisine.value, term))
  }

  /** `filteredProviders`. */
  function FilterProviders(ps: seq<ProviderProfile>, term: string): (r: seq<ProviderProfile>)
    ensures forall i :: 0 <= i < |r| ==> MatchesSearch(r[i], term)
    ensures |r| <= |ps|
  {
    Seqs.Filter(ps, (p: ProviderProfile) => MatchesSearch(p, term))
  }

  /** The directory keeps, in order, exactly the matching providers. */
  lemma FilterSpec(ps: seq<ProviderProfile>, term: string)
    ensures forall p :: p in FilterProviders(ps, term) <==> p in ps && MatchesSearch(p, term)
    ensures Seqs.IsSubsequence(FilterProviders(ps, term), ps)
  {
    var m := (p: ProviderProfile) => MatchesSearch(p, term);
    forall p ensures p in FilterProviders(ps, term) <==> p in ps && MatchesSearch(p, term) {
      Seqs.FilterMembers(ps, m, p);
    }
    Seqs.FilterIsSubsequence(ps, m);
  }

  /** A provider without a cuisine matches only through its shop name. */
  lemma NoCuisineMatchesByName(p: ProviderProfile, term: string)
    requires p.cuisine.None?
    ensures MatchesSearch(p, term) <==> Strings.ContainsIgnoringCase(p.shopName, term)
  {
  }

  /** An empty term lists every provider. */
  lemma EmptyTermKeepsAll(ps: seq<ProviderProfile>)
    ensures FilterProviders(ps, "") == ps
  {
    forall i | 0 <= i < |ps| ensures MatchesSearch(ps[i], "") {
      Strings.EmptyTermMatches(ps[i].shopName);
    }
    Seqs.FilterKeepsAll(ps, (p: ProviderProfile) => MatchesSearch(p, ""));
  }

  class ProvidersPage {
    var providers: seq<ProviderProfile>
    var loading: bool
    var searchTerm: string
    const browser: Browser

    constructor (b: Browser)
      ensures browser == b && providers == [] && loading && searchTerm == ""
    {
      browser := b;
      providers, loading, searchTerm := [], true, "";
    }

    function Visible(): seq<ProviderProfile>
      reads this
    {
      FilterProviders(providers, searchTerm)
    }

    /** The search box's `onChange`. */
    method SetSearchTerm(t: string)
      modifies this
      ensures searchTerm == t && providers == old(providers) && loading == old(loading)
    {
      searchTerm := t;
    }

    /** `fetchProviders`: loading ends whatever the outcome. */
    method FetchProviders(outcome: ApiOutcome<seq<ProviderProfile>>)
      modifies this, browser
      ensures providers == (if outcome.Ok? then outcome.data else old(providers))
      ensures !loading && searchTerm == old(searchTerm)
      ensures browser.storage == Http.SettledStorage(old(browser.storage), old(browser.pathname), outcome)
      ensures browser.events == old(browser.events)
        + [Request("GET", "/providers", Http.BearerHeader(old(browser.storage)))]
        + Http.SettledEvents(old(browser.pathname), outcome)
        + (if outcome.Ok? then [] else [Console("Failed to fetch providers")])
      ensures browser.pathname == old(browser.pathname)
    {
      Http.Call(browser, "GET", "/providers", outcome);
      if outcome.Ok? {
        providers := outcome.data;
      } else {
        browser.Emit(Console("Failed to fetch providers"));
      }
      loading := false;
    }
  }
}
