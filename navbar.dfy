/** The navigation bar's quick search: the live result list and the submit guard. */
module Navbar {

  import opened Seqs
  import opened Text
  import opened Catalog
  import opened Shop

  const MaxQuickResults: nat := 4

  /** `filteredProducts`: no results for an empty query, otherwise the first four matches. */
  function QuickResults(ps: seq<Product>, query: string): (r: seq<Product>)
    ensures |r| <= MaxQuickResults
    ensures query == "" ==> r == []
    ensures forall i :: 0 <= i < |r| ==> MatchesSearch(r[i], query) && r[i] in ps
  {
    if query == "" then [] else Take(BySearch(ps, query), MaxQuickResults)
  }

  /** The results are exactly the first min(4, k) of the k matches, in catalog order. */
  lemma QuickResultsArePrefix(ps: seq<Product>, query: string)
    requires query != ""
    ensures var all := BySearch(ps, query);
      && QuickResults(ps, query) <= all
      && |QuickResults(ps, query)| == if |all| < MaxQuickResults then |all| else MaxQuickResults
  {
  }

  /** A search match is offered as long as fewer than four matches come before it. */
  lemma EarlyMatchOffered(ps: seq<Product>, query: string, k: nat)
    requires query != "" && k < |BySearch(ps, query)| && k < MaxQuickResults
    ensures BySearch(ps, query)[k] in QuickResults(ps, query)
  {
    assert QuickResults(ps, query)[k] == BySearch(ps, query)[k];
  }

  class SearchBox {
    var isSearchOpen: bool
    var searchQuery: string

    constructor ()
      ensures !isSearchOpen && searchQuery == ""
    {
      isSearchOpen := false;
      searchQuery := "";
    }

    /** `handleSearchSubmit`: a query that trims to nothing does nothing; any other closes the box,
        clears the query and returns the (untrimmed) text the shop is navigated with. */
    method Submit() returns (navigateWith: Option<string>)
      modifies this
      ensures navigateWith.None? <==> forall i :: 0 <= i < |old(searchQuery)| ==> IsSpace(old(searchQuery)[i])
      ensures navigateWith.None? ==> isSearchOpen == old(isSearchOpen) && searchQuery == old(searchQuery)
      ensures navigateWith.Some? ==> navigateWith.value == old(searchQuery) && !isSearchOpen && searchQuery == ""
    {
      TrimEmptyIffBlank(searchQuery);
      if Trim(searchQuery) != "" {
        navigateWith := Some(searchQuery);
        isSearchOpen := false;
        searchQuery := "";
      } else {
        navigateWith := None;
      }
    }
  }
}
