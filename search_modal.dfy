/** src/components/modals/SearchModal.tsx: which items the search modal
    lists, when it says nothing was found, and how it closes. Its query and
    open flag live in the app state. */
module SearchModal {
  import opened Domain
  import opened AppContext

  /** How many recent items an empty search lists. */
  const RECENT: nat := 5

  function Min(a: nat, b: nat): nat { if a <= b then a else b }

  /** `displayItems`: the first five items while the query is empty, the
      search results once it is not. */
  function DisplayItems(items: seq<FinancialItem>, query: string): (r: seq<FinancialItem>)
    ensures query == "" ==> |r| == Min(RECENT, |items|) && r == items[..|r|]
    ensures query != "" ==> r == SearchResults(items, query)
  {
    if query != "" then SearchResults(items, query) else items[..Min(RECENT, |items|)]
  }

  /** The "no results" line: only for a non-empty query with nothing to
      list. */
  predicate ShowsNoResults(items: seq<FinancialItem>, query: string) {
    query != "" && |DisplayItems(items, query)| == 0
  }

  /** An empty query never says nothing was found; a non-empty one does
      exactly when no item matches it. */
  lemma NoResultsWhen(items: seq<FinancialItem>, query: string)
    ensures query == "" ==> !ShowsNoResults(items, query)
    ensures query != "" ==>
      (ShowsNoResults(items, query) <==> forall i :: 0 <= i < |items| ==> !Matches(items[i], query))
  {
    if query != "" && !ShowsNoResults(items, query) {
      var r := SearchResults(items, query);
      assert r[0] in items && Matches(r[0], query);
    }
  }

  class SearchModal {
    const app: AppState

    constructor(app: AppState)
      ensures this.app == app
    {
      this.app := app;
    }

    /** What both the backdrop and choosing a result do: close the modal
        and clear the query, and nothing else. */
    method Dismiss()
      modifies app
      ensures app.State() == old(app.State()).(isSearchModalOpen := false, searchQuery := "")
      ensures DisplayItems(app.items, app.searchQuery) == app.items[..Min(RECENT, |app.items|)]
    {
      app.SetSearchModalOpen(false);
      app.SetSearchQuery("");
    }
  }
}
