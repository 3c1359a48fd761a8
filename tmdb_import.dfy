/** The TMDB import page: the ids being imported, the search/popular mode
    with one page counter per mode, and the handlers that change them. */
module TmdbImport {
  import opened Wrappers
  import opened Text

  datatype Mode = Popular | SearchMode

  /** How the import request ended: an ok response, a non-ok response whose
      JSON body may carry a `detail`, or a rejected request (or unreadable
      body) with the message of the thrown error. */
  datatype ImportOutcome = Imported | Rejected(detail: Option<string>) | Failed(message: string)

  /** A movie of the TMDB lists, as far as the page uses it. */
  datatype TmdbMovie = TmdbMovie(id: int, title: string)

  /** The toast the page shows when an import finishes. */
  datatype Toast = Toast(title: string, description: string, destructive: bool)

  const ImportErrorFallback: string := "Error al importar película"

  /** The toast for an import outcome: success names the movie; a non-ok
      response shows `detail`, or the fallback when it is missing or empty;
      a thrown error shows its message. */
  function ImportToast(title: string, outcome: ImportOutcome): (t: Toast)
    ensures t.destructive <==> !outcome.Imported?
    ensures outcome.Rejected? ==>
      t.description == if outcome.detail.Some? && outcome.detail.value != "" then outcome.detail.value else ImportErrorFallback
    ensures outcome.Failed? ==> t.description == outcome.message
    ensures outcome.Imported? ==> t.description == "\"" + title + "\" se ha agregado correctamente"
  {
    match outcome
    case Imported => Toast("¡Película importada!", "\"" + title + "\" se ha agregado correctamente", false)
    case Rejected(detail) =>
      var d := if detail.Some? && detail.value != "" then detail.value else ImportErrorFallback;
      Toast("Error", d, true)
    case Failed(message) => Toast("Error", message, true)
  }

  class TmdbImportPage {
    var searchQuery: string
    var mode: Mode
    var importingIds: set<int>
    var popularPage: int
    var searchPage: int

    ghost predicate Valid()
      reads this
    {
      popularPage >= 1 && searchPage >= 1
    }

    /** Popular mode, empty query, no import running, both counters at 1. */
    constructor ()
      ensures Valid()
      ensures searchQuery == "" && mode == Popular && importingIds == {}
      ensures popularPage == 1 && searchPage == 1
    {
      searchQuery := "";
      mode := Popular;
      importingIds := {};
      popularPage, searchPage := 1, 1;
    }

    /** The page counter of the current mode. */
    function CurrentPage(): int
      reads this
    {
      if mode == SearchMode then searchPage else popularPage
    }

    /** The results shown: those of the current mode's query. */
    function ShownMovies(popularMovies: Option<seq<TmdbMovie>>, searchResults: Option<seq<TmdbMovie>>): Option<seq<TmdbMovie>>
      reads this
    {
      if mode == SearchMode then searchResults else popularMovies
    }

    /** The popular list is fetched only in popular mode; the search only in
        search mode and with a non-empty query. */
    function PopularQueryEnabled(): bool
      reads this
    {
      mode == Popular
    }

    function SearchQueryEnabled(): bool
      reads this
    {
      mode == SearchMode && |searchQuery| > 0
    }

    /** An import button is disabled while its id is being imported. */
    function ImportDisabled(id: int): bool
      reads this
    {
      id in importingIds
    }

    /** The search box's `onChange`. */
    method TypeQuery(q: string)
      requires Valid()
      modifies this`searchQuery
      ensures Valid() && searchQuery == q
    {
      searchQuery := q;
    }

    /** The start of `handleImport`: the id joins the set. */
    method BeginImport(tmdbId: int)
      modifies this`importingIds
      ensures importingIds == old(importingIds) + {tmdbId}
      ensures ImportDisabled(tmdbId)
      ensures forall x :: x != tmdbId ==> ImportDisabled(x) == old(ImportDisabled(x))
    {
      importingIds := importingIds + {tmdbId};
    }

    /** The end of `handleImport` (its `finally`): whatever the outcome, the
        id leaves the set and no other id does; the toast reports the outcome. */
    method FinishImport(tmdbId: int, title: string, outcome: ImportOutcome) returns (toast: Toast)
      modifies this`importingIds
      ensures importingIds == old(importingIds) - {tmdbId}
      ensures !ImportDisabled(tmdbId)
      ensures forall x :: x != tmdbId ==> ImportDisabled(x) == old(ImportDisabled(x))
      ensures toast == ImportToast(title, outcome)
    {
      toast := ImportToast(title, outcome);
      importingIds := importingIds - {tmdbId};
    }

    /** `handleSearch`: a query that is blank after trimming changes nothing;
        otherwise search mode on its first page. */
    method SubmitSearch()
      requires Valid()
      modifies this`mode, this`searchPage
      ensures Valid()
      ensures Blank(old(searchQuery)) ==> mode == old(mode) && searchPage == old(searchPage)
      ensures !Blank(old(searchQuery)) ==> mode == SearchMode && searchPage == 1
      ensures !Blank(old(searchQuery)) ==> SearchQueryEnabled() && !PopularQueryEnabled()
      ensures !Blank(old(searchQuery)) ==> forall popular, found :: ShownMovies(popular, found) == found
    {
      TrimEmptyIffBlank(searchQuery);
      if Trim(searchQuery) != [] {
        mode := SearchMode;
        searchPage := 1;
      }
    }

    /** "Ver Populares": popular mode, empty query, popular page 1; the
        search counter is kept. */
    method ShowPopular()
      requires Valid()
      modifies this`mode, this`searchQuery, this`popularPage
      ensures Valid()
      ensures mode == Popular && searchQuery == "" && popularPage == 1
      ensures PopularQueryEnabled() && !SearchQueryEnabled()
      ensures forall popular, found :: ShownMovies(popular, found) == popular
    {
      mode := Popular;
      searchQuery := "";
      popularPage := 1;
    }

    /** "Anterior": `max(1, p - 1)` on the current mode's counter. The pager
        is drawn only when the list has loaded and is non-empty, and the
        button is disabled on page 1. */
    method PreviousPage(shownCount: nat, loading: bool)
      requires Valid()
      modifies this`popularPage, this`searchPage
      ensures Valid() && mode == old(mode)
      ensures CurrentPage() == if shownCount == 0 || loading || old(CurrentPage()) == 1 then old(CurrentPage()) else old(CurrentPage()) - 1
      ensures mode == SearchMode ==> popularPage == old(popularPage)
      ensures mode == Popular ==> searchPage == old(searchPage)
    {
      if !(shownCount == 0 || loading) && CurrentPage() != 1 {
        if mode == SearchMode {
          searchPage := if searchPage - 1 > 1 then searchPage - 1 else 1;
        } else {
          popularPage := if popularPage - 1 > 1 then popularPage - 1 else 1;
        }
      }
    }

    /** "Siguiente": one more on the current mode's counter; not drawn, or
        disabled, when no movies are shown and while loading. */
    method NextPage(shownCount: nat, loading: bool)
      requires Valid()
      modifies this`popularPage, this`searchPage
      ensures Valid() && mode == old(mode)
      ensures CurrentPage() == if shownCount == 0 || loading then old(CurrentPage()) else old(CurrentPage()) + 1
      ensures mode == SearchMode ==> popularPage == old(popularPage)
      ensures mode == Popular ==> searchPage == old(searchPage)
    {
      if !(shownCount == 0 || loading) {
        if mode == SearchMode {
          searchPage := searchPage + 1;
        } else {
          popularPage := popularPage + 1;
        }
      }
    }
  }

  /** Two imports overlap; the one that finishes first takes only its own id
      out, and the button of the other stays disabled. */
  method OverlappingImports() returns (stillImporting: set<int>, secondDisabled: bool)
    ensures stillImporting == {20}
    ensures secondDisabled
  {
    var page := new TmdbImportPage();
    page.BeginImport(10);
    page.BeginImport(20);
    var _ := page.FinishImport(10, "A", Rejected(None));
    stillImporting := page.importingIds;
    secondDisabled := page.ImportDisabled(20);
  }

  /** Each mode keeps its own counter: paging through search results and
      going back to popular leaves the search counter where it was, and a
      new search starts again at 1. */
  method CountersPerMode(query: string, blank: string) returns (popularAfter: int, searchBefore: int, searchAfter: int)
    requires !Blank(query) && Blank(blank)
    ensures popularAfter == 1 && searchBefore == 3 && searchAfter == 1
  {
    var page := new TmdbImportPage();
    page.TypeQuery(query);
    page.SubmitSearch();
    assert page.searchPage == 1;
    page.NextPage(20, false);
    page.NextPage(20, false);
    assert page.mode == SearchMode && page.searchPage == 3;
    page.ShowPopular();
    popularAfter := page.CurrentPage();
    searchBefore := page.searchPage;
    page.TypeQuery(blank);
    page.SubmitSearch();
    assert page.mode == Popular && page.searchPage == 3;
    page.TypeQuery(query);
    page.SubmitSearch();
    searchAfter := page.searchPage;
  }

  /** "Siguiente" does not know whether the next page has results: from the
      last non-empty search page it leads to an empty page, where the pager
      is not drawn, so neither button moves the page. It stays there until
      the query or the mode changes: submitting the search again goes back
      to page 1, and so does "Anterior" once a different typed query (which
      the search refetches at once) has results on that page. */
  method NextIntoEmptyPage(query: string, other: string) returns (stuckAt: int, afterNewSearch: int, afterOtherQuery: int)
    requires !Blank(query)
    ensures stuckAt == 2 && afterNewSearch == 1 && afterOtherQuery == 1
  {
    var page := new TmdbImportPage();
    page.TypeQuery(query);
    page.SubmitSearch();
    assert page.mode == SearchMode && page.searchPage == 1;
    page.NextPage(20, false);
    assert page.mode == SearchMode && page.searchPage == 2;
    page.PreviousPage(0, false);
    page.NextPage(0, false);
    stuckAt := page.CurrentPage();
    page.SubmitSearch();
    afterNewSearch := page.CurrentPage();
    assert page.mode == SearchMode && page.searchPage == 1;
    page.NextPage(20, false);
    assert page.mode == SearchMode && page.searchPage == 2;
    page.TypeQuery(other);
    page.PreviousPage(20, false);
    afterOtherQuery := page.CurrentPage();
  }
}
