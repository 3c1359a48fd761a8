/** The catalogue page: which list it asks the proxy for, its title, the
    page arithmetic, the slice of movies it shows, and the page and filter
    state its buttons change. */
module Catalog {
  import opened Wrappers
  import opened Movies
  import opened SearchFilters

  /** Movies per page of the full catalogue. */
  const PageSize: int := 20
  /** How many movies the popular and recent lists ask for. */
  const FeaturedLimit: int := 50

  /** The list the page fetches, by endpoint. */
  datatype Query =
    | PopularTop(limit: int)        // /api/peliculas/populares/top
    | RecentNew(limit: int)         // /api/peliculas/recientes/nuevas
    | Search(filters: Filters)      // /api/peliculas/buscar
    | Paged(skip: int, limit: int)  // /api/peliculas

  /** The query key: the `filter` search parameter first, then the filter
      record (counted by keys), then the paged list. */
  function ChooseQuery(filterType: Option<string>, filters: Filters, page: int): (q: Query)
    ensures filterType == Some("popular") ==> q == PopularTop(FeaturedLimit)
    ensures filterType == Some("recent") ==> q == RecentNew(FeaturedLimit)
    ensures filterType != Some("popular") && filterType != Some("recent") ==>
      q == if |filters| > 0 then Search(filters) else Paged((page - 1) * PageSize, PageSize)
  {
    if filterType == Some("popular") then PopularTop(FeaturedLimit)
    else if filterType == Some("recent") then RecentNew(FeaturedLimit)
    else if |filters| > 0 then Search(filters)
    else Paged((page - 1) * PageSize, PageSize)
  }

  /** `getPageTitle`. */
  function PageTitle(filterType: Option<string>, filters: Filters): string {
    if filterType == Some("popular") then "Películas Populares"
    else if filterType == Some("recent") then "Recién Agregadas"
    else if |filters| > 0 then "Resultados de Búsqueda"
    else "Catálogo Completo"
  }

  /** The title that belongs to each kind of list. */
  function TitleOf(q: Query): string {
    match q
    case PopularTop(_) => "Películas Populares"
    case RecentNew(_) => "Recién Agregadas"
    case Search(_) => "Resultados de Búsqueda"
    case Paged(_, _) => "Catálogo Completo"
  }

  /** The title always names the list that is fetched: both follow the same
      priority, on every page. */
  lemma TitleMatchesQuery(filterType: Option<string>, filters: Filters, page: int)
    ensures PageTitle(filterType, filters) == TitleOf(ChooseQuery(filterType, filters, page))
  {
  }

  /** The paged list asks for the 20 movies of the current page: the offset
      is a whole number of pages and the page is recovered from it. */
  lemma PagedQueryOffset(page: int)
    requires page >= 1
    ensures var q := ChooseQuery(None, map[], page);
      q.Paged? && q.limit == PageSize && q.skip >= 0 && q.skip % PageSize == 0 && q.skip / PageSize + 1 == page
  {
  }

  /** `Math.ceil(movies.length / 20)`. */
  function TotalPages(count: nat): (r: nat)
    ensures r * PageSize >= count
    ensures r == 0 || (r - 1) * PageSize < count
    ensures r == 0 <==> count == 0
  {
    (count + PageSize - 1) / PageSize
  }

  /** A `filter` parameter counts only when it is a non-empty string. */
  predicate Truthy(filterType: Option<string>) {
    filterType.Some? && filterType.value != ""
  }

  /** `paginatedMovies`: with a `filter` value the whole list, otherwise the
      first 20 movies whatever the page. */
  function ShownMovies(filterType: Option<string>, movies: seq<Movie>): (r: seq<Movie>)
    ensures Truthy(filterType) ==> r == movies
    ensures !Truthy(filterType) ==> |r| == (if |movies| < PageSize then |movies| else PageSize) && r <= movies
  {
    if Truthy(filterType) then movies
    else if |movies| <= PageSize then movies
    else movies[..PageSize]
  }

  /** The slicing as written ignores the page: a search with more than 20
      results offers a second page, yet every page shows the same first 20
      movies and the rest are never shown. */
  lemma ShownMoviesIgnorePage(movies: seq<Movie>)
    requires |movies| > PageSize
    ensures TotalPages(|movies|) > 1
    ensures ShownMovies(None, movies) == movies[..PageSize]
    ensures movies[PageSize..] != [] && |ShownMovies(None, movies)| < |movies|
  {
  }

  /** The evidently intended slice: page p shows movies (p-1)*20 up to p*20. */
  function PageSlice(movies: seq<Movie>, page: int): (r: seq<Movie>)
    requires 1 <= page <= TotalPages(|movies|)
    ensures 0 < |r| <= PageSize && (page - 1) * PageSize + |r| <= |movies|
    ensures r == movies[(page - 1) * PageSize .. (page - 1) * PageSize + |r|]
  {
    var start := (page - 1) * PageSize;
    assert start <= (TotalPages(|movies|) - 1) * PageSize;
    if start + PageSize <= |movies| then movies[start .. start + PageSize] else movies[start..]
  }

  /** With the intended slice every movie is shown, on page i/20 + 1 at
      position i mod 20. */
  lemma {:induction false} PageSliceCoversAll(movies: seq<Movie>, i: int)
    requires 0 <= i < |movies|
    ensures 1 <= i / PageSize + 1 <= TotalPages(|movies|)
    ensures var s := PageSlice(movies, i / PageSize + 1);
      i % PageSize < |s| && s[i % PageSize] == movies[i]
  {
    var p := i / PageSize + 1;
    assert (p - 1) * PageSize == i - i % PageSize;
  }

  /** The pager is there only once the list has loaded, shows movies and
      spans more than one page (`totalPages > 1`). */
  predicate PagerShown(filterType: Option<string>, loading: bool, movies: seq<Movie>) {
    !loading && |ShownMovies(filterType, movies)| > 0 && TotalPages(|movies|) > 1
  }

  /** A list of at most 20 movies is a single page, so no pager is drawn. */
  lemma ShortListHasNoPager(filterType: Option<string>, loading: bool, movies: seq<Movie>)
    requires |movies| <= PageSize
    ensures !PagerShown(filterType, loading, movies)
  {
  }

  /** The upstream's answer to `skip`/`limit`: that window of the catalogue. */
  function ServerPage(catalogue: seq<Movie>, skip: int, limit: int): (r: seq<Movie>)
    requires skip >= 0 && limit >= 0
    ensures |r| <= limit
    ensures skip <= |catalogue| ==> r <= catalogue[skip..]
    ensures skip + limit <= |catalogue| ==> |r| == limit
  {
    var lo := if skip < |catalogue| then skip else |catalogue|;
    var hi := if skip + limit < |catalogue| then skip + limit else |catalogue|;
    catalogue[lo..hi]
  }

  /** The full catalogue as written: the paged query asks for 20 movies, so
      the list that comes back never spans two pages, the pager never shows
      and the page never leaves 1; with more than 20 movies in the
      catalogue, those after the 20th are never reached. */
  lemma PagedCatalogueHasNoPager(catalogue: seq<Movie>, page: int, loading: bool)
    requires page >= 1
    ensures var q := ChooseQuery(None, map[], page);
      q.Paged? && q.limit == PageSize && !PagerShown(None, loading, ServerPage(catalogue, q.skip, q.limit))
  {
    var q := ChooseQuery(None, map[], page);
    ShortListHasNoPager(None, loading, ServerPage(catalogue, q.skip, q.limit));
  }

  /** The evidently intended paging of the full catalogue: ask for one movie
      more than a page holds, show the first 20, and offer "next" when the
      extra one came back. */
  function PeekQuery(page: int): Query
    requires page >= 1
  {
    Paged((page - 1) * PageSize, PageSize + 1)
  }

  predicate PeekHasNext(fetched: seq<Movie>) {
    |fetched| > PageSize
  }

  /** With the peek, "next" is offered on page p exactly when the catalogue
      holds movies beyond page p, and page p shows exactly its own window of
      the catalogue; so every movie is reached by walking forward. */
  lemma {:induction false} PeekPagerReachesEveryPage(catalogue: seq<Movie>, page: int)
    requires page >= 1
    ensures var q := PeekQuery(page); var fetched := ServerPage(catalogue, q.skip, q.limit);
      (PeekHasNext(fetched) <==> page * PageSize < |catalogue|) &&
      ShownMovies(None, fetched) == ServerPage(catalogue, (page - 1) * PageSize, PageSize)
  {
    var q := PeekQuery(page);
    var fetched := ServerPage(catalogue, q.skip, q.limit);
    var shown := ServerPage(catalogue, (page - 1) * PageSize, PageSize);
    if page * PageSize < |catalogue| {
      assert |fetched| == PageSize + 1;
    } else {
      assert |fetched| <= PageSize;
    }
    assert ShownMovies(None, fetched) == shown;
  }

  /** The page's state: the page number, the filter record the panel edits,
      and the `filter` parameter of the current location. */
  class CatalogPage {
    var page: int
    var filters: Filters
    var filterType: Option<string>

    ghost predicate Valid()
      reads this
    {
      page >= 1
    }

    constructor (filterType: Option<string>)
      ensures Valid() && page == 1 && filters == map[] && this.filterType == filterType
    {
      page := 1;
      filters := map[];
      this.filterType := filterType;
    }

    /** The list the page fetches now. */
    function Query(): Query
      reads this
    {
      ChooseQuery(filterType, filters, page)
    }

    function PagerVisible(loading: bool, movies: seq<Movie>): bool
      reads this
    {
      PagerShown(filterType, loading, movies)
    }

    /** `onFiltersChange`: the panel hands over the new record. */
    method ChangeFilters(f: Filters)
      modifies this`filters
      ensures filters == f
    {
      filters := f;
    }

    /** `handleApplyFilters`: back to page 1; the record is left alone. */
    method ApplyFilters()
      modifies this`page
      ensures Valid() && page == 1
      ensures Query().Paged? ==> Query().skip == 0
    {
      page := 1;
    }

    /** `handleResetFilters`: empty record, page 1, and navigation to
        `/catalogo`, which has no `filter` parameter. */
    method ResetFilters()
      modifies this
      ensures Valid() && filters == map[] && page == 1 && filterType == None
      ensures Query() == Paged(0, PageSize)
    {
      filters := map[];
      page := 1;
      filterType := None;
    }

    /** "Anterior": `max(1, p - 1)`, clickable only when the pager is shown
        and `hasPrev` (page > 1). */
    method PreviousPage(loading: bool, movies: seq<Movie>)
      requires Valid()
      modifies this`page
      ensures Valid()
      ensures page == if old(PagerVisible(loading, movies)) && old(page) > 1 then old(page) - 1 else old(page)
    {
      if PagerVisible(loading, movies) && page > 1 {
        page := if page - 1 > 1 then page - 1 else 1;
      }
    }

    /** "Siguiente": `min(totalPages, p + 1)`, clickable only when the pager
        is shown and `hasNext` (page < totalPages), so it never passes the
        last page. */
    method NextPage(loading: bool, movies: seq<Movie>)
      requires Valid()
      modifies this`page
      ensures Valid()
      ensures page == if old(PagerVisible(loading, movies)) && old(page) < TotalPages(|movies|) then old(page) + 1 else old(page)
      ensures old(page) <= TotalPages(|movies|) ==> page <= TotalPages(|movies|)
    {
      var totalPages := TotalPages(|movies|);
      if PagerVisible(loading, movies) && page < totalPages {
        page := if totalPages < page + 1 then totalPages else page + 1;
      }
    }
  }
}
