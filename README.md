# peliminiacos: a Dafny model of the client state and the proxy logic

The repository is a movie-catalogue web application: a React client and an
Express proxy that forwards every request to an upstream REST API. This
project models the parts of it that hold logic rather than layout:

- **the favourites controller** (`useFavorites`): the set of favourite movie
  ids of one user, its synchronisation with the fetched favourites list, and
  the optimistic toggle with snapshot rollback (`favorites.dfy`);
- **the catalogue page**: query choice, page title, page arithmetic, the shown
  slice and the page/filter state (`catalog.dfy`);
- **the filter panel**: the filter record, per-field updates, the "has active
  filters" test and the year-range slider (`search_filters.dfy`);
- **the TMDB import page**: the set of ids being imported, search/popular
  mode and the per-mode page counters (`tmdb_import.dfy`);
- **the users page**: avatar initials and the page counter (`users.dfy`);
- **the proxy**: the search route's parameter buffer and URL, the default
  parameters of the list routes, and the status each route answers with for
  each upstream outcome (`routes.dfy`);
- **the favourites page**: total running time and its hours/minutes split
  (`favorites_page.dfy`);
- **the movie detail page**: the view choice, favourite flag, genre badges,
  duration line and related movies (`movie_detail.dfy`).

Shared pieces: `wrappers.dfy` (an `Option` type for `undefined`/`null`),
`text.dfy` (JavaScript's `split`, `join`, `trim`, `toUpperCase` and
`slice(0, n)` over ASCII) and `movies.dfy` (the movie record, the id set of a
list, and JavaScript's truncating `%` used by the hours/minutes split).

Network results enter as parameters: a toggle's remote outcome is a boolean,
an import's outcome is a datatype, an upstream reply is a status plus whether
its body parsed as JSON, a fetched list is an `Option<seq<Movie>>`. The
upstream base URL and the current year are parameters too.

The favourites toggle is split where the hook awaits the network:
`BeginToggle` reads membership, copies the whole set, flips the id and issues
the request; `SettleToggle` writes the copy back on failure and logs.
`Toggle` is the two back to back. Because the pending record carries the
snapshot, overlapping toggles can be played out explicitly, which shows that a
failed toggle also undoes the toggles started after it
(`InterleavedRollbackLosesOtherId`).

A reader of the hook might expect a failed toggle to surface its error to
the caller, and toggles of different ids to be independent. The code does
neither: it catches the error and only logs it, and its rollback restores
the whole snapshot. The model follows the code.

## Model

| member | source | states |
|---|---|---|
| Text.Split | client/src/pages/MovieDetail.tsx:63 | `split` on one character yields one more piece than there are separators, and no piece holds the separator |
| Text.JoinSplit | client/src/pages/Users.tsx:22 | joining the pieces of `split` with the same separator gives back the original string |
| Text.Trim | client/src/pages/TMDBImport.tsx:69 | the result is a contiguous piece of the string with only whitespace before and after it, and it is empty or starts and ends with a non-blank character: `trim()` removes exactly the blank ends |
| Text.TrimEmptyIffBlank | client/src/pages/TMDBImport.tsx:69 | `query.trim()` is falsy exactly when the query consists only of whitespace |
| Text.ToUpper | client/src/pages/Users.tsx:25 | upper-casing maps each character and keeps the length |
| Text.Prefix | client/src/pages/Users.tsx:26 | `slice(0, n)` is a prefix of length min(n, length) |
| Movies.IdsOf | client/src/hooks/useFavorites.ts:16 | an id is in the set exactly when some movie of the list has it |
| Movies.IdsOfCount | client/src/hooks/useFavorites.ts:16 | duplicates collapse: never more ids than movies |
| Movies.IdsOfAppend | client/src/hooks/useFavorites.ts:16 | adding movies whose ids are already present leaves the set unchanged |
| Movies.JsRem | client/src/pages/Favorites.tsx:17 | JavaScript's `%`: with m the absolute value of the divisor, a equals trunc(a/m)·m + r, r lies strictly between -m and m and has the sign of a |
| Movies.HoursMinutesRecombine | client/src/pages/Favorites.tsx:16-17 | for d >= 0, floor(d/60)*60 + d%60 == d, with 0 <= minutes < 60 |
| Movies.HoursMinutesNegative | client/src/pages/MovieDetail.tsx:171 | for a negative duration that is not a whole number of hours the floor and the truncating remainder recombine to an hour less than the duration; whole hours still recombine |
| Favorites.Flip | client/src/hooks/useFavorites.ts:50-64 | the optimistic step changes the membership of the toggled id and of no other id |
| Favorites.DirectionFor | client/src/hooks/useFavorites.ts:46-50 | a toggle removes exactly when the id was a member before the flip |
| Favorites.RequestFor | client/src/hooks/useFavorites.ts:20-43 | a removal sends DELETE, an addition sends POST, for this user and movie |
| Favorites.FlipMember | client/src/hooks/useFavorites.ts:50-55 | toggling a member removes exactly that id |
| Favorites.FlipNonMember | client/src/hooks/useFavorites.ts:63-64 | toggling a non-member adds exactly that id |
| Favorites.FlipTwice | client/src/hooks/useFavorites.ts:45-72 | two successful toggles of one id restore the set, and the second sends the opposite request |
| Favorites.FlipCommutes | client/src/hooks/useFavorites.ts:45-72 | successful toggles of two ids give the same set in either order |
| Favorites.FavoritesController.constructor | client/src/hooks/useFavorites.ts:7 | before any list has loaded the set is empty and nothing is pending |
| Favorites.FavoritesController.Sync | client/src/hooks/useFavorites.ts:14-18 | once a list is fetched the set is exactly its ids, whatever it was before (so syncing twice changes nothing); without a list nothing changes |
| Favorites.FavoritesController.BeginToggle | client/src/hooks/useFavorites.ts:45-67 | the snapshot is the whole set before the flip, the set is flipped at the id, the request follows prior membership, and the mutation object used is pending (`isToggling`) |
| Favorites.FavoritesController.SettleToggle | client/src/hooks/useFavorites.ts:57-71 | success leaves the set alone; failure writes back the whole snapshot and logs, with no error out; the pending flag clears only for the latest call of its mutation |
| Favorites.FavoritesController.Toggle | client/src/hooks/useFavorites.ts:45-80 | an uninterrupted toggle leaves the id flipped on success and the set as it was on failure; no error leaves it; it takes the next call number for the mutation of its direction, and an idle controller is idle again afterwards |
| Favorites.InterleavedRollbackLosesOtherId | client/src/hooks/useFavorites.ts:48-69 | a failed toggle of id 1 also removes id 2 added after it, although the add of 2 succeeded |
| Favorites.OverlappingSuccesses | client/src/hooks/useFavorites.ts:45-72 | two overlapping successful toggles of different ids leave both ids, in either completion order |
| Favorites.SameIdRace | client/src/hooks/useFavorites.ts:45-72 | a second toggle of the same id sends the opposite request; the first one's rollback wins if it fails |
| SearchFilters.InitialYearRangeFallback | client/src/components/SearchFilters.tsx:45-48 | the slider starts at año_min or 1888 and año_max or the current year, missing, `undefined` and 0 all falling back |
| SearchFilters.TypeText | client/src/components/SearchFilters.tsx:87-98 | the title and director fields store the raw string, empty included, change no other field, and make the filters active |
| SearchFilters.SelectOption | client/src/components/SearchFilters.tsx:107-133 | genre and classification store "" as `undefined` and any other value verbatim, the "todos"/"todas" items included |
| SearchFilters.WithYearRange | client/src/components/SearchFilters.tsx:50-57 | a slider move sets año_min and año_max to the two values and keeps every other field |
| SearchFilters.KeysWithoutActiveFilters | client/src/components/SearchFilters.tsx:59-61 | an active filter needs a key, but a key holding `undefined` is not active |
| SearchFilters.SearchFiltersPanel.constructor | client/src/components/SearchFilters.tsx:45-48 | the slider state starts at the initial range |
| SearchFilters.SearchFiltersPanel.HandleYearRangeChange | client/src/components/SearchFilters.tsx:50-57 | the slider shows the two values and the parent receives the record with both bounds set |
| Catalog.ChooseQuery | client/src/pages/Catalog.tsx:27-35 | popular (limit 50), then recent (limit 50), then search when the record has any key, else the paged list with skip (page-1)*20 and limit 20 |
| Catalog.TitleMatchesQuery | client/src/pages/Catalog.tsx:58-63 | the title follows the same priority as the query, on every page |
| Catalog.PagedQueryOffset | client/src/pages/Catalog.tsx:34 | the paged list's offset is a whole number of pages from which the page is recovered |
| Catalog.TotalPages | client/src/pages/Catalog.tsx:52 | the number of pages is ceil(count/20), and 0 exactly when there are no movies |
| Catalog.ShownMovies | client/src/pages/Catalog.tsx:56 | with a non-empty `filter` value the whole list, otherwise the first min(20, count) movies |
| Catalog.ShownMoviesIgnorePage | client/src/pages/Catalog.tsx:56 | with more than 20 results a second page is offered but every page shows the same first 20 |
| Catalog.PageSlice | client/src/pages/Catalog.tsx:56 | the intended slice: a non-empty run of at most 20 movies starting at (page-1)*20 |
| Catalog.PageSliceCoversAll | client/src/pages/Catalog.tsx:56 | with the intended slice every movie appears, on page i/20+1 at position i mod 20 |
| Catalog.ShortListHasNoPager | client/src/pages/Catalog.tsx:52-53 | a list of at most 20 movies is one page, so no pager is drawn |
| Catalog.ServerPage | server/routes.ts:89-92 | the upstream's reply to `skip`/`limit` is at most `limit` movies of the catalogue from `skip` on, exactly `limit` when the catalogue has them |
| Catalog.PagedCatalogueHasNoPager | client/src/pages/Catalog.tsx:34-54 | the full catalogue asks for 20 movies, so no pager is ever drawn and the page never leaves 1 |
| Catalog.PeekPagerReachesEveryPage | client/src/pages/Catalog.tsx:34-56 | with the corrected query "next" is offered on page p exactly when the catalogue holds movies beyond page p, and page p shows exactly its window of the catalogue |
| Catalog.CatalogPage.constructor | client/src/pages/Catalog.tsx:18-19 | the page starts at 1 with an empty filter record |
| Catalog.CatalogPage.ChangeFilters | client/src/pages/Catalog.tsx:77 | the panel's record replaces the page's |
| Catalog.CatalogPage.ApplyFilters | client/src/pages/Catalog.tsx:41-43 | apply goes back to page 1 and leaves the filters alone, so a paged list is fetched from offset 0 |
| Catalog.CatalogPage.ResetFilters | client/src/pages/Catalog.tsx:45-49 | reset empties the record, goes to page 1 and drops the `filter` parameter, so the first page of the full catalogue is fetched |
| Catalog.CatalogPage.PreviousPage | client/src/pages/Catalog.tsx:108-113 | "previous" goes back one page only when the pager is shown and page > 1, never below 1 |
| Catalog.CatalogPage.NextPage | client/src/pages/Catalog.tsx:126-129 | "next" goes forward one page only when the pager is shown and page < totalPages, never past the last page |
| TmdbImport.ImportToast | client/src/pages/TMDBImport.tsx:43-57 | success names the movie; a non-ok reply shows `detail` or the fallback message; a thrown error shows its message |
| TmdbImport.TmdbImportPage.constructor | client/src/pages/TMDBImport.tsx:19-23 | popular mode, empty query, no import in flight, both counters at 1 |
| TmdbImport.TmdbImportPage.TypeQuery | client/src/pages/TMDBImport.tsx:105 | typing replaces the query |
| TmdbImport.TmdbImportPage.BeginImport | client/src/pages/TMDBImport.tsx:36 | the id joins the in-flight set, so its button is disabled (line 178); every other button keeps its state |
| TmdbImport.TmdbImportPage.FinishImport | client/src/pages/TMDBImport.tsx:58-63 | whatever the outcome, the id leaves the set and no other id does: its button is enabled again and every other button keeps its state; the toast follows the outcome |
| TmdbImport.TmdbImportPage.SubmitSearch | client/src/pages/TMDBImport.tsx:67-78 | a blank query changes nothing; otherwise search mode on page 1, with the search query enabled, the popular one disabled and the search results shown |
| TmdbImport.TmdbImportPage.ShowPopular | client/src/pages/TMDBImport.tsx:116-120 | popular mode, empty query, popular page 1, with the popular query enabled, the search disabled and the popular list shown |
| TmdbImport.TmdbImportPage.PreviousPage | client/src/pages/TMDBImport.tsx:137-200 | the current mode's counter goes down by one only when the pager is drawn (loaded, non-empty list) and the page is not 1; the other counter is kept |
| TmdbImport.TmdbImportPage.NextPage | client/src/pages/TMDBImport.tsx:215-216 | the current mode's counter goes up by exactly one unless nothing is shown or loading; the other counter is kept |
| TmdbImport.OverlappingImports | client/src/pages/TMDBImport.tsx:35-64 | a finished import removes only its own id; the other button stays disabled |
| TmdbImport.NextIntoEmptyPage | client/src/pages/TMDBImport.tsx:31-216 | "next" from the last non-empty page leads to an empty page with no pager, where neither button moves the page; it stays there until the query or the mode changes: a repeated search returns to page 1, and so does "previous" once a newly typed query has results on that page |
| TmdbImport.CountersPerMode | client/src/pages/TMDBImport.tsx:67-79 | each mode keeps its own counter; a blank search is ignored and a new search restarts at 1 |
| Users.Initials | client/src/pages/Users.tsx:20-27 | the initials are at most two characters |
| Users.FirstCharsOfSplit | client/src/pages/Users.tsx:22-24 | the first characters of the space-separated pieces are the characters that start a word; empty pieces add nothing |
| Users.InitialsAreWordStarts | client/src/pages/Users.tsx:20-27 | the initials are the first two upper-cased word starts, in order |
| Users.BlankNameHasNoInitials | client/src/pages/Users.tsx:22-24 | an empty or all-space name gives "" |
| Users.UsersPage.constructor | client/src/pages/Users.tsx:13-14 | the page starts at 1, so the first request asks for page 1 of 12 users |
| Users.UsersPage.PreviousPage | client/src/pages/Users.tsx:107-113 | "previous" acts only when the pager is shown and `has_prev`, and never goes below 1 |
| Users.UsersPage.NextPage | client/src/pages/Users.tsx:124-125 | "next" adds 1 only when the pager is shown and `has_next` |
| Routes.KeepTruthy | server/routes.ts:45-51 | every kept parameter is one of the keys, truthy, with its request value |
| Routes.KeepTruthyComplete | server/routes.ts:45-51 | every truthy key is kept |
| Routes.KeepTruthyEmpty | server/routes.ts:53-54 | nothing is kept exactly when no key is truthy |
| Routes.KeepTruthySnoc | server/routes.ts:45-51 | one more key appends that key's parameter after the others, if truthy |
| Routes.SearchKeysUnfold | server/routes.ts:45-51 | the search keeps titulo, director, genero, año, año_min, año_max, clasificacion in that order |
| Routes.BuildSearchParams | server/routes.ts:43-51 | the buffer built by the seven conditional appends holds exactly the truthy search parameters, in the fixed order |
| Routes.SearchUrlShape | server/routes.ts:53-54 | the upstream URL is the bare path exactly when nothing was kept, and path `?` query otherwise |
| Routes.TopLimitDefault | server/routes.ts:9-26 | popular and recent forward `limit`, 10 when missing or empty |
| Routes.MovieListDefaults | server/routes.ts:91-92 | the movie list forwards `skip` 0 and `limit` 100 by default |
| Routes.UserListDefaults | server/routes.ts:109-110 | the user list forwards `page` 1 and `limit` 10 by default |
| Routes.Proxy | server/routes.ts:7-248 | a route answers 404 exactly on an upstream 404 when it has that branch, success only on an ok reply with a readable body (remove needs none), 500 with the route's message otherwise |
| Routes.NoNotFoundOnListRoutes | server/routes.ts:12-14 | the list, search, verify and create-user routes turn every non-ok status into 500 |
| Routes.NotFoundRoutes | server/routes.ts:74-79 | the five routes with a 404 branch answer 404 with their own message |
| Routes.SuccessReplies | server/routes.ts:182-204 | add-favourite and create-user answer 201, remove-favourite 204 without a body, the others 200 |
| FavoritesPage.AddDurationsIsSum | client/src/pages/Favorites.tsx:15 | the `reduce` left fold from an accumulator is the accumulator plus the sum of the durations |
| FavoritesPage.TotalDurationIsSum | client/src/pages/Favorites.tsx:15 | the total is the sum of the durations, and 0 when the list is absent |
| FavoritesPage.SumDurationsAppend | client/src/pages/Favorites.tsx:15 | the total of two lists is the sum of their totals |
| FavoritesPage.SumDurationsBounds | client/src/pages/Favorites.tsx:15 | with durations in 1..600 the total lies between the count and 600 times the count |
| FavoritesPage.TotalSplitRecombines | client/src/pages/Favorites.tsx:16-17 | totalHours*60 + totalMinutes is the total, with 0 <= totalMinutes < 60 |
| FavoritesPage.ShowStats | client/src/pages/Favorites.tsx:35-48 | the stat cards, average included, render exactly when the list is not loading, is present and is non-empty |
| FavoritesPage.FavoriteCount | client/src/pages/Favorites.tsx:58-59 | the count card shows the length of the fetched list, which is at least the number of distinct favourite ids |
| FavoritesPage.CardFlags | client/src/pages/Favorites.tsx:99 | each card's flag is membership of its id in the controller's set |
| MovieDetail.ChooseView | client/src/pages/MovieDetail.tsx:31-61 | loading shows the skeleton, else a missing movie shows not-found, else the detail page |
| MovieDetail.IsFavorite | client/src/pages/MovieDetail.tsx:29 | false without a movie, otherwise membership of its id |
| MovieDetail.Genres | client/src/pages/MovieDetail.tsx:63 | k commas give k+1 genres, each the trimmed piece |
| MovieDetail.GenreBadges | client/src/pages/MovieDetail.tsx:63 | no badge holds a comma or starts or ends with whitespace |
| MovieDetail.Without | client/src/pages/MovieDetail.tsx:190 | the filter drops exactly the movies with the current id |
| MovieDetail.WithoutAppend | client/src/pages/MovieDetail.tsx:190 | the filter keeps order |
| MovieDetail.Related | client/src/pages/MovieDetail.tsx:190 | at most 5 movies, none the current one, a prefix of the filtered list |
| MovieDetail.RelatedStripMayBeEmpty | client/src/pages/MovieDetail.tsx:186-190 | the strip renders on the unfiltered list, so a list holding only the current movie shows an empty strip |
| MovieDetail.DetailDurationRecombines | client/src/pages/MovieDetail.tsx:171 | the hours and minutes shown recombine to the duration, minutes below 60 |

## Findings

| source | as written | input that shows it | evidently intended | confidence | as-written member | corrected member |
|---|---|---|---|---|---|---|
| client/src/pages/Catalog.tsx:56 | without a `filter` parameter the page shows `movies.slice(0, 20)` whatever the page number | a search returning 25 movies: the pager says "Página 1 de 2", and page 2 shows the same 20 movies, so movies 21-25 are never shown | page p shows movies (p-1)*20 up to p*20 | not executed; high that the pager is inert, medium that client-side slicing was the intent | Catalog.ShownMoviesIgnorePage | Catalog.PageSliceCoversAll |
| client/src/pages/Catalog.tsx:34 | the full catalogue (no `filter`, empty filter record) asks for `limit` 20, and the page count is taken from the length of the list that comes back | a catalogue of 45 movies: the reply holds 20, `totalPages` is 1, the pager is not drawn, and movies 21-45 cannot be reached | the pager reaches every page of the catalogue, for instance by asking for one movie more than a page and offering "next" when it comes back | not executed; high | Catalog.PagedCatalogueHasNoPager | Catalog.PeekPagerReachesEveryPage |

`Catalog.CatalogPage` keeps the slicing and the paged query as written,
since it models the page as it behaves; `Catalog.PageSlice` and
`Catalog.PeekQuery` are the corrected versions beside it.

## Left out

- Rendering, styling, skeleton markup, icons and toasts' presentation: no behaviour to state. The toast contents of an import are modelled.
- Network, caching and react-query (`fetch`, `apiRequest`, `useQuery`, `useMutation`, `invalidateQueries`, `createServer`): every remote result is a parameter.
- The invalidation and refetch after a successful toggle: it is a cache call; its effect reaches the model as a later `Sync`.
- Favorites.FavoritesController.BeginToggle: the hook reads membership and takes its snapshot from the set of the last render, but flips through the `prev` updater. The model reads both from the current set. That equals the source whenever a render happens between two clicks.
- Favorites.FavoritesController.SettleToggle: `isPending` follows react-query's rule that an observer reports its latest call only; the library's exact scheduling of state updates is not modelled.
- Stale unmounted components: the hook has no unmount guard, and there is no unmounting in the model.
- `Math.round` averages (client/src/pages/Favorites.tsx:87, client/src/pages/UserStatistics.tsx): floating point. Only the fact that the average is never computed for an empty list is stated.
- `formatDate` and `new Date().getFullYear()`: the current year is a parameter and dates are not modelled.
- Percent-encoding by `URLSearchParams.toString` and `encodeURIComponent`: the query string joins `key=value` pairs with `&` unencoded.
- Full Unicode `toUpperCase` and `trim`: both work on ASCII only (`trim` removes space, tab, line feed, carriage return, vertical tab and form feed).
- `NaN` in the filter record and non-string `req.query` values (arrays from repeated parameters): not modelled.
- The upstream API behind the proxy is not part of this model; `Catalog.ServerPage` states the `skip`/`limit` window it is taken to return. How a react-query key becomes a request URL (the client's default query function) is not part of this model either; the paged key is taken to send its `skip` and `limit`.
- TmdbImport.ImportToast: the fallback message "No se pudo importar la película" for a thrown value that is not an `Error` is not modelled, since every failure of `fetch` and `response.json()` throws an `Error`.
- The proxy's multipart image upload and the movie create/update routes are not part of the routes file modelled here. The upstream base URL comes from the environment and is not modelled.
- CreateMovie, Login, Register, App, UserStatistics, Home, Search, HeroSection, MovieCard, MovieSection, EmptyState, Navbar and the shared zod schema are not modelled: form posting, `localStorage`, routing and composition. The schema contributes the movie record and its 1..600 duration bound.
