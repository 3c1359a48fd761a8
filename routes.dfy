/** The proxy in front of the upstream REST API: the query string of the
    search route, the default values of the list routes, and the status the
    proxy answers with for each upstream outcome. The upstream base URL
    (an environment variable) is a parameter. */
module Routes {

  /** A request's query parameters, by name; a missing parameter is absent. */
  type Query = map<string, string>

  /** `req.query.k` is truthy: present and not the empty string. */
  predicate Truthy(q: Query, k: string) {
    k in q && q[k] != ""
  }

  /** The parameters the search route forwards, in this order. */
  const SearchKeys: seq<string> := ["titulo", "director", "genero", "año", "año_min", "año_max", "clasificacion"]

  const SearchPath: string := "/api/peliculas/buscar"

  /** The parameter `k` as the search route appends it, if it is truthy. */
  function Kept(q: Query, k: string): seq<(string, string)> {
    if Truthy(q, k) then [(k, q[k])] else []
  }

  /** The truthy parameters among `keys`, in the order of `keys`. */
  function KeepTruthy(q: Query, keys: seq<string>): (r: seq<(string, string)>)
    ensures |r| <= |keys|
    ensures forall i :: 0 <= i < |r| ==> r[i].0 in keys && Truthy(q, r[i].0) && r[i].1 == q[r[i].0]
  {
    if keys == [] then []
    else
      var rest := KeepTruthy(q, keys[1..]);
      assert forall k :: k in keys[1..] ==> k in keys;
      Kept(q, keys[0]) + rest
  }

  /** Every truthy parameter among `keys` is kept. */
  lemma {:induction false} KeepTruthyComplete(q: Query, keys: seq<string>, k: string)
    requires k in keys && Truthy(q, k)
    ensures exists i :: 0 <= i < |KeepTruthy(q, keys)| && KeepTruthy(q, keys)[i] == (k, q[k])
  {
    var r := KeepTruthy(q, keys);
    if keys[0] == k {
      assert r[0] == (k, q[k]);
    } else {
      KeepTruthyComplete(q, keys[1..], k);
      var rest := KeepTruthy(q, keys[1..]);
      var i :| 0 <= i < |rest| && rest[i] == (k, q[k]);
      assert r[|Kept(q, keys[0])| + i] == (k, q[k]);
    }
  }

  /** Nothing is kept exactly when none of the keys is truthy. */
  lemma {:induction false} KeepTruthyEmpty(q: Query, keys: seq<string>)
    ensures KeepTruthy(q, keys) == [] <==> forall k :: k in keys ==> !Truthy(q, k)
  {
    if keys != [] {
      KeepTruthyEmpty(q, keys[1..]);
    }
  }

  /** Keeping from one more key appends that key's parameter, if truthy. */
  lemma {:induction false} KeepTruthySnoc(q: Query, keys: seq<string>, k: string)
    ensures KeepTruthy(q, keys + [k]) == KeepTruthy(q, keys) + Kept(q, k)
  {
    if keys == [] {
      assert [k][1..] == [];
    } else {
      assert (keys + [k])[1..] == keys[1..] + [k];
      KeepTruthySnoc(q, keys[1..], k);
    }
  }

  /** The kept search parameters are the seven keys' parameters in order. */
  lemma SearchKeysUnfold(q: Query)
    ensures KeepTruthy(q, SearchKeys) ==
      Kept(q, "titulo") + Kept(q, "director") + Kept(q, "genero") + Kept(q, "año")
      + Kept(q, "año_min") + Kept(q, "año_max") + Kept(q, "clasificacion")
  {
    assert KeepTruthy(q, ["titulo"]) == Kept(q, "titulo") by {
      assert ["titulo"][1..] == [];
    }
    KeepTruthySnoc(q, ["titulo"], "director");
    assert ["titulo"] + ["director"] == ["titulo", "director"];
    KeepTruthySnoc(q, ["titulo", "director"], "genero");
    assert ["titulo", "director"] + ["genero"] == ["titulo", "director", "genero"];
    KeepTruthySnoc(q, ["titulo", "director", "genero"], "año");
    assert ["titulo", "director", "genero"] + ["año"] == ["titulo", "director", "genero", "año"];
    KeepTruthySnoc(q, ["titulo", "director", "genero", "año"], "año_min");
    assert ["titulo", "director", "genero", "año"] + ["año_min"] == ["titulo", "director", "genero", "año", "año_min"];
    KeepTruthySnoc(q, ["titulo", "director", "genero", "año", "año_min"], "año_max");
    assert ["titulo", "director", "genero", "año", "año_min"] + ["año_max"] == ["titulo", "director", "genero", "año", "año_min", "año_max"];
    KeepTruthySnoc(q, ["titulo", "director", "genero", "año", "año_min", "año_max"], "clasificacion");
    assert ["titulo", "director", "genero", "año", "año_min", "año_max"] + ["clasificacion"] == ["titulo", "director", "genero", "año", "año_min", "año_max", "clasificacion"];
  }

  /** The search route's parameter buffer: one conditional append per key,
      in the fixed order. */
  method BuildSearchParams(q: Query) returns (params: seq<(string, string)>)
    ensures params == KeepTruthy(q, SearchKeys)
  {
    params := [];
    if Truthy(q, "titulo") { params := params + [("titulo", q["titulo"])]; }
    assert params == Kept(q, "titulo");
    ghost var done := params;
    if Truthy(q, "director") { params := params + [("director", q["director"])]; }
    assert params == done + Kept(q, "director");
    done := params;
    if Truthy(q, "genero") { params := params + [("genero", q["genero"])]; }
    assert params == done + Kept(q, "genero");
    done := params;
    if Truthy(q, "año") { params := params + [("año", q["año"])]; }
    assert params == done + Kept(q, "año");
    done := params;
    if Truthy(q, "año_min") { params := params + [("año_min", q["año_min"])]; }
    assert params == done + Kept(q, "año_min");
    done := params;
    if Truthy(q, "año_max") { params := params + [("año_max", q["año_max"])]; }
    assert params == done + Kept(q, "año_max");
    done := params;
    if Truthy(q, "clasificacion") { params := params + [("clasificacion", q["clasificacion"])]; }
    assert params == done + Kept(q, "clasificacion");
    SearchKeysUnfold(q);
  }

  /** `params.toString()` without percent-encoding: `k=v` pairs joined by `&`. */
  function QueryString(params: seq<(string, string)>): string {
    if params == [] then []
    else
      var pair := params[0].0 + "=" + params[0].1;
      if |params| == 1 then pair else pair + "&" + QueryString(params[1..])
  }

  /** The upstream URL: `?query` only when the query string is non-empty. */
  function SearchUrl(base: string, params: seq<(string, string)>): string {
    var qs := QueryString(params);
    if qs != [] then base + SearchPath + "?" + qs else base + SearchPath
  }

  /** The search goes to the bare path exactly when no parameter was kept,
      and otherwise appends `?` and the kept parameters. */
  lemma SearchUrlShape(base: string, q: Query)
    ensures var params := KeepTruthy(q, SearchKeys);
      && (params == [] <==> SearchUrl(base, params) == base + SearchPath)
      && (params != [] ==> SearchUrl(base, params) == base + SearchPath + "?" + QueryString(params))
  {
    var params := KeepTruthy(q, SearchKeys);
    if params != [] {
      assert |QueryString(params)| > 0;
      assert |SearchUrl(base, params)| > |base + SearchPath|;
    }
  }

  /** `req.query.k || fallback`. */
  function ParamOr(q: Query, k: string, fallback: string): string {
    if Truthy(q, k) then q[k] else fallback
  }

  /** `limit` of the popular and recent routes. */
  function TopLimit(q: Query): string {
    ParamOr(q, "limit", "10")
  }

  /** `skip` and `limit` of the movie list route. */
  function MovieListParams(q: Query): (string, string) {
    (ParamOr(q, "skip", "0"), ParamOr(q, "limit", "100"))
  }

  /** `page` and `limit` of the user list route. */
  function UserListParams(q: Query): (string, string) {
    (ParamOr(q, "page", "1"), ParamOr(q, "limit", "10"))
  }

  /** The popular and recent routes forward `limit`, 10 when it is missing
      or empty. */
  lemma TopLimitDefault(q: Query)
    ensures TopLimit(q) == if Truthy(q, "limit") then q["limit"] else "10"
    ensures TopLimit(map[]) == "10"
  {
  }

  /** The movie list forwards `skip` and `limit`, 0 and 100 when missing or
      empty; any other value verbatim. */
  lemma MovieListDefaults(q: Query)
    ensures MovieListParams(q).0 == if Truthy(q, "skip") then q["skip"] else "0"
    ensures MovieListParams(q).1 == if Truthy(q, "limit") then q["limit"] else "100"
    ensures MovieListParams(map[]) == ("0", "100")
  {
  }

  /** The user list forwards `page` and `limit`, 1 and 10 when missing or
      empty; any other value verbatim. */
  lemma UserListDefaults(q: Query)
    ensures UserListParams(q).0 == if Truthy(q, "page") then q["page"] else "1"
    ensures UserListParams(q).1 == if Truthy(q, "limit") then q["limit"] else "10"
    ensures UserListParams(map[]) == ("1", "10")
  {
  }

  /** The proxy's routes. */
  datatype Route =
    | PopularTop | RecentNew | SearchMovies | MovieById | MovieList
    | UserList | UserById | UserFavorites | AddFavorite | RemoveFavorite
    | VerifyFavorite | CreateUser

  /** What came back from upstream: no response (the request was rejected),
      or a status and whether the body parses as JSON. */
  datatype Upstream = NoResponse | Response(status: int, jsonBody: bool)

  datatype Body = Data | ErrorJson(error: string) | NoBody

  datatype Reply = Reply(status: int, body: Body)

  /** `response.ok`. */
  predicate IsOk(status: int) {
    200 <= status <= 299
  }

  /** The routes that answer an upstream 404 with their own 404, and with
      which message. */
  function NotFoundMessage(route: Route): (m: string) {
    match route
    case MovieById => "Movie not found"
    case UserById => "User not found"
    case UserFavorites => "User not found"
    case AddFavorite => "User or movie not found"
    case RemoveFavorite => "Favorite not found"
    case _ => ""
  }

  predicate HasNotFoundBranch(route: Route) {
    route in {MovieById, UserById, UserFavorites, AddFavorite, RemoveFavorite}
  }

  /** The message of each route's 500 answer. */
  function FailureMessage(route: Route): string {
    match route
    case PopularTop => "Failed to fetch popular movies"
    case RecentNew => "Failed to fetch recent movies"
    case SearchMovies => "Failed to search movies"
    case MovieById => "Failed to fetch movie"
    case MovieList => "Failed to fetch movies"
    case UserList => "Failed to fetch users"
    case UserById => "Failed to fetch user"
    case UserFavorites => "Failed to fetch user favorites"
    case AddFavorite => "Failed to add favorite"
    case RemoveFavorite => "Failed to remove favorite"
    case VerifyFavorite => "Failed to verify favorite"
    case CreateUser => "Failed to create user"
  }

  /** The status of a successful answer. */
  function SuccessStatus(route: Route): int {
    match route
    case AddFavorite => 201
    case CreateUser => 201
    case RemoveFavorite => 204
    case _ => 200
  }

  /** One route handler: a non-ok upstream status is a 404 on the routes
      that have that branch and a 500 otherwise; a failed request or an
      unreadable body is a 500 too; remove-favourite answers 204 without
      reading the body. */
  function Proxy(route: Route, upstream: Upstream): (r: Reply)
    ensures r.status in {200, 201, 204, 404, 500}
    ensures r.status == 404 <==> upstream.Response? && upstream.status == 404 && HasNotFoundBranch(route)
    ensures r.status == 404 ==> r.body == ErrorJson(NotFoundMessage(route))
    ensures r.status == 500 ==> r.body == ErrorJson(FailureMessage(route))
    ensures r.status < 300 <==> upstream.Response? && IsOk(upstream.status) && (upstream.jsonBody || route == RemoveFavorite)
    ensures r.status < 300 ==> r.status == SuccessStatus(route) && r.body == (if route == RemoveFavorite then NoBody else Data)
  {
    match upstream
    case NoResponse => Reply(500, ErrorJson(FailureMessage(route)))
    case Response(status, jsonBody) =>
      if !IsOk(status) then
        if status == 404 && HasNotFoundBranch(route) then Reply(404, ErrorJson(NotFoundMessage(route)))
        else Reply(500, ErrorJson(FailureMessage(route)))
      else if route == RemoveFavorite then Reply(204, NoBody)
      else if !jsonBody then Reply(500, ErrorJson(FailureMessage(route)))
      else Reply(SuccessStatus(route), Data)
  }

  /** The list, search, verify and create-user routes have no 404 branch:
      every non-ok upstream status becomes 500. */
  lemma NoNotFoundOnListRoutes(route: Route, status: int, jsonBody: bool)
    requires route in {PopularTop, RecentNew, SearchMovies, MovieList, UserList, VerifyFavorite, CreateUser}
    requires !IsOk(status)
    ensures Proxy(route, Response(status, jsonBody)).status == 500
  {
  }

  /** The single-movie, single-user, favourites-list, add-favourite and
      remove-favourite routes turn an upstream 404 into their own 404. */
  lemma NotFoundRoutes(jsonBody: bool)
    ensures Proxy(MovieById, Response(404, jsonBody)) == Reply(404, ErrorJson("Movie not found"))
    ensures Proxy(UserById, Response(404, jsonBody)) == Reply(404, ErrorJson("User not found"))
    ensures Proxy(UserFavorites, Response(404, jsonBody)) == Reply(404, ErrorJson("User not found"))
    ensures Proxy(AddFavorite, Response(404, jsonBody)) == Reply(404, ErrorJson("User or movie not found"))
    ensures Proxy(RemoveFavorite, Response(404, jsonBody)) == Reply(404, ErrorJson("Favorite not found"))
  {
  }

  /** On success add-favourite and create-user answer 201 with the data,
      remove-favourite 204 without a body, the other routes 200. */
  lemma SuccessReplies(route: Route, status: int)
    requires IsOk(status)
    ensures Proxy(AddFavorite, Response(status, true)) == Reply(201, Data)
    ensures Proxy(CreateUser, Response(status, true)) == Reply(201, Data)
    ensures Proxy(RemoveFavorite, Response(status, false)) == Reply(204, NoBody)
    ensures route !in {AddFavorite, CreateUser, RemoveFavorite} ==> Proxy(route, Response(status, true)) == Reply(200, Data)
  {
  }
}
