/** The movie detail page: which view it shows, the favourite flag, the
    genre badges, the duration line and the related-movies strip. */
module MovieDetail {
  import opened Wrappers
  import opened Text
  import opened Movies

  /** How many related movies are shown at most. */
  const RelatedShown: nat := 5

  datatype View = Skeleton | NotFound | Detail(movie: Movie)

  /** The checks in order: loading, then a missing movie, then the page. */
  function ChooseView(isLoading: bool, movie: Option<Movie>): (v: View)
    ensures v.Skeleton? <==> isLoading
    ensures v.NotFound? <==> !isLoading && movie.None?
    ensures v.Detail? <==> !isLoading && movie.Some?
    ensures v.Detail? ==> v.movie == movie.value
  {
    if isLoading then Skeleton
    else if movie.None? then NotFound
    else Detail(movie.value)
  }

  /** `movie ? favorites.has(movie.id) : false`. */
  function IsFavorite(movie: Option<Movie>, favorites: set<int>): (fav: bool)
    ensures fav <==> movie.Some? && movie.value.id in favorites
  {
    match movie
    case None => false
    case Some(m) => m.id in favorites
  }

  /** `genero.split(',').map(g => g.trim())`. */
  function Genres(genre: string): (r: seq<string>)
    ensures |r| == Count(genre, ',') + 1
    ensures forall i :: 0 <= i < |r| ==> r[i] == Trim(Split(genre, ',')[i])
  {
    var pieces := Split(genre, ',');
    seq(|pieces|, i requires 0 <= i < |pieces| => Trim(pieces[i]))
  }

  /** Each badge holds no comma and starts and ends with a non-blank
      character, unless it is empty. */
  lemma GenreBadges(genre: string)
    ensures forall i :: 0 <= i < |Genres(genre)| ==>
      var g := Genres(genre)[i];
      ',' !in g && (g == [] || (!IsSpace(g[0]) && !IsSpace(g[|g| - 1])))
  {
    var pieces := Split(genre, ',');
    forall i | 0 <= i < |pieces|
      ensures ',' !in Trim(pieces[i])
    {
      var t := TrimStart(pieces[i]);
      assert forall c :: c in t ==> c in pieces[i];
      assert forall c :: c in TrimEnd(t) ==> c in t;
    }
  }

  /** The movies other than `id`, in order. */
  function Without(ms: seq<Movie>, id: int): (r: seq<Movie>)
    ensures |r| <= |ms|
    ensures forall i :: 0 <= i < |r| ==> r[i].id != id && r[i] in ms
    ensures forall i :: 0 <= i < |ms| && ms[i].id != id ==> ms[i] in r
  {
    if ms == [] then []
    else
      var rest := Without(ms[1..], id);
      assert forall m :: m in ms[1..] ==> m in ms;
      assert forall i :: 1 <= i < |ms| ==> ms[i] == ms[1..][i - 1];
      (if ms[0].id != id then [ms[0]] else []) + rest
  }

  /** The filter keeps order: filtering a concatenation filters each part. */
  lemma {:induction false} WithoutAppend(a: seq<Movie>, b: seq<Movie>, id: int)
    ensures Without(a + b, id) == Without(a, id) + Without(b, id)
  {
    if a == [] {
      assert a + b == b;
    } else {
      assert (a + b)[1..] == a[1..] + b;
      WithoutAppend(a[1..], b, id);
    }
  }

  /** `relatedMovies.filter(m => m.id !== movieId).slice(0, 5)`. */
  function Related(relatedMovies: seq<Movie>, movieId: int): (r: seq<Movie>)
    ensures |r| <= RelatedShown
    ensures forall i :: 0 <= i < |r| ==> r[i].id != movieId
    ensures r <= Without(relatedMovies, movieId)
    ensures |r| == if |Without(relatedMovies, movieId)| < RelatedShown then |Without(relatedMovies, movieId)| else RelatedShown
  {
    var others := Without(relatedMovies, movieId);
    if |others| <= RelatedShown then others else others[..RelatedShown]
  }

  /** The strip renders when the fetched list is non-empty, before the
      filter: a list holding only the current movie shows an empty strip. */
  function ShowRelated(relatedMovies: Option<seq<Movie>>): bool {
    relatedMovies.Some? && |relatedMovies.value| > 0
  }

  lemma RelatedStripMayBeEmpty(current: Movie)
    ensures ShowRelated(Some([current])) && Related([current], current.id) == []
  {
  }

  /** The duration line: hours and minutes recombine to the duration. */
  lemma DetailDurationRecombines(m: Movie)
    requires ValidMovie(m)
    ensures var (h, mins) := HoursMinutes(m.duration);
      h * 60 + mins == m.duration && 0 <= mins < 60 && 0 <= h <= 10
  {
    HoursMinutesRecombine(m.duration);
  }
}
