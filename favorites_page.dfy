/** The favourites page: the total running time of the fetched favourites,
    split into hours and minutes, the stat cards and the per-card
    favourite flag. */
module FavoritesPage {
  import opened Wrappers
  import opened Movies

  /** `reduce((acc, movie) => acc + movie.duracion, acc)`: a left fold. */
  function AddDurations(acc: int, ms: seq<Movie>): int
    decreases ms
  {
    if ms == [] then acc else AddDurations(acc + ms[0].duration, ms[1..])
  }

  /** `userFavorites?.reduce(..., 0) || 0`: no list and an empty list both give 0. */
  function TotalDuration(userFavorites: Option<seq<Movie>>): int {
    match userFavorites
    case None => 0
    case Some(ms) => AddDurations(0, ms)
  }

  /** The sum of the durations, as a reference definition. */
  function SumDurations(ms: seq<Movie>): int {
    if ms == [] then 0 else ms[0].duration + SumDurations(ms[1..])
  }

  lemma {:induction false} AddDurationsIsSum(acc: int, ms: seq<Movie>)
    ensures AddDurations(acc, ms) == acc + SumDurations(ms)
    decreases ms
  {
    if ms != [] {
      AddDurationsIsSum(acc + ms[0].duration, ms[1..]);
    }
  }

  /** The total is the sum of the list's durations, and 0 without a list. */
  lemma TotalDurationIsSum(userFavorites: Option<seq<Movie>>)
    ensures TotalDuration(userFavorites) == if userFavorites.Some? then SumDurations(userFavorites.value) else 0
  {
    if userFavorites.Some? {
      AddDurationsIsSum(0, userFavorites.value);
    }
  }

  /** Adding movies adds their durations. */
  lemma {:induction false} SumDurationsAppend(a: seq<Movie>, b: seq<Movie>)
    ensures SumDurations(a + b) == SumDurations(a) + SumDurations(b)
  {
    if a == [] {
      assert a + b == b;
    } else {
      assert (a + b)[1..] == a[1..] + b;
      SumDurationsAppend(a[1..], b);
    }
  }

  /** With durations between 1 and 600 minutes the total lies between the
      number of movies and 600 times that number, so it is never negative. */
  lemma {:induction false} SumDurationsBounds(ms: seq<Movie>)
    requires forall i :: 0 <= i < |ms| ==> ValidMovie(ms[i])
    ensures |ms| * MinDuration <= SumDurations(ms) <= |ms| * MaxDuration
  {
    if ms != [] {
      SumDurationsBounds(ms[1..]);
    }
  }

  /** `totalHours` and `totalMinutes` recombine to the total, with the
      minutes below 60. */
  lemma TotalSplitRecombines(userFavorites: Option<seq<Movie>>)
    requires userFavorites.Some? ==> forall i :: 0 <= i < |userFavorites.value| ==> ValidMovie(userFavorites.value[i])
    ensures var (h, m) := HoursMinutes(TotalDuration(userFavorites));
      h * 60 + m == TotalDuration(userFavorites) && 0 <= m < 60 && h >= 0
  {
    TotalDurationIsSum(userFavorites);
    if userFavorites.Some? {
      SumDurationsBounds(userFavorites.value);
    }
    HoursMinutesRecombine(TotalDuration(userFavorites));
  }

  /** The stat cards (count, total time, average) render only for a loaded,
      non-empty list, so the average never divides by zero. */
  function ShowStats(isLoading: bool, userFavorites: Option<seq<Movie>>): (show: bool)
    ensures show ==> !isLoading && userFavorites.Some? && |userFavorites.value| > 0
    ensures !isLoading && userFavorites.Some? && |userFavorites.value| > 0 ==> show
  {
    !isLoading && userFavorites.Some? && |userFavorites.value| > 0
  }

  /** "Total de Películas": the length of the fetched list. Duplicates are
      counted, so it is at least the number of distinct favourite ids. */
  function FavoriteCount(userFavorites: Option<seq<Movie>>): (n: nat)
    requires userFavorites.Some?
    ensures n == |userFavorites.value|
    ensures n >= |IdsOf(userFavorites.value)|
  {
    IdsOfCount(userFavorites.value);
    |userFavorites.value|
  }

  /** The favourite flag of each card: membership of its id in the
      controller's set, not presence in the fetched list. */
  function CardFlags(favorites: set<int>, ms: seq<Movie>): (flags: seq<bool>)
    ensures |flags| == |ms|
    ensures forall i :: 0 <= i < |ms| ==> (flags[i] <==> ms[i].id in favorites)
  {
    if ms == [] then [] else [ms[0].id in favorites] + CardFlags(favorites, ms[1..])
  }
}
