/** The movie record (`Pelicula`) shared by the client pages, the set of ids
    of a list of movies, and the hours/minutes split of a duration that two
    pages display. */
module Movies {
  import opened Wrappers

  /** A movie as the upstream API returns it; `duration` is in minutes. */
  datatype Movie = Movie(
    id: int,
    title: string,
    director: string,
    genre: string,      // comma-separated list of genres
    duration: int,
    year: int,
    rating: string,     // the age classification
    synopsis: string,
    imageUrl: Option<string>)

  /** The bounds the shared schema puts on a movie's duration. */
  const MinDuration: int := 1
  const MaxDuration: int := 600

  predicate ValidMovie(m: Movie) {
    MinDuration <= m.duration <= MaxDuration
  }

  /** `new Set(movies.map(movie => movie.id))`: the ids occurring in the list. */
  function IdsOf(ms: seq<Movie>): (r: set<int>)
    ensures forall id :: id in r <==> exists i :: 0 <= i < |ms| && ms[i].id == id
  {
    if ms == [] then {}
    else
      var rest := IdsOf(ms[1..]);
      assert forall i :: 1 <= i < |ms| ==> ms[i] == ms[1..][i - 1];
      {ms[0].id} + rest
  }

  /** Duplicate ids collapse: a list never yields more ids than it has movies. */
  lemma {:induction false} IdsOfCount(ms: seq<Movie>)
    ensures |IdsOf(ms)| <= |ms|
  {
    if ms != [] {
      IdsOfCount(ms[1..]);
    }
  }

  /** The ids depend only on which ids occur, not on order or repetition. */
  lemma IdsOfAppend(ms: seq<Movie>, more: seq<Movie>)
    requires forall j :: 0 <= j < |more| ==> more[j].id in IdsOf(ms)
    ensures IdsOf(ms + more) == IdsOf(ms)
  {
    forall id | id in IdsOf(ms + more) ensures id in IdsOf(ms) {
      var i :| 0 <= i < |ms + more| && (ms + more)[i].id == id;
      if i >= |ms| {
        assert more[i - |ms|].id == id;
      }
    }
    forall id | id in IdsOf(ms) ensures id in IdsOf(ms + more) {
      var i :| 0 <= i < |ms| && ms[i].id == id;
      assert (ms + more)[i].id == id;
    }
  }

  /** JavaScript's `a % b`: the remainder truncates toward zero, so it takes
      the sign of `a` (Dafny's `%` never returns a negative value). */
  function JsRem(a: int, b: int): (r: int)
    requires b != 0
    ensures a >= 0 ==> 0 <= r < (if b > 0 then b else -b)
    ensures a < 0 ==> r <= 0
    ensures var m := if b > 0 then b else -b;
      -m < r < m && (a >= 0 ==> a == (a / m) * m + r) && (a < 0 ==> a == -(((-a) / m) * m) + r)
  {
    var m := if b > 0 then b else -b;
    if a >= 0 then a % m else -((-a) % m)
  }

  /** `[Math.floor(d / 60), d % 60]`: hours and minutes as displayed. */
  function HoursMinutes(d: int): (int, int) {
    (d / 60, JsRem(d, 60))
  }

  /** For a non-negative duration the two parts recombine to it, and the
      minutes are below 60. */
  lemma HoursMinutesRecombine(d: int)
    requires d >= 0
    ensures HoursMinutes(d).0 * 60 + HoursMinutes(d).1 == d
    ensures 0 <= HoursMinutes(d).1 < 60
    ensures HoursMinutes(d).0 >= 0
  {
  }

  /** For a negative duration that is not a whole number of hours the floor
      and the truncating remainder disagree: the parts recombine to an hour
      less than the duration (`HoursMinutes(-5) == (-1, -5)`). Whole hours
      still recombine. The schema's bound on durations keeps the pages out
      of this case. */
  lemma HoursMinutesNegative(d: int)
    requires d < 0
    ensures d % 60 == 0 ==> HoursMinutes(d).0 * 60 + HoursMinutes(d).1 == d
    ensures d % 60 != 0 ==> HoursMinutes(d).0 * 60 + HoursMinutes(d).1 == d - 60
    ensures -60 < HoursMinutes(d).1 <= 0
  {
  }
}
