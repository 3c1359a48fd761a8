/** The favourites controller of one user (the `useFavorites` hook): the set
    of favourite movie ids, its synchronisation with the fetched list, and the
    optimistic toggle that flips an id at once, sends the add or remove
    request, and on failure writes back a copy of the whole set taken before
    the flip.

    A toggle is split at the point where the hook awaits the network:
    `BeginToggle` is everything before the `await` and `SettleToggle`
    everything after it, with the remote outcome as an input. `Toggle` is
    the two run back to back, the case of a toggle that no other event
    interleaves. */
module Favorites {
  import opened Wrappers
  import opened Movies

  /** Which remote operation a toggle sends. */
  datatype Direction = Add | Remove

  /** The request sent to the proxy: POST or DELETE on
      `/api/usuarios/{userId}/favoritos/{movieId}`. */
  datatype FavoriteRequest = FavoriteRequest(verb: string, userId: int, movieId: int)

  /** A toggle waiting for its remote call: the id, the direction chosen from
      membership before the flip, the copy of the whole set taken before the
      flip, and the number of the mutation call it issued. */
  datatype PendingToggle = PendingToggle(ticket: nat, movieId: int, direction: Direction, snapshot: set<int>)

  /** The optimistic step: delete the id if it is a member, add it otherwise. */
  function Flip(s: set<int>, id: int): (r: set<int>)
    ensures id in r <==> id !in s
    ensures forall x :: x != id ==> (x in r <==> x in s)
  {
    if id in s then s - {id} else s + {id}
  }

  /** Membership before the flip chooses the remote operation. */
  function DirectionFor(s: set<int>, id: int): (d: Direction)
    ensures d == Remove <==> id in s
  {
    if id in s then Remove else Add
  }

  /** The request a direction sends: a member is removed with DELETE, a
      non-member is added with POST. */
  function RequestFor(userId: int, movieId: int, d: Direction): (r: FavoriteRequest)
    ensures r.userId == userId && r.movieId == movieId
    ensures r.verb == "DELETE" <==> d == Remove
    ensures r.verb == "POST" <==> d == Add
  {
    match d
    case Add => FavoriteRequest("POST", userId, movieId)
    case Remove => FavoriteRequest("DELETE", userId, movieId)
  }

  /** What the hook logs when the remote call of a direction fails. */
  function FailureLog(d: Direction): string {
    match d
    case Add => "Error adding favorite:"
    case Remove => "Error removing favorite:"
  }

  /** Toggling an id that is in the set removes exactly that id. */
  lemma FlipMember(s: set<int>, id: int)
    requires id in s
    ensures Flip(s, id) == s - {id}
    ensures |Flip(s, id)| == |s| - 1
  {
  }

  /** Toggling an id that is not in the set adds exactly that id. */
  lemma FlipNonMember(s: set<int>, id: int)
    requires id !in s
    ensures Flip(s, id) == s + {id}
    ensures |Flip(s, id)| == |s| + 1
  {
  }

  /** Two toggles of the same id return the set to what it was. */
  lemma FlipTwice(s: set<int>, id: int)
    ensures Flip(Flip(s, id), id) == s
    ensures DirectionFor(Flip(s, id), id) != DirectionFor(s, id)
  {
  }

  /** Toggles of two different ids commute when both succeed. */
  lemma FlipCommutes(s: set<int>, a: int, b: int)
    ensures Flip(Flip(s, a), b) == Flip(Flip(s, b), a)
  {
  }

  class FavoritesController {
    const userId: int
    /** The favourite ids as known locally. */
    var favorites: set<int>
    /** Mutation calls issued so far; each toggle takes the next number. */
    var issued: nat
    /** The pending flag of each mutation object; like react-query's
        `isPending`, it follows the latest call made on that object. */
    var addPending: bool
    var removePending: bool
    var latestAdd: nat
    var latestRemove: nat

    /** A pending flag always belongs to a call already issued. */
    ghost predicate Valid()
      reads this
    {
      (addPending ==> latestAdd < issued) && (removePending ==> latestRemove < issued)
    }

    /** The hook starts with an empty set, before any list has loaded. */
    constructor (userId: int)
      ensures this.userId == userId
      ensures Valid() && favorites == {} && !IsToggling()
    {
      this.userId := userId;
      favorites := {};
      issued := 0;
      addPending, removePending := false, false;
      latestAdd, latestRemove := 0, 0;
    }

    /** `isToggling`: some mutation object is waiting for its latest call. */
    function IsToggling(): bool
      reads this
    {
      addPending || removePending
    }

    /** The effect run when the fetched favourites list changes: once a list
        is there, the set becomes exactly its ids. */
    method Sync(userFavorites: Option<seq<Movie>>)
      requires Valid()
      modifies this`favorites
      ensures Valid()
      ensures userFavorites.Some? ==> favorites == IdsOf(userFavorites.value)
      ensures userFavorites.None? ==> favorites == old(favorites)
    {
      if userFavorites.Some? {
        favorites := IdsOf(userFavorites.value);
      }
    }

    /** The part of `toggleFavorite` before the `await`: read membership,
        copy the whole set, flip the id, and issue the add or remove call. */
    method BeginToggle(movieId: int) returns (p: PendingToggle, request: FavoriteRequest)
      requires Valid()
      modifies this
      ensures Valid()
      ensures p.movieId == movieId && p.snapshot == old(favorites)
      ensures p.direction == DirectionFor(old(favorites), movieId)
      ensures p.ticket == old(issued) && issued == old(issued) + 1
      ensures favorites == Flip(old(favorites), movieId)
      ensures request == RequestFor(userId, movieId, p.direction)
      ensures IsToggling()
      ensures p.direction == Add ==>
        (addPending && latestAdd == p.ticket && removePending == old(removePending) && latestRemove == old(latestRemove))
      ensures p.direction == Remove ==>
        (removePending && latestRemove == p.ticket && addPending == old(addPending) && latestAdd == old(latestAdd))
    {
      var isFavorite := movieId in favorites;
      var previousFavorites := favorites;
      var direction;
      if isFavorite {
        favorites := favorites - {movieId};
        direction := Remove;
        removePending, latestRemove := true, issued;
      } else {
        favorites := favorites + {movieId};
        direction := Add;
        addPending, latestAdd := true, issued;
      }
      p := PendingToggle(issued, movieId, direction, previousFavorites);
      request := RequestFor(userId, movieId, direction);
      issued := issued + 1;
    }

    /** The part of `toggleFavorite` after the `await`: on success nothing
        changes; on failure the whole snapshot is written back, whatever
        happened to the set in between, and the error is logged, never
        rethrown. The mutation object stops pending if this was its latest
        call. */
    method SettleToggle(p: PendingToggle, remoteOk: bool) returns (logged: Option<string>)
      requires Valid()
      modifies this`favorites, this`addPending, this`removePending
      ensures Valid()
      ensures favorites == if remoteOk then old(favorites) else p.snapshot
      ensures logged == if remoteOk then None else Some(FailureLog(p.direction))
      ensures addPending == (old(addPending) && !(p.direction == Add && p.ticket == latestAdd))
      ensures removePending == (old(removePending) && !(p.direction == Remove && p.ticket == latestRemove))
    {
      logged := None;
      if !remoteOk {
        favorites := p.snapshot;
        logged := Some(FailureLog(p.direction));
      }
      if p.direction == Add && p.ticket == latestAdd {
        addPending := false;
      }
      if p.direction == Remove && p.ticket == latestRemove {
        removePending := false;
      }
    }

    /** A toggle that nothing interleaves: the id flips and stays flipped if
        the remote call succeeds, and the set is back to what it was if it
        fails. No error leaves the call either way. */
    method Toggle(movieId: int, remoteOk: bool) returns (request: FavoriteRequest, logged: Option<string>)
      requires Valid()
      modifies this
      ensures Valid()
      ensures request == RequestFor(userId, movieId, DirectionFor(old(favorites), movieId))
      ensures favorites == if remoteOk then Flip(old(favorites), movieId) else old(favorites)
      ensures logged == if remoteOk then None else Some(FailureLog(DirectionFor(old(favorites), movieId)))
      ensures DirectionFor(old(favorites), movieId) == Add ==> !addPending && removePending == old(removePending)
      ensures DirectionFor(old(favorites), movieId) == Remove ==> !removePending && addPending == old(addPending)
      ensures old(!IsToggling()) ==> !IsToggling()
      ensures issued == old(issued) + 1
      ensures DirectionFor(old(favorites), movieId) == Add ==> latestAdd == old(issued) && latestRemove == old(latestRemove)
      ensures DirectionFor(old(favorites), movieId) == Remove ==> latestRemove == old(issued) && latestAdd == old(latestAdd)
    {
      var p;
      p, request := BeginToggle(movieId);
      logged := SettleToggle(p, remoteOk);
    }
  }

  /** Rollback restores the whole snapshot: when the toggle of id 1 fails
      after the toggle of id 2 has started, the set returns to the one taken
      before 1 flipped, so 2 is gone although its own add succeeded. */
  method InterleavedRollbackLosesOtherId() returns (afterBoth: set<int>)
    ensures afterBoth == {}
    ensures 2 !in afterBoth
  {
    var c := new FavoritesController(7);
    var p1, _ := c.BeginToggle(1);
    var p2, _ := c.BeginToggle(2);
    assert c.favorites == {1, 2};
    var _ := c.SettleToggle(p1, false);
    var _ := c.SettleToggle(p2, true);
    afterBoth := c.favorites;
  }

  /** Two overlapping toggles of different ids that both succeed leave both
      ids in the set, whichever settles first. */
  method OverlappingSuccesses(firstSettlesFirst: bool) returns (afterBoth: set<int>)
    ensures afterBoth == {1, 2}
  {
    var c := new FavoritesController(7);
    var p1, _ := c.BeginToggle(1);
    var p2, _ := c.BeginToggle(2);
    if firstSettlesFirst {
      var _ := c.SettleToggle(p1, true);
      var _ := c.SettleToggle(p2, true);
    } else {
      var _ := c.SettleToggle(p2, true);
      var _ := c.SettleToggle(p1, true);
    }
    afterBoth := c.favorites;
  }

  /** Two toggles of the same id in flight at once: the second reads the
      optimistic set, so it sends the opposite request; if only the first
      fails, its rollback reinstates the original membership although the
      second's request succeeded. */
  method SameIdRace() returns (requests: seq<string>, afterBoth: set<int>)
    ensures requests == ["POST", "DELETE"]
    ensures afterBoth == {}
  {
    var c := new FavoritesController(7);
    var p1, r1 := c.BeginToggle(3);
    var p2, r2 := c.BeginToggle(3);
    var _ := c.SettleToggle(p2, true);
    var _ := c.SettleToggle(p1, false);
    requests := [r1.verb, r2.verb];
    afterBoth := c.favorites;
  }
}
