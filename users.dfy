/** The users page: avatar initials and the page counter over the proxy's
    paginated user list. */
module Users {
  import opened Wrappers
  import opened Text

  /** Users per page, as the page asks for them. */
  const UsersPageSize: int := 12

  /** `.map(n => n[0]).join("")`: the first character of each piece; an
      empty piece gives `undefined`, which `join` writes as nothing. */
  function FirstChars(pieces: seq<string>): string {
    if pieces == [] then []
    else (if pieces[0] == [] then [] else [pieces[0][0]]) + FirstChars(pieces[1..])
  }

  /** `getInitials`: split on spaces, first characters, upper case, first two. */
  function Initials(name: string): (r: string)
    ensures |r| <= 2
  {
    Prefix(ToUpper(FirstChars(Split(name, ' '))), 2)
  }

  /** The characters that start a word: non-space characters at the start or
      right after a space. `atStart` says whether the previous character was
      a space (or there was none). */
  function WordStarts(s: string, atStart: bool): string {
    if s == [] then []
    else (if atStart && s[0] != ' ' then [s[0]] else []) + WordStarts(s[1..], s[0] == ' ')
  }

  lemma {:induction false} FirstCharsOfSplit(s: string)
    ensures FirstChars(Split(s, ' ')) == WordStarts(s, true)
    ensures FirstChars(Split(s, ' ')[1..]) == WordStarts(s, false)
  {
    if s != [] {
      FirstCharsOfSplit(s[1..]);
      var rest := Split(s[1..], ' ');
      if s[0] == ' ' {
        assert Split(s, ' ') == [[]] + rest;
        assert ([[]] + rest)[1..] == rest;
      } else {
        var pieces := [[s[0]] + rest[0]] + rest[1..];
        assert Split(s, ' ') == pieces;
        assert pieces[1..] == rest[1..];
      }
    }
  }

  /** The initials are the upper-cased first letters of the words in order,
      at most two; empty pieces from repeated, leading or trailing spaces
      contribute nothing. */
  lemma InitialsAreWordStarts(name: string)
    ensures Initials(name) == Prefix(ToUpper(WordStarts(name, true)), 2)
  {
    FirstCharsOfSplit(name);
  }

  /** An empty name has no initials, and one made only of spaces neither. */
  lemma {:induction false} BlankNameHasNoInitials(name: string)
    requires forall i :: 0 <= i < |name| ==> name[i] == ' '
    ensures Initials(name) == []
  {
    InitialsAreWordStarts(name);
    NoWordStartsInBlank(name, true);
  }

  lemma {:induction false} NoWordStartsInBlank(s: string, atStart: bool)
    requires forall i :: 0 <= i < |s| ==> s[i] == ' '
    ensures WordStarts(s, atStart) == []
  {
    if s != [] {
      NoWordStartsInBlank(s[1..], true);
    }
  }

  /** The part of the proxy's `PaginatedResponse` the pager reads. */
  datatype PageInfo = PageInfo(itemCount: nat, pages: int, hasNext: bool, hasPrev: bool)

  class UsersPage {
    var page: int

    ghost predicate Valid()
      reads this
    {
      page >= 1
    }

    constructor ()
      ensures Valid() && page == 1
      ensures Request() == (1, UsersPageSize)
    {
      page := 1;
    }

    /** The list request: the current page, 12 users per page. */
    function Request(): (int, int)
      reads this
    {
      (page, UsersPageSize)
    }

    /** The pager shows once users are listed and there is more than one page. */
    static function PagerVisible(data: Option<PageInfo>): bool {
      data.Some? && data.value.itemCount > 0 && data.value.pages > 1
    }

    /** "Anterior": `max(1, p - 1)`, enabled by `has_prev`; never below 1. */
    method PreviousPage(data: Option<PageInfo>)
      requires Valid()
      modifies this
      ensures Valid()
      ensures page == if PagerVisible(data) && data.value.hasPrev then (if old(page) > 1 then old(page) - 1 else 1) else old(page)
    {
      if PagerVisible(data) && data.value.hasPrev {
        page := if page - 1 > 1 then page - 1 else 1;
      }
    }

    /** "Siguiente": one more, enabled by `has_next`. */
    method NextPage(data: Option<PageInfo>)
      requires Valid()
      modifies this
      ensures Valid()
      ensures page == if PagerVisible(data) && data.value.hasNext then old(page) + 1 else old(page)
    {
      if PagerVisible(data) && data.value.hasNext {
        page := page + 1;
      }
    }
  }
}
