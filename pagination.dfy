/**
 * `validatePagination`: checks a cursor-pagination input (`before`,
 * `after`, `first`, `last`), rejects conflicting or negative-cursor
 * inputs, fills in and clamps the page sizes, and returns the updated
 * input object.
 */
module Pagination {
  import opened Wrappers
  import opened ErrorHandler

  const DefaultPageSize: int := 30
  const MaxPageSize: int := 100

  const ConflictMessage: string := "Please set either {after and first} or {before and last}"
  const InvalidBeforeCursor: string := "Invalid before cursor"
  const InvalidAfterCursor: string := "Invalid after cursor"

  /** A page size as a GraphQL input delivers it: left out, explicitly `null`, or a number. */
  datatype Count = Undefined | Null | Num(n: int)

  /** JavaScript truthiness of a count: a number other than zero. */
  predicate Truthy(c: Count) {
    c.Num? && c.n != 0
  }

  /** JavaScript truthiness of a cursor: present and not the empty string. */
  predicate CursorSet(c: Option<string>) {
    c.Some? && c.value != ""
  }

  /** `c <= 0` in JavaScript: `null` compares as 0, `undefined` as NaN. */
  predicate AtMostZero(c: Count) {
    match c
    case Undefined => false
    case Null => true
    case Num(n) => n <= 0
  }

  /** `c > max` in JavaScript, with the same conversions. */
  predicate Exceeds(c: Count, max: int) {
    match c
    case Undefined => false
    case Null => 0 > max
    case Num(n) => n > max
  }

  /** A value view of the input object. */
  datatype PageArgs = PageArgs(before: Option<string>, after: Option<string>, first: Count, last: Count)

  /** The input object `validatePagination` receives, updates and returns. */
  class PaginationInput {
    var before: Option<string>
    var after: Option<string>
    var first: Count
    var last: Count

    constructor (before: Option<string>, after: Option<string>, first: Count, last: Count)
      ensures View() == PageArgs(before, after, first, last)
    {
      this.before := before;
      this.after := after;
      this.first := first;
      this.last := last;
    }

    function View(): PageArgs
      reads this
    {
      PageArgs(before, after, first, last)
    }
  }

  /**
   * One of the four pairs the validator refuses, by truthiness: the input
   * mixes the forward page (`after`, `first`) with the backward one
   * (`before`, `last`).
   */
  predicate Conflict(p: PageArgs)
    ensures Conflict(p) <==>
              (CursorSet(p.after) || Truthy(p.first)) && (CursorSet(p.before) || Truthy(p.last))
  {
    || (CursorSet(p.before) && CursorSet(p.after))
    || (CursorSet(p.before) && Truthy(p.first))
    || (Truthy(p.last) && CursorSet(p.after))
    || (Truthy(p.first) && Truthy(p.last))
  }

  /**
   * A set cursor that decodes (base64, then `parseInt`) to a negative
   * number; `decode` answers `None` for NaN, which is never negative.
   */
  predicate BadCursor(c: Option<string>, decode: string -> Option<int>) {
    CursorSet(c) && decode(c.value).Some? && decode(c.value).value < 0
  }

  /** The error thrown for a bad cursor: a plain `GraphQLError` with code `BAD_USER_INPUT`. */
  function CursorError(message: string): (e: GraphQLError)
    ensures e.message == message && e.extensions == map["code" := Str(BadUserInput)]
  {
    NewGraphQLError(message, ErrorOptions(Some(map["code" := Str(BadUserInput)]), None))
  }

  /** A count left falsy next to its cursor becomes the default page size. */
  function Fill(count: Count, cursor: Option<string>, defaultPageSize: int): (r: Count)
    ensures CursorSet(cursor) && !Truthy(count) ==> r == Num(defaultPageSize)
    ensures !(CursorSet(cursor) && !Truthy(count)) ==> r == count
  {
    if CursorSet(cursor) && !Truthy(count) then Num(defaultPageSize) else count
  }

  /**
   * The reset-then-clamp steps on one count: `undefined` stays, `null` and
   * any number at most zero become the default, and the result is capped
   * at `maxPageSize`.
   */
  function Normalize(count: Count, defaultPageSize: int, maxPageSize: int): (r: Count)
    ensures count.Undefined? <==> r.Undefined?
    ensures count.Num? && 0 < count.n <= maxPageSize ==> r == count
    ensures count.Num? && count.n > 0 && count.n > maxPageSize ==> r == Num(maxPageSize)
    ensures AtMostZero(count) ==>
              r == Num(if defaultPageSize > maxPageSize then maxPageSize else defaultPageSize)
    ensures 0 < defaultPageSize && 0 < maxPageSize && r.Num? ==> 0 < r.n <= maxPageSize
  {
    var reset := if AtMostZero(count) then Num(defaultPageSize) else count;
    if Exceeds(reset, maxPageSize) then Num(maxPageSize) else reset
  }

  /** A count on return lies in (0, maxPageSize] whenever it is set. */
  predicate InRange(c: Count, maxPageSize: int) {
    c.Num? ==> 0 < c.n <= maxPageSize
  }

  /**
   * What `validatePagination` answers, stated on values: an absent input
   * becomes `{first: defaultPageSize}`; an input is refused exactly when it
   * sets a conflicting pair or a negative cursor, always with code
   * `BAD_USER_INPUT`; otherwise the cursors are kept and each count is
   * filled next to its cursor, reset when at most zero and capped. The
   * default page size of an absent input is not capped.
   */
  function Validate(input: Option<PageArgs>, defaultPageSize: int, maxPageSize: int, decode: string -> Option<int>)
    : (r: Result<PageArgs, GraphQLError>)
    ensures input.None? ==> r == Ok(PageArgs(None, None, Num(defaultPageSize), Undefined))
    ensures r.Err? <==>
              input.Some? &&
              (Conflict(input.value) || BadCursor(input.value.before, decode) || BadCursor(input.value.after, decode))
    ensures r.Err? ==> "code" in r.error.extensions && r.error.extensions["code"] == Str(BadUserInput)
    ensures r.Err? && Conflict(input.value) ==> r.error.message == ConflictMessage
    ensures r.Err? && !Conflict(input.value) && BadCursor(input.value.before, decode) ==>
              r.error.message == InvalidBeforeCursor
    ensures r.Err? && !Conflict(input.value) && !BadCursor(input.value.before, decode) ==>
              r.error.message == InvalidAfterCursor
    ensures r.Ok? && input.Some? ==> r.value.before == input.value.before && r.value.after == input.value.after
    ensures r.Ok? && input.Some? ==>
              (r.value.first.Undefined? <==> input.value.first.Undefined? && !CursorSet(input.value.after)) &&
              (r.value.last.Undefined? <==> input.value.last.Undefined? && !CursorSet(input.value.before))
    ensures r.Ok? && input.Some? ==>
              r.value.first == if CursorSet(input.value.after) && !Truthy(input.value.first)
                               then Num(if defaultPageSize > maxPageSize then maxPageSize else defaultPageSize)
                               else Normalize(input.value.first, defaultPageSize, maxPageSize)
    ensures r.Ok? && input.Some? ==>
              r.value.last == if CursorSet(input.value.before) && !Truthy(input.value.last)
                              then Num(if defaultPageSize > maxPageSize then maxPageSize else defaultPageSize)
                              else Normalize(input.value.last, defaultPageSize, maxPageSize)
    ensures input.Some? && 0 < defaultPageSize && 0 < maxPageSize && r.Ok? ==>
              InRange(r.value.first, maxPageSize) && InRange(r.value.last, maxPageSize)
  {
    match input
    case None => Ok(PageArgs(None, None, Num(defaultPageSize), Undefined))
    case Some(p) =>
      if Conflict(p) then Err(UserInputError(ConflictMessage, ErrorOptions(None, None)))
      else if BadCursor(p.before, decode) then Err(CursorError(InvalidBeforeCursor))
      else if BadCursor(p.after, decode) then Err(CursorError(InvalidAfterCursor))
      else
        Ok(PageArgs(p.before, p.after,
                    Normalize(Fill(p.first, p.after, defaultPageSize), defaultPageSize, maxPageSize),
                    Normalize(Fill(p.last, p.before, defaultPageSize), defaultPageSize, maxPageSize)))
  }

  /**
   * `validatePagination` on the object itself: a null input yields a new
   * object; otherwise the input is updated in place, step by step, and
   * returned, or it is left untouched and an error is thrown.
   */
  method ValidatePagination(pagination: PaginationInput?, decode: string -> Option<int>,
                            defaultPageSize: int := DefaultPageSize, maxPageSize: int := MaxPageSize)
    returns (r: Result<PaginationInput, GraphQLError>)
    modifies pagination
    ensures pagination == null ==>
              r.Ok? && fresh(r.value) && Validate(None, defaultPageSize, maxPageSize, decode) == Ok(r.value.View())
    ensures pagination != null ==>
              Validate(Some(old(pagination.View())), defaultPageSize, maxPageSize, decode) ==
              (if r.Ok? then Ok(r.value.View()) else Err(r.error))
    ensures pagination != null && r.Ok? ==> r.value == pagination
    ensures pagination != null && r.Err? ==> unchanged(pagination)
  {
    if pagination == null {
      var created := new PaginationInput(None, None, Num(defaultPageSize), Undefined);
      return Ok(created);
    }
    if || (CursorSet(pagination.before) && CursorSet(pagination.after))
       || (CursorSet(pagination.before) && Truthy(pagination.first))
       || (Truthy(pagination.last) && CursorSet(pagination.after))
       || (Truthy(pagination.first) && Truthy(pagination.last))
    {
      return Err(UserInputError(ConflictMessage, ErrorOptions(None, None)));
    }
    if CursorSet(pagination.before) {
      var before := decode(pagination.before.value);
      if before.Some? && before.value < 0 {
        return Err(CursorError(InvalidBeforeCursor));
      }
      if !Truthy(pagination.last) {
        pagination.last := Num(defaultPageSize);
      }
    }
    if CursorSet(pagination.after) {
      var after := decode(pagination.after.value);
      if after.Some? && after.value < 0 {
        return Err(CursorError(InvalidAfterCursor));
      }
      if !Truthy(pagination.first) {
        pagination.first := Num(defaultPageSize);
      }
    }
    if AtMostZero(pagination.first) {
      pagination.first := Num(defaultPageSize);
    }
    if AtMostZero(pagination.last) {
      pagination.last := Num(defaultPageSize);
    }
    if Exceeds(pagination.first, maxPageSize) {
      pagination.first := Num(maxPageSize);
    }
    if Exceeds(pagination.last, maxPageSize) {
      pagination.last := Num(maxPageSize);
    }
    return Ok(pagination);
  }

  /**
   * As written, a falsy count (zero or `null`) escapes the conflict test
   * and is then reset to the default page size, so `{first: 0, last: 10}`
   * comes back as `{first: 30, last: 10}`: an answer the validator itself
   * refuses.
   */
  lemma ZeroCountComesBackConflicting(decode: string -> Option<int>)
    ensures var input := PageArgs(None, None, Num(0), Num(10));
            var r := Validate(Some(input), DefaultPageSize, MaxPageSize, decode);
            && r == Ok(PageArgs(None, None, Num(30), Num(10)))
            && Validate(Some(r.value), DefaultPageSize, MaxPageSize, decode).Err?
  {
    var input := PageArgs(None, None, Num(0), Num(10));
    assert !Conflict(input);
    assert Normalize(Fill(Num(0), None, 30), 30, 100) == Num(30);
    assert Conflict(PageArgs(None, None, Num(30), Num(10)));
  }

  /** The same with two explicit `null` counts: both come back as 30. */
  lemma NullCountsComeBackConflicting(decode: string -> Option<int>)
    ensures var input := PageArgs(None, None, Null, Null);
            var r := Validate(Some(input), DefaultPageSize, MaxPageSize, decode);
            && r == Ok(PageArgs(None, None, Num(30), Num(30)))
            && Validate(Some(r.value), DefaultPageSize, MaxPageSize, decode).Err?
  {
    var input := PageArgs(None, None, Null, Null);
    assert !Conflict(input);
    assert Conflict(PageArgs(None, None, Num(30), Num(30)));
  }

  /** A count is given when it is a number, whatever its value. */
  predicate Given(c: Count) {
    c.Num?
  }

  /**
   * The conflict test with counts judged by `Given` rather than by
   * truthiness: again a mix of the forward and the backward page.
   */
  predicate ConflictGiven(p: PageArgs)
    ensures ConflictGiven(p) <==>
              (CursorSet(p.after) || Given(p.first)) && (CursorSet(p.before) || Given(p.last))
  {
    || (CursorSet(p.before) && CursorSet(p.after))
    || (CursorSet(p.before) && Given(p.first))
    || (Given(p.last) && CursorSet(p.after))
    || (Given(p.first) && Given(p.last))
  }

  /** A number at most zero is reset, a number above the cap is capped; `null` and `undefined` stay. */
  function NormalizeGiven(count: Count, defaultPageSize: int, maxPageSize: int): (r: Count)
    ensures Given(r) <==> Given(count)
    ensures !count.Num? ==> r == count
    ensures count.Num? && 0 < count.n <= maxPageSize ==> r == count
    ensures count.Num? && count.n <= 0 ==>
              r == Num(if defaultPageSize > maxPageSize then maxPageSize else defaultPageSize)
    ensures count.Num? && count.n > 0 && count.n > maxPageSize ==> r == Num(maxPageSize)
    ensures 0 < defaultPageSize && 0 < maxPageSize && r.Num? ==> 0 < r.n <= maxPageSize
  {
    if !count.Num? then count
    else
      var reset := if count.n <= 0 then defaultPageSize else count.n;
      Num(if reset > maxPageSize then maxPageSize else reset)
  }

  /**
   * The validator with one notion of a count being set, used by the
   * conflict test, the fill step and the reset: only a number is set.
   */
  function ValidateGiven(p: PageArgs, defaultPageSize: int, maxPageSize: int, decode: string -> Option<int>)
    : (r: Result<PageArgs, GraphQLError>)
    ensures r.Err? <==> ConflictGiven(p) || BadCursor(p.before, decode) || BadCursor(p.after, decode)
    ensures r.Ok? ==> r.value.before == p.before && r.value.after == p.after
    ensures 0 < defaultPageSize && 0 < maxPageSize && r.Ok? ==>
              InRange(r.value.first, maxPageSize) && InRange(r.value.last, maxPageSize)
  {
    if ConflictGiven(p) then Err(UserInputError(ConflictMessage, ErrorOptions(None, None)))
    else if BadCursor(p.before, decode) then Err(CursorError(InvalidBeforeCursor))
    else if BadCursor(p.after, decode) then Err(CursorError(InvalidAfterCursor))
    else
      var first := if CursorSet(p.after) && !Given(p.first) then Num(defaultPageSize) else p.first;
      var last := if CursorSet(p.before) && !Given(p.last) then Num(defaultPageSize) else p.last;
      Ok(PageArgs(p.before, p.after,
                  NormalizeGiven(first, defaultPageSize, maxPageSize),
                  NormalizeGiven(last, defaultPageSize, maxPageSize)))
  }

  /**
   * With one notion of "set", an accepted input comes back conflict-free
   * and is accepted again unchanged: validation is idempotent.
   */
  lemma ValidateGivenIsIdempotent(p: PageArgs, defaultPageSize: int, maxPageSize: int, decode: string -> Option<int>)
    requires 0 < defaultPageSize && 0 < maxPageSize
    requires ValidateGiven(p, defaultPageSize, maxPageSize, decode).Ok?
    ensures var q := ValidateGiven(p, defaultPageSize, maxPageSize, decode).value;
            !ConflictGiven(q) && ValidateGiven(q, defaultPageSize, maxPageSize, decode) == Ok(q)
  {
  }
}
