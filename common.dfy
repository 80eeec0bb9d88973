/** Values shared by every part of the model: optional values, results with an error,
    the JavaScript `x || default` fallbacks, loosely typed list inputs and raw roster
    entries as they arrive from clients or from the document store. */
module Common {

  datatype Option<T> = None | Some(value: T)

  /** Either a value or the error the JavaScript code throws. */
  datatype Result<T, E> = Ok(value: T) | Err(error: E)

  /** An operation that either completes or throws (it returns nothing of interest). */
  datatype Outcome<E> = Pass | Fail(error: E)

  /** `v || d` for a string field: an absent value and the empty string are falsy. */
  function StrOr(v: Option<string>, d: string): (r: string)
    ensures v.Some? && v.value != "" ==> r == v.value
    ensures v.None? || v.value == "" ==> r == d
  {
    if v.Some? && v.value != "" then v.value else d
  }

  /** `v || d` for a numeric field: an absent value and 0 are falsy. */
  function NumOr(v: Option<int>, d: int): (r: int)
    ensures v.Some? && v.value != 0 ==> r == v.value
    ensures v.None? || v.value == 0 ==> r == d
  {
    if v.Some? && v.value != 0 then v.value else d
  }

  /** A field of `{ ...record, ...patch }`: the patch's value when it carries one. */
  function Pick<T>(v: Option<T>, d: T): T {
    if v.Some? then v.value else d
  }

  /** What a field that should hold an array may hold: nothing (or another falsy value,
      which `|| []` replaces by the empty list), a truthy non-array, or an array. */
  datatype ListInput<T> = Missing | NotAList | List(items: seq<T>)

  /** `v || []`. */
  function OrEmpty<T>(v: ListInput<T>): ListInput<T> {
    if v.Missing? then List([]) else v
  }

  /** The fields the schemas' `validatePlayers` read from each roster entry. */
  datatype RawPlayer = RawPlayer(username: string, status: Option<string>, joinedAt: Option<string>)

  /** The decimal rendering of a natural number, as JavaScript's template strings print it. */
  function Decimal(n: nat): (s: string)
    ensures |s| > 0
    ensures forall i :: 0 <= i < |s| ==> '0' <= s[i] <= '9'
  {
    var digit := [(('0' as int) + n % 10) as char];
    if n < 10 then digit else Decimal(n / 10) + digit
  }
}
