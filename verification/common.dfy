/** Small shared vocabulary: optional values and record identifiers. */
module Common {

  /** An optional value: a field or request key that may be absent (`undefined`). */
  datatype Option<+T> = None | Some(value: T)

  /** A document identifier (a Mongo ObjectId), modelled as a natural number. */
  type Id = nat

  /** A point in time, in milliseconds since the epoch. */
  type Millis = int

  /** Mongoose's `required` check on a String path: present and not the empty string. */
  predicate Present(s: Option<string>)
  {
    s.Some? && s.value != ""
  }

  function Max(a: int, b: int): int
  {
    if a < b then b else a
  }

  function Min(a: int, b: int): int
  {
    if a < b then a else b
  }

  /** The position of the first element satisfying `p`, as Mongo's `findOne` picks its match. */
  function FindFirst<T>(xs: seq<T>, p: T -> bool): (r: Option<nat>)
    ensures r.None? <==> forall i :: 0 <= i < |xs| ==> !p(xs[i])
    ensures r.Some? ==> r.value < |xs| && p(xs[r.value])
    ensures r.Some? ==> forall i :: 0 <= i < r.value ==> !p(xs[i])
  {
    if xs == [] then None
    else if p(xs[0]) then Some(0)
    else
      var rest := FindFirst(xs[1..], p);
      if rest.None? then None else Some(rest.value + 1)
  }
}
