/** Optional values and results, and an edit applied to the matching
    elements of a sequence, shared by the task and agent models. */
module Wrappers {

  /** An optional value: JavaScript's `null`/`undefined` versus a present value. */
  datatype Option<+T> = None | Some(value: T)

  /** A value or an error message, used where the source throws. */
  datatype Result<+T, +E> = Success(value: T) | Failure(error: E)

  /** The `xs.map(x => matches(x) ? edit(x) : x)` idiom the source uses to
      rebuild a list with some entries replaced. */
  function MapWhere<T>(xs: seq<T>, matches: T -> bool, edit: T -> T): (r: seq<T>)
    ensures |r| == |xs|
    ensures forall i | 0 <= i < |xs| :: matches(xs[i]) ==> r[i] == edit(xs[i])
    ensures forall i | 0 <= i < |xs| :: !matches(xs[i]) ==> r[i] == xs[i]
  {
    if xs == [] then []
    else [if matches(xs[0]) then edit(xs[0]) else xs[0]] + MapWhere(xs[1..], matches, edit)
  }

  /** When nothing matches, the rebuilt list equals the original one. */
  lemma MapWhereNoMatch<T>(xs: seq<T>, matches: T -> bool, edit: T -> T)
    requires forall i | 0 <= i < |xs| :: !matches(xs[i])
    ensures MapWhere(xs, matches, edit) == xs
  {
    var r := MapWhere(xs, matches, edit);
    assert forall i | 0 <= i < |xs| :: r[i] == xs[i];
  }
}
