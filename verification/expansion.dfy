/** The list of expanded task ids kept by the task list and by the
    project-creation review: toggling removes every occurrence of a present
    id and appends an absent one. */
module Expansion {

  /** `xs` without any occurrence of `x`, other elements in their order. */
  function RemoveAll(xs: seq<string>, x: string): (r: seq<string>)
    ensures x !in r
    ensures forall y | y != x :: y in r <==> y in xs
    ensures |r| <= |xs|
    ensures |r| == |xs| <==> x !in xs
  {
    if xs == [] then []
    else if xs[0] == x then RemoveAll(xs[1..], x)
    else [xs[0]] + RemoveAll(xs[1..], x)
  }

  /** Removal keeps the order of what remains: it distributes over concatenation. */
  lemma {:induction false} RemoveAllAppend(a: seq<string>, b: seq<string>, x: string)
    ensures RemoveAll(a + b, x) == RemoveAll(a, x) + RemoveAll(b, x)
    decreases |a|
  {
    if a == [] {
      assert a + b == b;
    } else {
      assert (a + b)[1..] == a[1..] + b;
      RemoveAllAppend(a[1..], b, x);
    }
  }

  /** Removing an absent id changes nothing. */
  lemma {:induction false} RemoveAbsent(xs: seq<string>, x: string)
    requires x !in xs
    ensures RemoveAll(xs, x) == xs
    decreases |xs|
  {
    if xs != [] {
      assert x !in xs[1..];
      RemoveAbsent(xs[1..], x);
    }
  }

  /** Collapses a present id, expands an absent one. */
  function Toggle(expanded: seq<string>, id: string): (r: seq<string>)
    ensures id in r <==> id !in expanded
    ensures forall y | y != id :: y in r <==> y in expanded
    ensures id !in expanded ==>
      |r| == |expanded| + 1 && r[..|expanded|] == expanded && r[|expanded|] == id
  {
    if id in expanded then RemoveAll(expanded, id) else expanded + [id]
  }

  /** Toggling an initially absent id twice restores the list. */
  lemma ToggleTwiceRestores(expanded: seq<string>, id: string)
    requires id !in expanded
    ensures Toggle(Toggle(expanded, id), id) == expanded
  {
    assert id in expanded + [id];
    RemoveAllAppend(expanded, [id], id);
    RemoveAbsent(expanded, id);
    assert RemoveAll([id], id) == [];
  }
}
