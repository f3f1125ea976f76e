/** First-occurrence search in a sequence, as JavaScript's `Array.prototype.find`
    and `indexOf` do it: left to right, stopping at the first match. */
module Search {
  import opened Options

  function IndexOf<T(==)>(xs: seq<T>, x: T): (r: Option<nat>)
    ensures r.Some? ==> r.value < |xs| && xs[r.value] == x
    ensures r.Some? ==> forall j :: 0 <= j < r.value ==> xs[j] != x
    ensures r.None? <==> x !in xs
  {
    if xs == [] then None
    else if xs[0] == x then Some(0)
    else match IndexOf(xs[1..], x)
      case None => None
      case Some(i) => Some(i + 1)
  }

  /** Appending never changes where an element already present is found, and
      an element first seen at the end is found there. */
  lemma {:induction false} IndexOfAppend<T>(xs: seq<T>, y: T, x: T)
    ensures IndexOf(xs + [y], x) ==
      if x in xs then IndexOf(xs, x)
      else if y == x then Some(|xs|)
      else None
  {
    if xs != [] && xs[0] != x {
      assert (xs + [y])[1..] == xs[1..] + [y];
      IndexOfAppend(xs[1..], y, x);
    }
  }
}
