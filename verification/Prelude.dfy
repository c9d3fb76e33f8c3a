// Option and Result, and the fold over a list of partial steps that the configuration
// import and several run-level theorems share.
module Prelude {
  datatype Option<+T> = None | Some(value: T)

  datatype Result<+T, +E> = Ok(value: T) | Err(error: E)

  // No two positions hold the same element.
  ghost predicate Distinct<T>(s: seq<T>) {
    forall i, j :: 0 <= i < j < |s| ==> s[i] != s[j]
  }

  lemma DistinctSnoc<T>(s: seq<T>, x: T)
    requires Distinct(s) && x !in s
    ensures Distinct(s + [x])
  {
    forall i, j | 0 <= i < j < |s + [x]| ensures (s + [x])[i] != (s + [x])[j] {
      assert (s + [x])[i] == s[i];
    }
  }

  // Applies step to each item from left to right and stops at the first failure.
  function FoldSteps<S, I, E>(step: (S, I) -> Result<S, E>, s: S, items: seq<I>): Result<S, E>
    decreases |items|
  {
    if items == [] then Ok(s)
    else
      match step(s, items[0])
      case Err(e) => Err(e)
      case Ok(s') => FoldSteps(step, s', items[1..])
  }

  lemma {:induction false} FoldAppend<S, I, E>(step: (S, I) -> Result<S, E>, s: S, xs: seq<I>, ys: seq<I>)
    ensures FoldSteps(step, s, xs + ys)
         == match FoldSteps(step, s, xs) case Err(e) => Err(e) case Ok(s') => FoldSteps(step, s', ys)
    decreases |xs|
  {
    if xs == [] {
      assert xs + ys == ys;
    } else {
      assert (xs + ys)[0] == xs[0] && (xs + ys)[1..] == xs[1..] + ys;
      match step(s, xs[0])
      case Err(_) =>
      case Ok(s') => FoldAppend(step, s', xs[1..], ys);
    }
  }

  lemma {:induction false} FoldSnoc<S, I, E>(step: (S, I) -> Result<S, E>, s: S, xs: seq<I>, x: I)
    ensures FoldSteps(step, s, xs + [x])
         == match FoldSteps(step, s, xs) case Err(e) => Err(e) case Ok(s') => step(s', x)
  {
    FoldAppend(step, s, xs, [x]);
    match FoldSteps(step, s, xs)
    case Err(_) =>
    case Ok(s') =>
      assert [x][1..] == [];
      match step(s', x)
      case Err(_) =>
      case Ok(s'') =>
  }
}
