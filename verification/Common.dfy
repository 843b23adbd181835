/** Shared result types and the sequence functions that several components count with. */
module Common {

  datatype Option<+T> = None | Some(value: T)

  datatype Result<+T, +E> = Ok(value: T) | Err(error: E)

  type byte = x: int | 0 <= x < 256

  /** Concatenation of a list of sequences. */
  function Flatten<T>(xs: seq<seq<T>>): seq<T> {
    if xs == [] then [] else xs[0] + Flatten(xs[1..])
  }

  /** Total weight of a sequence. */
  function Sum<T>(xs: seq<T>, w: T -> nat): nat {
    if xs == [] then 0 else Sum(xs[..|xs| - 1], w) + w(xs[|xs| - 1])
  }

  lemma SumAppend<T>(xs: seq<T>, x: T, w: T -> nat)
    ensures Sum(xs + [x], w) == Sum(xs, w) + w(x)
  {
    assert (xs + [x])[..|xs|] == xs;
  }

  lemma {:induction false} SumUpdate<T>(xs: seq<T>, i: nat, x: T, w: T -> nat)
    requires i < |xs|
    ensures Sum(xs[i := x], w) == Sum(xs, w) - w(xs[i]) + w(x)
  {
    var ys := xs[i := x];
    var n := |xs| - 1;
    if i == n {
      assert ys[..n] == xs[..n];
    } else {
      assert ys[..n] == xs[..n][i := x];
      SumUpdate(xs[..n], i, x, w);
    }
  }

  lemma {:induction false} SumZero<T>(xs: seq<T>, w: T -> nat)
    ensures Sum(xs, w) == 0 <==> forall i :: 0 <= i < |xs| ==> w(xs[i]) == 0
  {
    if xs != [] {
      var n := |xs| - 1;
      SumZero(xs[..n], w);
      assert forall i :: 0 <= i < n ==> xs[..n][i] == xs[i];
    }
  }

  // ---- runs of a transition system ----

  /** The state after a schedule of actions, None when an action of it is not enabled. */
  function Run<S, A>(step: (S, A) -> Option<S>, s: S, schedule: seq<A>): Option<S> {
    if schedule == [] then Some(s)
    else
      match step(s, schedule[0])
      case None => None
      case Some(s') => Run(step, s', schedule[1..])
  }

  /** What every enabled action keeps holds after every schedule. */
  lemma {:induction false} RunKeeps<S(!new), A(!new)>(
    step: (S, A) -> Option<S>, inv: S -> bool, s: S, schedule: seq<A>)
    requires inv(s) && Run(step, s, schedule).Some?
    requires forall x, a :: inv(x) && step(x, a).Some? ==> inv(step(x, a).value)
    ensures inv(Run(step, s, schedule).value)
  {
    if schedule != [] {
      RunKeeps(step, inv, step(s, schedule[0]).value, schedule[1..]);
    }
  }

  lemma {:induction false} RunAppend<S, A>(step: (S, A) -> Option<S>, s: S, first: seq<A>, rest: seq<A>)
    ensures Run(step, s, first + rest)
         == match Run(step, s, first) case None => None case Some(s') => Run(step, s', rest)
  {
    if first == [] {
      assert first + rest == rest;
    } else {
      assert (first + rest)[0] == first[0] && (first + rest)[1..] == first[1..] + rest;
      if step(s, first[0]).Some? { RunAppend(step, step(s, first[0]).value, first[1..], rest); }
    }
  }

  lemma RunOne<S, A>(step: (S, A) -> Option<S>, s: S, a: A)
    ensures Run(step, s, [a]) == step(s, a)
  {
    if step(s, a).Some? { assert Run(step, step(s, a).value, [a][1..]) == step(s, a); }
  }

  lemma RunTwo<S, A>(step: (S, A) -> Option<S>, s: S, a: A, b: A)
    ensures Run(step, s, [a, b]) == match step(s, a) case None => None case Some(s1) => step(s1, b)
  {
    assert [a, b][1..] == [b];
    if step(s, a).Some? { RunOne(step, step(s, a).value, b); }
  }
}
