/** Finite runs of a deterministic step function that may refuse a step. */
module Runs {
  import opened Options

  function Exec<S, A>(next: (S, A) -> Option<S>, s: S, acts: seq<A>): Option<S>
    decreases |acts|
  {
    if acts == [] then Some(s)
    else
      var t := next(s, acts[0]);
      if t.None? then None else Exec(next, t.value, acts[1..])
  }

  lemma Prepend<S, A>(next: (S, A) -> Option<S>, s: S, a: A, t: S, rest: seq<A>)
    requires next(s, a) == Some(t)
    ensures Exec(next, s, [a] + rest) == Exec(next, t, rest)
  {
    assert ([a] + rest)[1..] == rest;
  }

  lemma One<S, A>(next: (S, A) -> Option<S>, s: S, a: A, t: S)
    requires next(s, a) == Some(t)
    ensures Exec(next, s, [a]) == Some(t)
  {
    Prepend(next, s, a, t, []);
    assert [a] + [] == [a];
  }

  lemma Two<S, A>(next: (S, A) -> Option<S>, s: S, a: A, t: S, b: A, u: S)
    requires next(s, a) == Some(t) && next(t, b) == Some(u)
    ensures Exec(next, s, [a, b]) == Some(u)
  {
    Prepend(next, s, a, t, [b]);
    One(next, t, b, u);
    assert [a] + [b] == [a, b];
  }

  lemma {:induction false} Concat<S, A>(next: (S, A) -> Option<S>, s: S, first: seq<A>, rest: seq<A>, mid: S)
    requires Exec(next, s, first) == Some(mid)
    ensures Exec(next, s, first + rest) == Exec(next, mid, rest)
    decreases |first|
  {
    if first == [] {
      assert first + rest == rest;
    } else {
      Concat(next, next(s, first[0]).value, first[1..], rest, mid);
      assert (first + rest)[1..] == first[1..] + rest;
    }
  }
}
