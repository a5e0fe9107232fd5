/** Sequences of steps of a partial transition function. */
module Paths {
  import opened Wrappers

  ghost predicate Path<S, A>(next: (S, A) -> Option<S>, s: S, steps: seq<A>, last: S)
    decreases |steps|
  {
    if steps == [] then last == s
    else next(s, steps[0]).Some? && Path(next, next(s, steps[0]).value, steps[1..], last)
  }

  lemma {:induction false} PathConcat<S, A>(next: (S, A) -> Option<S>, a: S, first: seq<A>, b: S, second: seq<A>, c: S)
    requires Path(next, a, first, b) && Path(next, b, second, c)
    ensures Path(next, a, first + second, c)
    decreases |first|
  {
    if first == [] {
      assert first + second == second;
    } else {
      PathConcat(next, next(a, first[0]).value, first[1..], b, second, c);
      assert (first + second)[1..] == first[1..] + second;
    }
  }

  lemma {:induction false} PathExtend<S, A>(next: (S, A) -> Option<S>, a: S, steps: seq<A>, b: S, step: A)
    requires Path(next, a, steps, b) && next(b, step).Some?
    ensures Path(next, a, steps + [step], next(b, step).value)
  {
    assert [step][1..] == [];
    PathConcat(next, a, steps, b, [step], next(b, step).value);
  }
}
