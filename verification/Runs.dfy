/** Runs of a transition system given by a partial step function. */
module Runs {
  import opened Errors

  function Exec<S, T>(next: (S, T) -> Option<S>, s: S, steps: seq<T>): Option<S>
    decreases |steps|
  {
    if steps == [] then Some(s)
    else match next(s, steps[0])
      case None => None
      case Some(s') => Exec(next, s', steps[1..])
  }

  ghost predicate Reaches<S, T(!new)>(next: (S, T) -> Option<S>, s: S, s': S) {
    exists steps :: Exec(next, s, steps) == Some(s')
  }

  lemma {:induction false} ExecConcat<S, T>(next: (S, T) -> Option<S>, s: S, a: seq<T>, b: seq<T>)
    requires Exec(next, s, a).Some?
    ensures Exec(next, s, a + b) == Exec(next, Exec(next, s, a).value, b)
    decreases |a|
  {
    if a == [] {
      assert a + b == b;
    } else {
      assert (a + b)[1..] == a[1..] + b;
      ExecConcat(next, next(s, a[0]).value, a[1..], b);
    }
  }

  lemma ReachesItself<S, T(!new)>(next: (S, T) -> Option<S>, s: S)
    ensures Reaches(next, s, s)
  {
    assert Exec(next, s, []) == Some(s);
  }

  lemma ReachesOn<S, T(!new)>(next: (S, T) -> Option<S>, s: S, s': S, steps: seq<T>)
    requires Reaches(next, s, s') && Exec(next, s', steps).Some?
    ensures Reaches(next, s, Exec(next, s', steps).value)
  {
    var before :| Exec(next, s, before) == Some(s');
    ExecConcat(next, s, before, steps);
  }

  lemma OneStep<S, T>(next: (S, T) -> Option<S>, s: S, step: T)
    ensures Exec(next, s, [step]) == next(s, step)
  {
    assert [step][1..] == [];
    if next(s, step).Some? {
      assert Exec(next, next(s, step).value, []) == next(s, step);
    }
  }

  lemma ReachesNext<S, T(!new)>(next: (S, T) -> Option<S>, s: S, s': S, step: T)
    requires Reaches(next, s, s') && next(s', step).Some?
    ensures Reaches(next, s, next(s', step).value)
  {
    OneStep(next, s', step);
    ReachesOn(next, s, s', [step]);
  }

  lemma Extend<S, T(!new)>(next: (S, T) -> Option<S>, s: S, s': S, step: T) returns (s'': S)
    requires Reaches(next, s, s') && next(s', step).Some?
    ensures s'' == next(s', step).value && Reaches(next, s, s'')
  {
    s'' := next(s', step).value;
    ReachesNext(next, s, s', step);
  }

  /** These steps lead from s to s'. */
  ghost predicate Along<S, T>(next: (S, T) -> Option<S>, s: S, steps: seq<T>, s': S) {
    Exec(next, s, steps) == Some(s')
  }

  lemma Append<S, T>(next: (S, T) -> Option<S>, s: S, steps: seq<T>, s': S, step: T) returns (more: seq<T>, s'': S)
    requires Along(next, s, steps, s') && next(s', step).Some?
    ensures s'' == next(s', step).value && Along(next, s, more, s'')
  {
    more, s'' := steps + [step], next(s', step).value;
    ExecConcat(next, s, steps, [step]);
    OneStep(next, s', step);
  }

  lemma Joined<S, T>(next: (S, T) -> Option<S>, s: S, a: seq<T>, s1: S, b: seq<T>, s2: S)
    requires Along(next, s, a, s1) && Along(next, s1, b, s2)
    ensures Along(next, s, a + b, s2)
  {
    ExecConcat(next, s, a, b);
  }

  lemma TwoSteps<S, T>(next: (S, T) -> Option<S>, s: S, a: T, s1: S, b: T, s2: S)
    requires next(s, a) == Some(s1) && next(s1, b) == Some(s2)
    ensures Along(next, s, [a] + [b], s2)
  {
    OneStep(next, s, a);
    OneStep(next, s1, b);
    Joined(next, s, [a], s1, [b], s2);
  }

  ghost predicate Keeps<S(!new), T(!new)>(next: (S, T) -> Option<S>, inv: S -> bool) {
    forall s, step :: inv(s) && next(s, step).Some? ==> inv(next(s, step).value)
  }

  lemma {:induction false} ExecKeeps<S(!new), T(!new)>(next: (S, T) -> Option<S>, inv: S -> bool, s: S, steps: seq<T>)
    requires Keeps(next, inv) && inv(s) && Exec(next, s, steps).Some?
    ensures inv(Exec(next, s, steps).value)
    decreases |steps|
  {
    if steps != [] {
      ExecKeeps(next, inv, next(s, steps[0]).value, steps[1..]);
    }
  }

  lemma ReachesKeeps<S(!new), T(!new)>(next: (S, T) -> Option<S>, inv: S -> bool, s: S, s': S)
    requires Keeps(next, inv) && inv(s) && Reaches(next, s, s')
    ensures inv(s')
  {
    var steps :| Exec(next, s, steps) == Some(s');
    ExecKeeps(next, inv, s, steps);
  }
}
