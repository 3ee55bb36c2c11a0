/**
 Runs of a system in which each actor has at most one step at a time, and what follows when the steps
 of different actors commute.
 */
module Confluence {
  import opened Identities

  /** What an actor's step leads to; None when the actor cannot step. */
  type Stepper<!S, !A> = (S, A) -> Maybe<S>

  /** A schedule names the actor that steps next. */
  predicate Runs<S, A>(step: Stepper<S, A>, s: S, schedule: seq<A>)
    decreases |schedule|
  {
    schedule == [] ||
    (step(s, schedule[0]).Some? && Runs(step, step(s, schedule[0]).value, schedule[1..]))
  }

  function After<S, A>(step: Stepper<S, A>, s: S, schedule: seq<A>): S
    requires Runs(step, s, schedule)
    decreases |schedule|
  {
    if schedule == [] then s else After(step, step(s, schedule[0]).value, schedule[1..])
  }

  ghost predicate Stuck<S, A(!new)>(step: Stepper<S, A>, s: S) {
    forall a :: step(s, a).None?
  }

  /** Every step keeps `inv`. */
  ghost predicate Keeps<S(!new), A(!new)>(step: Stepper<S, A>, inv: S -> bool) {
    forall s, a | inv(s) && step(s, a).Some? :: inv(step(s, a).value)
  }

  /** In states with `inv`, steps of different actors commute. */
  ghost predicate Commutes<S(!new), A(!new)>(step: Stepper<S, A>, inv: S -> bool) {
    forall s, a, b | inv(s) && a != b && step(s, a).Some? && step(s, b).Some? ::
      && step(step(s, a).value, b).Some?
      && step(step(s, b).value, a).Some?
      && step(step(s, a).value, b).value == step(step(s, b).value, a).value
  }

  lemma {:induction false} RunKeeps<S(!new), A(!new)>(step: Stepper<S, A>, inv: S -> bool, s: S, schedule: seq<A>)
    requires Keeps(step, inv) && inv(s) && Runs(step, s, schedule)
    ensures inv(After(step, s, schedule))
    decreases |schedule|
  {
    if schedule != [] {
      RunKeeps(step, inv, step(s, schedule[0]).value, schedule[1..]);
    }
  }

  lemma RunCons<S, A>(step: Stepper<S, A>, s: S, s': S, schedule: seq<A>)
    requires schedule != [] && step(s, schedule[0]) == Some(s') && Runs(step, s', schedule[1..])
    ensures Runs(step, s, schedule) && After(step, s, schedule) == After(step, s', schedule[1..])
  {
  }

  lemma RunFirst<S, A>(step: Stepper<S, A>, s: S, s': S, first: A, rest: seq<A>)
    requires step(s, first) == Some(s') && Runs(step, s', rest)
    ensures Runs(step, s, [first] + rest) && After(step, s, [first] + rest) == After(step, s', rest)
  {
    assert ([first] + rest)[1..] == rest;
  }

  lemma RunOne<S, A>(step: Stepper<S, A>, s: S, s': S, action: A)
    requires step(s, action) == Some(s')
    ensures Runs(step, s, [action]) && After(step, s, [action]) == s'
  {
    assert [action][1..] == [];
  }

  lemma {:induction false} RunAppend<S, A>(step: Stepper<S, A>, s: S, a: seq<A>, b: seq<A>)
    requires Runs(step, s, a) && Runs(step, After(step, s, a), b)
    ensures Runs(step, s, a + b)
    ensures After(step, s, a + b) == After(step, After(step, s, a), b)
    decreases |a|
  {
    if a == [] {
      assert a + b == b;
    } else {
      RunAppend(step, step(s, a[0]).value, a[1..], b);
      assert (a + b)[0] == a[0] && (a + b)[1..] == a[1..] + b;
    }
  }

  lemma {:induction false} RunSplit<S, A>(step: Stepper<S, A>, s: S, a: seq<A>, b: seq<A>)
    requires Runs(step, s, a + b)
    ensures Runs(step, s, a) && Runs(step, After(step, s, a), b)
    decreases |a|
  {
    if a == [] {
      assert a + b == b;
    } else {
      assert (a + b)[0] == a[0] && (a + b)[1..] == a[1..] + b;
      RunSplit(step, step(s, a[0]).value, a[1..], b);
    }
  }

  /** A run up to a step, that step, and the run after it. */
  lemma {:induction false} RunAt<S, A>(step: Stepper<S, A>, s: S, schedule: seq<A>, i: nat) returns (s': S)
    requires Runs(step, s, schedule) && i < |schedule|
    ensures Runs(step, s, schedule[..i]) && s' == After(step, s, schedule[..i])
    ensures step(s', schedule[i]).Some?
    ensures Runs(step, step(s', schedule[i]).value, schedule[i + 1..])
    decreases i
  {
    if i == 0 {
      s' := s;
    } else {
      s' := RunAt(step, step(s, schedule[0]).value, schedule[1..], i - 1);
      assert schedule[..i][1..] == schedule[1..][..i - 1];
      assert schedule[1..][i..] == schedule[i + 1..];
    }
  }

  /** Stepping one actor early: the rest of the schedule is the old one without that actor's next step. */
  lemma {:induction false} Strip<S(!new), A(!new)>(step: Stepper<S, A>, inv: S -> bool, s: S, a: A, schedule: seq<A>)
    returns (rest: seq<A>)
    requires Keeps(step, inv) && Commutes(step, inv) && inv(s)
    requires step(s, a).Some? && Runs(step, s, schedule) && Stuck(step, After(step, s, schedule))
    ensures |rest| == |schedule| - 1
    ensures Runs(step, step(s, a).value, rest)
    ensures After(step, step(s, a).value, rest) == After(step, s, schedule)
    decreases |schedule|
  {
    if schedule == [] {
      assert false;
    } else if schedule[0] == a {
      rest := schedule[1..];
    } else {
      var b := schedule[0];
      var tail := Strip(step, inv, step(s, b).value, a, schedule[1..]);
      rest := [b] + tail;
      assert rest[1..] == tail;
    }
  }

  /**
   If one schedule gets stuck, every schedule can be completed to the same end, in exactly as many steps
   as it lacks: no schedule is longer, none gets stuck earlier, none ends elsewhere.
   */
  lemma {:induction false} Join<S(!new), A(!new)>(step: Stepper<S, A>, inv: S -> bool, s: S, schedule: seq<A>,
      other: seq<A>)
    returns (rest: seq<A>)
    requires Keeps(step, inv) && Commutes(step, inv) && inv(s)
    requires Runs(step, s, schedule) && Stuck(step, After(step, s, schedule))
    requires Runs(step, s, other)
    ensures |other| + |rest| == |schedule|
    ensures Runs(step, After(step, s, other), rest)
    ensures After(step, After(step, s, other), rest) == After(step, s, schedule)
    decreases |other|
  {
    if other == [] {
      rest := schedule;
    } else {
      var tail := Strip(step, inv, s, other[0], schedule);
      rest := Join(step, inv, step(s, other[0]).value, tail, other[1..]);
    }
  }
}
