/** Runs of a step function and what carries over from steps to runs. */
module Machine {

  function Run<S, A>(step: (S, A) -> S, s: S, schedule: seq<A>): S
    decreases |schedule|
  {
    if schedule == [] then s else Run(step, step(s, schedule[0]), schedule[1..])
  }

  lemma {:induction false} RunConcat<S, A>(step: (S, A) -> S, s: S, a: seq<A>, b: seq<A>)
    ensures Run(step, s, a + b) == Run(step, Run(step, s, a), b)
    decreases |a|
  {
    if a == [] {
      assert a + b == b;
    } else {
      assert (a + b)[1..] == a[1..] + b;
      RunConcat(step, step(s, a[0]), a[1..], b);
    }
  }

  /** A schedule that starts with `a`. */
  lemma Before<S, A>(step: (S, A) -> S, s: S, a: A, tail: seq<A>)
    ensures Run(step, s, [a] + tail) == Run(step, step(s, a), tail)
  {
    assert ([a] + tail)[1..] == tail;
  }

  /** A schedule that ends with `a`. */
  lemma Then<S, A>(step: (S, A) -> S, s: S, schedule: seq<A>, a: A)
    ensures Run(step, s, schedule + [a]) == step(Run(step, s, schedule), a)
  {
    RunConcat(step, s, schedule, [a]);
    Before(step, Run(step, s, schedule), a, []);
    assert [a] + [] == [a];
  }

  /** One more step of a given schedule. */
  lemma Next<S, A>(step: (S, A) -> S, s: S, schedule: seq<A>, i: nat)
    requires i < |schedule|
    ensures Run(step, s, schedule[..i + 1]) == step(Run(step, s, schedule[..i]), schedule[i])
  {
    Then(step, s, schedule[..i], schedule[i]);
    assert schedule[..i + 1] == schedule[..i] + [schedule[i]];
  }

  lemma {:induction false} RunKeeps<S(!new), A(!new)>(step: (S, A) -> S, inv: S -> bool, s: S, schedule: seq<A>)
    requires inv(s) && forall x, a :: inv(x) ==> inv(step(x, a))
    ensures inv(Run(step, s, schedule))
    decreases |schedule|
  {
    if schedule != [] {
      RunKeeps(step, inv, step(s, schedule[0]), schedule[1..]);
    }
  }

  /** The invariant holds at every point of a run none of whose steps is bad. */
  lemma {:induction false} RunKeepsUnless<S(!new), A(!new)>(step: (S, A) -> S, inv: S -> bool, bad: (S, A) -> bool,
                                                            s: S, schedule: seq<A>, n: nat)
    requires n <= |schedule| && inv(s) && forall x, a :: inv(x) && !bad(x, a) ==> inv(step(x, a))
    requires forall i :: 0 <= i < |schedule| ==> !bad(Run(step, s, schedule[..i]), schedule[i])
    ensures inv(Run(step, s, schedule[..n]))
    decreases n
  {
    if n > 0 {
      RunKeepsUnless(step, inv, bad, s, schedule, n - 1);
      Next(step, s, schedule, n - 1);
    }
  }

  // ----- how long a run can go on -----

  /** How many steps of the schedule have an effect. */
  function Effective<S(==), A>(step: (S, A) -> S, s: S, schedule: seq<A>): nat
    decreases |schedule|
  {
    if schedule == [] then 0
    else (if step(s, schedule[0]) == s then 0 else 1) + Effective(step, step(s, schedule[0]), schedule[1..])
  }

  /** What the schedule feeds into the machine from outside. */
  function Work<A>(cost: A -> nat, schedule: seq<A>): nat
    decreases |schedule|
  {
    if schedule == [] then 0 else cost(schedule[0]) + Work(cost, schedule[1..])
  }

  /** If every effective step lowers the rank, apart from what it feeds in, then the number of effective
      steps is bounded by the rank and the work. */
  lemma {:induction false} RankBounds<S(!new), A(!new)>(step: (S, A) -> S, inv: S -> bool, rank: S -> nat,
                                                        cost: A -> nat, s: S, schedule: seq<A>)
    requires inv(s) && forall x, a :: inv(x) ==> inv(step(x, a))
    requires forall x, a :: inv(x) && step(x, a) != x ==> rank(step(x, a)) < rank(x) + cost(a)
    ensures Effective(step, s, schedule) <= rank(s) + Work(cost, schedule)
    decreases |schedule|
  {
    if schedule != [] {
      RankBounds(step, inv, rank, cost, step(s, schedule[0]), schedule[1..]);
    }
  }

  // ----- what single steps of a run amount to -----

  /** What the steps of a run cost, each in the state it meets. */
  function Spent<S, A>(step: (S, A) -> S, cost: (S, A) -> nat, s: S, schedule: seq<A>): nat
    decreases |schedule|
  {
    if schedule == [] then 0
    else cost(s, schedule[0]) + Spent(step, cost, step(s, schedule[0]), schedule[1..])
  }

  function CostAt<S, A>(step: (S, A) -> S, cost: (S, A) -> nat, s: S, schedule: seq<A>, i: nat): nat
    requires i < |schedule|
  {
    cost(Run(step, s, schedule[..i]), schedule[i])
  }

  /** A run costs something exactly when one of its steps does. */
  lemma {:induction false} SomeStepCosts<S, A>(step: (S, A) -> S, cost: (S, A) -> nat, s: S, schedule: seq<A>)
    ensures Spent(step, cost, s, schedule) > 0 <==>
      exists i :: 0 <= i < |schedule| && CostAt(step, cost, s, schedule, i) > 0
    decreases |schedule|
  {
    if schedule != [] {
      var rest, s' := schedule[1..], step(s, schedule[0]);
      SomeStepCosts(step, cost, s', rest);
      assert CostAt(step, cost, s, schedule, 0) == cost(s, schedule[0]);
      forall i | 0 <= i < |rest|
        ensures CostAt(step, cost, s', rest, i) == CostAt(step, cost, s, schedule, i + 1)
      {
        assert schedule[..i + 1][1..] == rest[..i];
      }
      if i :| 0 <= i < |schedule| && CostAt(step, cost, s, schedule, i) > 0 {
        assert i > 0 ==> CostAt(step, cost, s', rest, i - 1) > 0;
      }
      if i :| 0 <= i < |rest| && CostAt(step, cost, s', rest, i) > 0 {
        assert CostAt(step, cost, s, schedule, i + 1) > 0;
      }
    }
  }

  /** If every step raises `value` by its cost, a run raises it by what it spent. */
  lemma {:induction false} SpentAdds<S(!new), A(!new)>(step: (S, A) -> S, cost: (S, A) -> nat, inv: S -> bool,
                                                       value: S -> nat, s: S, schedule: seq<A>)
    requires inv(s) && forall x, a :: inv(x) ==> inv(step(x, a))
    requires forall x, a :: inv(x) ==> value(step(x, a)) == value(x) + cost(x, a)
    ensures value(Run(step, s, schedule)) == value(s) + Spent(step, cost, s, schedule)
    decreases |schedule|
  {
    if schedule != [] {
      SpentAdds(step, cost, inv, value, step(s, schedule[0]), schedule[1..]);
    }
  }

  /** As RankBounds, where what a step feeds in may depend on the state it meets. */
  lemma {:induction false} RankBoundsAt<S(!new), A(!new)>(step: (S, A) -> S, inv: S -> bool, rank: S -> nat,
                                                          cost: (S, A) -> nat, s: S, schedule: seq<A>)
    requires inv(s) && forall x, a :: inv(x) ==> inv(step(x, a))
    requires forall x, a :: inv(x) && step(x, a) != x ==> rank(step(x, a)) < rank(x) + cost(x, a)
    ensures Effective(step, s, schedule) <= rank(s) + Spent(step, cost, s, schedule)
    decreases |schedule|
  {
    if schedule != [] {
      RankBoundsAt(step, inv, rank, cost, step(s, schedule[0]), schedule[1..]);
    }
  }

  // ----- sums -----

  function Total(f: nat -> nat, n: nat): nat { if n == 0 then 0 else Total(f, n - 1) + f(n - 1) }

  lemma {:induction false} TotalChange(f: nat -> nat, g: nat -> nat, n: nat, i: nat)
    requires i < n && forall k: nat :: k < n && k != i ==> f(k) == g(k)
    ensures Total(g, n) + f(i) == Total(f, n) + g(i)
  {
    if i == n - 1 {
      TotalSame(f, g, n - 1);
    } else {
      TotalChange(f, g, n - 1, i);
    }
  }

  lemma {:induction false} TotalSame(f: nat -> nat, g: nat -> nat, n: nat)
    requires forall k: nat :: k < n ==> f(k) == g(k)
    ensures Total(f, n) == Total(g, n)
  {
    if n > 0 {
      TotalSame(f, g, n - 1);
    }
  }
}
