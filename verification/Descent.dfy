/** Termination of a repeated step by a five-component lexicographic rank. */
module Descent {
  datatype Rank = Rank(first: nat, second: nat, third: nat, fourth: nat, fifth: nat)

  predicate Below(a: Rank, b: Rank) {
    || a.first < b.first
    || (a.first == b.first &&
        (|| a.second < b.second
         || (a.second == b.second &&
             (|| a.third < b.third
              || (a.third == b.third &&
                  (|| a.fourth < b.fourth
                   || (a.fourth == b.fourth && a.fifth < b.fifth)))))))
  }

  // The state after at most `steps` steps, stopping early at a state that is done.
  // The n-th step may depend on n.
  ghost function Iterate<S(!new)>(s: S, next: (nat, S) -> S, done: S -> bool, from: nat, steps: nat): S
    decreases steps
  {
    if steps == 0 || done(s) then s else Iterate(next(from, s), next, done, from + 1, steps - 1)
  }

  lemma {:induction false} ComesToRest<S(!new)>(s: S, r: Rank, rank: S -> Rank, good: iset<S>,
                                                next: (nat, S) -> S, done: S -> bool, from: nat)
    returns (steps: nat)
    requires s in good && r == rank(s)
    requires forall n: nat, t: S :: t in good && !done(t) ==>
               next(n, t) in good && Below(rank(next(n, t)), rank(t))
    ensures Iterate(s, next, done, from, steps) in good && done(Iterate(s, next, done, from, steps))
    decreases r.first, r.second, r.third, r.fourth, r.fifth
  {
    if done(s) {
      steps := 0;
    } else {
      var rest := ComesToRest(next(from, s), rank(next(from, s)), rank, good, next, done, from + 1);
      steps := rest + 1;
    }
  }

  // A set of states that steps do not leave is never left.
  lemma {:induction false} StaysIn<S(!new)>(s: S, good: iset<S>, next: (nat, S) -> S, done: S -> bool,
                                            from: nat, steps: nat)
    requires s in good && forall n: nat, t: S :: t in good && !done(t) ==> next(n, t) in good
    ensures Iterate(s, next, done, from, steps) in good
    decreases steps
  {
    if steps > 0 && !done(s) {
      StaysIn(next(from, s), good, next, done, from + 1, steps - 1);
    }
  }
}
