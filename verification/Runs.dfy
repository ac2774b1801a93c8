/** Runs of any state machine, given by its relation between a state and the next one. */
module Runs {

  /** A run of `n` steps leads from `s` to `s'`. */
  ghost predicate Leads<S(!new)>(next: (S, S) -> bool, s: S, s': S, n: nat)
    decreases n
  {
    if n == 0 then s' == s else exists mid: S :: Leads(next, s, mid, n - 1) && next(mid, s')
  }

  /** `s'` is a later state of a run through `s`. */
  ghost predicate Later<S(!new)>(next: (S, S) -> bool, s: S, s': S) {
    exists n: nat :: Leads(next, s, s', n)
  }

  lemma {:induction false} LeadsInduction<S(!new)>(next: (S, S) -> bool, p: S -> bool, s: S, s': S, n: nat)
    requires Leads(next, s, s', n)
    requires p(s)
    requires forall x, y :: p(x) && next(x, y) ==> p(y)
    ensures p(s')
    decreases n
  {
    if n > 0 {
      var mid: S :| Leads(next, s, mid, n - 1) && next(mid, s');
      LeadsInduction(next, p, s, mid, n - 1);
    }
  }

  /** What holds of `s` and is kept by every step holds of every later state. */
  lemma Induction<S(!new)>(next: (S, S) -> bool, p: S -> bool, s: S, s': S)
    requires Later(next, s, s')
    requires p(s)
    requires forall x, y :: p(x) && next(x, y) ==> p(y)
    ensures p(s')
  {
    var n: nat :| Leads(next, s, s', n);
    LeadsInduction(next, p, s, s', n);
  }

  lemma {:induction false} LeadsTogether<S(!new)>(next: (S, S) -> bool, s: S, mid: S, s': S, m: nat, n: nat)
    requires Leads(next, s, mid, m) && Leads(next, mid, s', n)
    ensures Leads(next, s, s', m + n)
    decreases n
  {
    if n > 0 {
      var last: S :| Leads(next, mid, last, n - 1) && next(last, s');
      LeadsTogether(next, s, mid, last, m, n - 1);
    }
  }

  /** Runs can be put together. */
  lemma Together<S(!new)>(next: (S, S) -> bool, s: S, mid: S, s': S)
    requires Later(next, s, mid) && Later(next, mid, s')
    ensures Later(next, s, s')
  {
    var m: nat :| Leads(next, s, mid, m);
    var n: nat :| Leads(next, mid, s', n);
    LeadsTogether(next, s, mid, s', m, n);
  }

  /** A run can be continued. */
  lemma OneMore<S(!new)>(next: (S, S) -> bool, s: S, mid: S, s': S)
    requires Later(next, s, mid) && next(mid, s')
    ensures Later(next, s, s')
  {
    var n: nat :| Leads(next, s, mid, n);
    assert Leads(next, s, s', n + 1);
  }

  lemma NoStep<S(!new)>(next: (S, S) -> bool, s: S)
    ensures Later(next, s, s)
  {
    assert Leads(next, s, s, 0);
  }
}
