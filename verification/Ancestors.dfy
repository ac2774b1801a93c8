/** Readers. A reader is a bank's ancestor list: the slots of its own fork,
    oldest first. Everything at or below the oldest one is visible as well. */
module AncestorSets {
  import opened Types

  predicate Ascending(a: seq<Slot>) {
    forall i, j :: 0 <= i < j < |a| ==> a[i] < a[j]
  }

  type Ancestors = a: seq<Slot> | Ascending(a) witness []

  /** `Ancestors::is_ancestor`. */
  predicate Sees(a: Ancestors, s: Slot) {
    |a| == 0 || s <= a[0] || s in a
  }

  /** A reader on one fork: it lists every root that lies between its oldest and
      its newest slot, and its slots that are not rooted are newer than all roots. */
  ghost predicate Consistent(roots: set<Slot>, a: Ancestors) {
    && (forall r :: r in roots && |a| > 0 && a[0] <= r <= a[|a| - 1] ==> r in a)
    && (forall s, r :: s in a && s !in roots && r in roots ==> r < s)
  }

  /** The reader sees all roots up to `bound`. */
  ghost predicate SeesUpTo(roots: set<Slot>, a: Ancestors, bound: Slot) {
    forall r :: r in roots && r <= bound ==> Sees(a, r)
  }

  /** Seeing one root is enough: what a consistent reader sees is downward closed. */
  lemma SeesDownward(roots: set<Slot>, a: Ancestors, bound: Slot)
    requires Consistent(roots, a)
    requires bound in roots && Sees(a, bound)
    ensures SeesUpTo(roots, a, bound)
  {
    forall r | r in roots && r <= bound
      ensures Sees(a, r)
    {
      if |a| > 0 && a[0] < r {
        var i :| 0 <= i < |a| && a[i] == bound;
        assert bound <= a[|a| - 1];
        assert r in a;
      }
    }
  }
}
