/** Basic vocabulary of the account store: slots, pubkeys, accounts, and the
    few facts about finite sets of naturals that every other module uses. */
module Types {

  type Slot = nat
  type Pubkey = nat
  type Offset = nat
  type StoreId = nat

  datatype Option<+T> = None | Some(value: T)

  /** An account. Owner, executable flag, rent epoch and the bytes of the data
      are never inspected by the store, so they are one opaque `content`. */
  datatype Account = Account(lamports: nat, dataLen: nat, content: nat)

  /** What `account_default_if_zero_lamport` hands out for a zero-lamport account. */
  const DEFAULT_ACCOUNT := Account(0, 0, 0)

  predicate IsZero(a: Account) {
    a.lamports == 0
  }

  /** Zero-lamport accounts are absent as far as a reader is concerned. */
  function Loadable(a: Option<Account>): Option<Account> {
    if a.Some? && IsZero(a.value) then None else a
  }

  /** The largest member of a non-empty set of slots. */
  ghost function Newest(s: set<nat>): (m: nat)
    requires s != {}
    ensures m in s
    ensures forall t :: t in s ==> t <= m
  {
    var x :| x in s;
    if s == {x} then x
    else
      var m := Newest(s - {x});
      assert forall t :: t in s ==> t == x || t in s - {x};
      if m < x then x else m
  }

  lemma NewestUnique(s: set<nat>, m: nat)
    requires m in s
    requires forall t :: t in s ==> t <= m
    ensures Newest(s) == m
  {
    assert Newest(s) <= m && m <= Newest(s);
  }

  /** The largest member of a non-empty set, found by looking at each. */
  method FindNewest(s: set<nat>) returns (m: nat)
    requires s != {}
    ensures m == Newest(s)
  {
    m :| m in s;
    var todo := s - {m};
    while todo != {}
      invariant todo <= s && m in s
      invariant forall t :: t in s ==> t in todo || t <= m
      decreases |todo|
    {
      var t :| t in todo;
      if m < t {
        m := t;
      }
      todo := todo - {t};
    }
    NewestUnique(s, m);
  }

  /** The offsets of a storage holding `n` records. */
  function Below(n: nat): (s: set<nat>)
    ensures forall i :: i in s <==> 0 <= i < n
    ensures |s| == n
  {
    if n == 0 then {}
    else
      var r := Below(n - 1);
      assert n - 1 !in r;
      r + {n - 1}
  }

  lemma SubsetSize<T>(a: set<T>, b: set<T>)
    requires a <= b
    ensures |a| <= |b|
    ensures |a| == |b| ==> a == b
  {
    var rest := b - a;
    assert b == a + rest;
    assert |b| == |a| + |rest|;
  }
}
