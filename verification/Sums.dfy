/** Sums over finite sets. */
module Sums {

  ghost function Sum<T(!new)>(s: set<T>, w: T -> int): int {
    if s == {} then 0
    else
      var x :| x in s;
      w(x) + Sum(s - {x}, w)
  }

  /** Any element can be taken out first. */
  lemma {:induction false} SumPick<T(!new)>(s: set<T>, w: T -> int, x: T)
    requires x in s
    ensures Sum(s, w) == w(x) + Sum(s - {x}, w)
  {
    var y :| y in s && Sum(s, w) == w(y) + Sum(s - {y}, w);
    if y != x {
      SumPick(s - {y}, w, x);
      SumPick(s - {x}, w, y);
      assert s - {y} - {x} == s - {x} - {y};
    }
  }

  lemma SumOne<T(!new)>(x: T, w: T -> int)
    ensures Sum({x}, w) == w(x)
  {
    SumPick({x}, w, x);
    assert {x} - {x} == {};
  }

  lemma {:induction false} SumUnion<T(!new)>(a: set<T>, b: set<T>, w: T -> int)
    requires a !! b
    ensures Sum(a + b, w) == Sum(a, w) + Sum(b, w)
  {
    if a == {} {
      assert a + b == b;
    } else {
      var x :| x in a;
      SumPick(a, w, x);
      SumPick(a + b, w, x);
      assert a + b - {x} == (a - {x}) + b;
      SumUnion(a - {x}, b, w);
    }
  }

  lemma SumMinus<T(!new)>(a: set<T>, b: set<T>, w: T -> int)
    requires b <= a
    ensures Sum(a, w) - Sum(b, w) == Sum(a - b, w)
  {
    SumUnion(a - b, b, w);
    assert a - b + b == a;
  }

  /** Sums over two sets agree along a bijection. */
  lemma {:induction false} SumAlong<A(!new), B(!new)>(a: set<A>, b: set<B>, f: A -> B, v: A -> int, w: B -> int)
    requires forall x :: x in a ==> f(x) in b && v(x) == w(f(x))
    requires forall x, y :: x in a && y in a && f(x) == f(y) ==> x == y
    requires forall y :: y in b ==> exists x :: x in a && f(x) == y
    ensures Sum(a, v) == Sum(b, w)
  {
    if a != {} {
      var x :| x in a;
      SumPick(a, v, x);
      SumPick(b, w, f(x));
      forall y | y in b - {f(x)}
        ensures exists z :: z in a - {x} && f(z) == y
      {
        var z :| z in a && f(z) == y;
        assert z in a - {x};
      }
      SumAlong(a - {x}, b - {f(x)}, f, v, w);
    } else {
      assert b == {};
    }
  }

  lemma {:induction false} SumSame<T(!new)>(s: set<T>, v: T -> int, w: T -> int)
    requires forall x :: x in s ==> v(x) == w(x)
    ensures Sum(s, v) == Sum(s, w)
  {
    if s != {} {
      var x :| x in s;
      SumPick(s, v, x);
      SumPick(s, w, x);
      SumSame(s - {x}, v, w);
    }
  }

  lemma {:induction false} SumNonNegative<T(!new)>(s: set<T>, w: T -> int)
    requires forall x :: x in s ==> w(x) >= 0
    ensures Sum(s, w) >= 0
  {
    if s != {} {
      var x :| x in s;
      SumPick(s, w, x);
      SumNonNegative(s - {x}, w);
    }
  }

  lemma {:induction false} SumAdd<T(!new)>(s: set<T>, v: T -> int, w: T -> int, u: T -> int)
    requires forall x :: x in s ==> u(x) == v(x) + w(x)
    ensures Sum(s, u) == Sum(s, v) + Sum(s, w)
  {
    if s != {} {
      var x :| x in s;
      SumPick(s, u, x);
      SumPick(s, v, x);
      SumPick(s, w, x);
      SumAdd(s - {x}, v, w, u);
    }
  }

  lemma {:induction false} SumZero<T(!new)>(s: set<T>, w: T -> int)
    requires forall x :: x in s ==> w(x) == 0
    ensures Sum(s, w) == 0
  {
    if s != {} {
      var x :| x in s;
      SumPick(s, w, x);
      SumZero(s - {x}, w);
    }
  }

  /** Elements that weigh nothing can be left out. */
  lemma SumSupport<T(!new)>(s: set<T>, t: set<T>, w: T -> int)
    requires s <= t && forall x :: x in t && x !in s ==> w(x) == 0
    ensures Sum(t, w) == Sum(s, w)
  {
    SumMinus(t, s, w);
    SumZero(t - s, w);
  }
}
