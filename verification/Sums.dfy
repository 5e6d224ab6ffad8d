/** Adding up what the elements of a sequence carry. */
module Sums {
  function Sum<T, X>(s: seq<T>, f: T -> multiset<X>): multiset<X> {
    if s == [] then multiset{} else Sum(s[..|s| - 1], f) + f(s[|s| - 1])
  }

  lemma SumOne<T, X>(x: T, f: T -> multiset<X>)
    ensures Sum([x], f) == f(x)
  {
    assert [x][..0] == [];
  }

  lemma {:induction false} SumAppend<T, X>(a: seq<T>, b: seq<T>, f: T -> multiset<X>)
    ensures Sum(a + b, f) == Sum(a, f) + Sum(b, f)
  {
    if b == [] {
      assert a + b == a;
    } else {
      var n := |b| - 1;
      assert (a + b)[..|a + b| - 1] == a + b[..n];
      SumAppend(a, b[..n], f);
    }
  }

  lemma SumPut<T, X>(s: seq<T>, i: nat, x: T, f: T -> multiset<X>)
    requires i < |s|
    ensures Sum(s[i := x], f) + f(s[i]) == Sum(s, f) + f(x)
  {
    var a, b := s[..i], s[i + 1..];
    assert s == a + [s[i]] + b && s[i := x] == a + [x] + b;
    SumAppend(a, [s[i]], f);
    SumAppend(a + [s[i]], b, f);
    SumAppend(a, [x], f);
    SumAppend(a + [x], b, f);
    SumOne(x, f);
    SumOne(s[i], f);
  }

  lemma SumRemove<T, X>(s: seq<T>, i: nat, f: T -> multiset<X>)
    requires i < |s|
    ensures Sum(s[..i] + s[i + 1..], f) + f(s[i]) == Sum(s, f)
  {
    var a, b := s[..i], s[i + 1..];
    assert s == a + [s[i]] + b;
    SumAppend(a, [s[i]], f);
    SumAppend(a + [s[i]], b, f);
    SumAppend(a, b, f);
    SumOne(s[i], f);
  }

  // ----- Multiset arithmetic -----

  lemma CancelPart<X>(a: multiset<X>, b: multiset<X>, x: multiset<X>, y: multiset<X>)
    requires a + x == b + (x + y)
    ensures a == b + y
  {
    forall e ensures a[e] == (b + y)[e] {
      assert (a + x)[e] == a[e] + x[e];
      assert (b + (x + y))[e] == b[e] + x[e] + y[e];
    }
  }

  lemma CancelSame<X>(a: multiset<X>, b: multiset<X>, x: multiset<X>)
    requires a + x == b + x
    ensures a == b
  {
    forall e ensures a[e] == b[e] {
      assert (a + x)[e] == a[e] + x[e];
      assert (b + x)[e] == b[e] + x[e];
    }
  }

  /** Exchanging a part exchanges it in the whole. */
  lemma Exchange<X>(a: multiset<X>, b: multiset<X>, x: multiset<X>, y: multiset<X>, rest: multiset<X>)
    requires a + x == b + y
    ensures a + rest + x == b + rest + y
  {
    forall e ensures (a + rest + x)[e] == (b + rest + y)[e] {
      assert (a + x)[e] == (b + y)[e];
    }
  }

  /** What replaces a part is no more than the part and something new. */
  lemma SwapPart<X>(a: multiset<X>, b: multiset<X>, x: multiset<X>, y: multiset<X>, more: multiset<X>)
    requires a + x == b + y && y <= x + more
    ensures a <= b + more
  {
    forall e ensures a[e] <= (b + more)[e] {
      assert (a + x)[e] == (b + y)[e];
      assert y[e] <= (x + more)[e];
    }
  }

  lemma {:induction false} SumOneOf<T, X>(s: seq<T>, i: nat, f: T -> multiset<X>)
    requires i < |s|
    ensures f(s[i]) <= Sum(s, f)
  {
    if i < |s| - 1 {
      SumOneOf(s[..|s| - 1], i, f);
    }
  }

  lemma {:induction false} SumTwoOf<T, X>(s: seq<T>, i: nat, j: nat, f: T -> multiset<X>)
    requires i < j < |s|
    ensures f(s[i]) + f(s[j]) <= Sum(s, f)
  {
    if j < |s| - 1 {
      SumTwoOf(s[..|s| - 1], i, j, f);
    } else {
      SumOneOf(s[..|s| - 1], i, f);
    }
  }
}
