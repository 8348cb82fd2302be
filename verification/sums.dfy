/** Sums of a real-valued function over a sequence, and the laws the money and ledger proofs need. */
module Sums {

  /** f(s[0]) + ... + f(s[|s|-1]), added from the left as the source's loops do. */
  function Sum<T>(f: T -> real, s: seq<T>): real {
    if s == [] then 0.0 else Sum(f, s[..|s| - 1]) + f(s[|s| - 1])
  }

  lemma {:induction false} SumAppend<T>(f: T -> real, s: seq<T>, x: T)
    ensures Sum(f, s + [x]) == Sum(f, s) + f(x)
  {
    assert (s + [x])[..|s|] == s;
  }

  lemma {:induction false} SumConcat<T>(f: T -> real, a: seq<T>, b: seq<T>)
    ensures Sum(f, a + b) == Sum(f, a) + Sum(f, b)
  {
    if b == [] {
      assert a + b == a;
    } else {
      var n := |b| - 1;
      assert (a + b)[..|a + b| - 1] == a + b[..n];
      SumConcat(f, a, b[..n]);
    }
  }

  /** A sum does not depend on the order of its terms. */
  lemma {:induction false} SumPermuted<T>(f: T -> real, a: seq<T>, b: seq<T>)
    requires multiset(a) == multiset(b)
    ensures Sum(f, a) == Sum(f, b)
    decreases |a|
  {
    if a == [] {
      assert |multiset(a)| == |multiset(b)| == 0;
    } else {
      var n := |a| - 1;
      var x := a[n];
      assert a == a[..n] + [x];
      assert x in multiset(b);
      var j :| 0 <= j < |b| && b[j] == x;
      var rest := b[..j] + b[j + 1..];
      assert b == b[..j] + ([x] + b[j + 1..]);
      assert multiset(a[..n]) == multiset(a) - multiset{x};
      assert multiset(rest) == multiset(b) - multiset{x};
      SumPermuted(f, a[..n], rest);
      SumConcat(f, b[..j], b[j + 1..]);
      SumConcat(f, b[..j], [x] + b[j + 1..]);
      SumConcat(f, [x], b[j + 1..]);
    }
  }

  /** Term-by-term closeness gives closeness of the sums. */
  lemma {:induction false} SumClose<T>(f: T -> real, g: T -> real, h: T -> real, s: seq<T>)
    requires forall x :: x in s ==> -h(x) <= f(x) - g(x) <= h(x)
    ensures -Sum(h, s) <= Sum(f, s) - Sum(g, s) <= Sum(h, s)
  {
    if s != [] {
      SumClose(f, g, h, s[..|s| - 1]);
    }
  }

  /** Functions that agree on the elements have the same sum. */
  lemma {:induction false} SumSame<T>(f: T -> real, g: T -> real, s: seq<T>)
    requires forall x :: x in s ==> f(x) == g(x)
    ensures Sum(f, s) == Sum(g, s)
  {
    if s != [] {
      SumSame(f, g, s[..|s| - 1]);
    }
  }

  /** Sequences on which f agrees term by term have the same sum. */
  lemma {:induction false} SumPointwise<T>(f: T -> real, a: seq<T>, b: seq<T>)
    requires |a| == |b| && forall i :: 0 <= i < |a| ==> f(a[i]) == f(b[i])
    ensures Sum(f, a) == Sum(f, b)
  {
    if a != [] {
      SumPointwise(f, a[..|a| - 1], b[..|b| - 1]);
    }
  }

  /** f splits into g and h term by term. */
  lemma {:induction false} SumSplit<T>(f: T -> real, g: T -> real, h: T -> real, s: seq<T>)
    requires forall x :: x in s ==> f(x) == g(x) + h(x)
    ensures Sum(f, s) == Sum(g, s) + Sum(h, s)
  {
    if s != [] {
      SumSplit(f, g, h, s[..|s| - 1]);
    }
  }

  /** The sum over mapped elements is the sum of the composition. */
  lemma {:induction false} SumMapped<S, T>(f: T -> real, m: S -> T, g: S -> real, s: seq<S>, t: seq<T>)
    requires |t| == |s|
    requires forall i :: 0 <= i < |s| ==> t[i] == m(s[i])
    requires forall x :: x in s ==> g(x) == f(m(x))
    ensures Sum(f, t) == Sum(g, s)
  {
    if s != [] {
      var n := |s| - 1;
      SumMapped(f, m, g, s[..n], t[..n]);
    }
  }

  /** Mapping a permutation gives a permutation. */
  lemma {:induction false} MapPermuted<S, T>(m: S -> T, a: seq<S>, b: seq<S>, x: seq<T>, y: seq<T>)
    requires multiset(a) == multiset(b) && Maps(m, a, x) && Maps(m, b, y)
    ensures multiset(x) == multiset(y)
    decreases |a|
  {
    if a == [] {
      assert |multiset(a)| == |multiset(b)| == 0;
      assert x == [] && y == [];
    } else {
      assert a[0] in multiset(a);
      var j :| 0 <= j < |b| && b[j] == a[0];
      DropOne(a, 0);
      DropOne(b, j);
      DropOne(x, 0);
      DropOne(y, j);
      MapPermuted(m, Without(a, 0), Without(b, j), Without(x, 0), Without(y, j));
    }
  }

  ghost predicate Maps<S, T>(m: S -> T, s: seq<S>, t: seq<T>) {
    |t| == |s| && forall i :: 0 <= i < |s| ==> t[i] == m(s[i])
  }

  function Without<T>(s: seq<T>, j: nat): (r: seq<T>)
    requires j < |s|
    ensures |r| == |s| - 1
    ensures forall i :: 0 <= i < |r| ==> r[i] == s[if i < j then i else i + 1]
  {
    s[..j] + s[j + 1..]
  }

  lemma DropOne<T>(s: seq<T>, j: nat)
    requires j < |s|
    ensures multiset(s) == multiset(Without(s, j)) + multiset{s[j]}
    ensures multiset(Without(s, j)) == multiset(s) - multiset{s[j]}
  {
    assert s == s[..j] + [s[j]] + s[j + 1..];
  }

  /** Two enumerations without repetition of one set are permutations of each other. */
  ghost predicate Distinct<T>(s: seq<T>) {
    forall i, j :: 0 <= i < j < |s| ==> s[i] != s[j]
  }

  lemma {:induction false} DistinctCount<T>(s: seq<T>, x: T)
    requires Distinct(s)
    ensures multiset(s)[x] == if x in s then 1 else 0
  {
    if s != [] {
      var n := |s| - 1;
      assert s == s[..n] + [s[n]];
      DistinctCount(s[..n], x);
      assert multiset(s) == multiset(s[..n]) + multiset{s[n]};
    }
  }

  lemma {:induction false} DistinctPermutation<T>(a: seq<T>, b: seq<T>)
    requires Distinct(a) && Distinct(b)
    requires forall x :: x in a <==> x in b
    ensures multiset(a) == multiset(b)
  {
    forall x: T
      ensures multiset(a)[x] == multiset(b)[x]
    {
      DistinctCount(a, x);
      DistinctCount(b, x);
    }
  }
}
