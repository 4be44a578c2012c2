/** Filtering sequences and counting with multisets. */
module Seqs {

  function Filter<T>(s: seq<T>, p: T -> bool): (r: seq<T>)
    ensures |r| <= |s| && forall x | x in r :: x in s && p(x)
  {
    if s == [] then []
    else (if p(s[0]) then [s[0]] else []) + Filter(s[1..], p)
  }

  lemma {:induction false} FilterConcat<T>(a: seq<T>, b: seq<T>, p: T -> bool)
    ensures Filter(a + b, p) == Filter(a, p) + Filter(b, p)
  {
    if a == [] {
      assert a + b == b;
    } else {
      assert (a + b)[1..] == a[1..] + b;
      FilterConcat(a[1..], b, p);
    }
  }

  lemma FilterSnoc<T>(a: seq<T>, x: T, p: T -> bool)
    ensures Filter(a + [x], p) == Filter(a, p) + (if p(x) then [x] else [])
  {
    FilterConcat(a, [x], p);
  }

  lemma {:induction false} FilterCount<T>(s: seq<T>, p: T -> bool, x: T)
    ensures multiset(Filter(s, p))[x] == if p(x) then multiset(s)[x] else 0
  {
    if s != [] {
      assert s == [s[0]] + s[1..];
      FilterCount(s[1..], p, x);
    }
  }

  lemma SameCounts<T>(a: multiset<T>, b: multiset<T>)
    requires forall x | x in a || x in b :: a[x] == b[x]
    ensures a == b
  {
    forall x | x in a + b ensures a[x] == b[x] {
    }
  }

  lemma FilterPermutation<T>(s: seq<T>, t: seq<T>, p: T -> bool)
    requires multiset(s) == multiset(t)
    ensures multiset(Filter(s, p)) == multiset(Filter(t, p))
  {
    var a, b := multiset(Filter(s, p)), multiset(Filter(t, p));
    forall x | x in a || x in b ensures a[x] == b[x] {
      FilterCount(s, p, x);
      FilterCount(t, p, x);
    }
    SameCounts(a, b);
  }

  lemma {:induction false} FilterAll<T>(s: seq<T>, p: T -> bool)
    requires forall x | x in s :: p(x)
    ensures Filter(s, p) == s
  {
    if s != [] {
      FilterAll(s[1..], p);
    }
  }

  lemma {:induction false} FilterNone<T>(s: seq<T>, p: T -> bool)
    requires forall x | x in s :: !p(x)
    ensures Filter(s, p) == []
  {
    if s != [] {
      FilterNone(s[1..], p);
    }
  }

  /** Splitting by a property loses and adds nothing. */
  lemma FilterSplit<T>(s: seq<T>, p: T -> bool, q: T -> bool)
    requires forall x | x in s :: p(x) != q(x)
    ensures multiset(Filter(s, p)) + multiset(Filter(s, q)) == multiset(s)
  {
    var a, b := multiset(Filter(s, p)) + multiset(Filter(s, q)), multiset(s);
    forall x | x in a || x in b ensures a[x] == b[x] {
      FilterCount(s, p, x);
      FilterCount(s, q, x);
      if x in b {
        assert x in s;
      }
    }
    SameCounts(a, b);
  }

  lemma CancelOne<T>(m: multiset<T>, n: multiset<T>, x: T)
    requires m + multiset{x} == n + multiset{x}
    ensures m == n
  {
    assert m == (m + multiset{x}) - multiset{x};
    assert n == (n + multiset{x}) - multiset{x};
  }

  lemma TakeOut<T>(s: seq<T>, j: nat)
    requires j < |s|
    ensures s == s[..j] + [s[j]] + s[j + 1..]
    ensures multiset(s) == multiset(s[..j] + s[j + 1..]) + multiset{s[j]}
  {
    assert s == s[..j] + [s[j]] + s[j + 1..];
  }

  /** A mapping of sequences that works element by element respects permutation. */
  lemma {:induction false} MapPermutes<T, U>(a: seq<T>, b: seq<T>, f: T -> U)
    requires multiset(a) == multiset(b)
    ensures multiset(Map(a, f)) == multiset(Map(b, f))
  {
    if a == [] {
      assert |multiset(b)| == 0;
    } else {
      assert a[0] in multiset(b);
      var j :| 0 <= j < |b| && b[j] == a[0];
      TakeOut(a, 0);
      TakeOut(b, j);
      var rest := b[..j] + b[j + 1..];
      assert a[..0] + a[1..] == a[1..];
      CancelOne(multiset(a[1..]), multiset(rest), a[0]);
      MapPermutes(a[1..], rest, f);
      MapTakeOut(a, 0, f);
      MapTakeOut(b, j, f);
    }
  }

  function Map<T, U>(s: seq<T>, f: T -> U): (r: seq<U>)
    ensures |r| == |s| && forall i | 0 <= i < |s| :: r[i] == f(s[i])
  {
    if s == [] then [] else [f(s[0])] + Map(s[1..], f)
  }

  lemma MapSnoc<T, U>(s: seq<T>, x: T, f: T -> U)
    ensures Map(s + [x], f) == Map(s, f) + [f(x)]
  {
    hide Map;
    assert Map(s + [x], f) == Map(s, f) + [f(x)];
  }

  lemma MapTakeOut<T, U>(s: seq<T>, j: nat, f: T -> U)
    requires j < |s|
    ensures multiset(Map(s, f)) == multiset(Map(s[..j] + s[j + 1..], f)) + multiset{f(s[j])}
  {
    hide Map;
    var m := Map(s, f);
    TakeOut(m, j);
    assert m[..j] + m[j + 1..] == Map(s[..j] + s[j + 1..], f);
  }

  lemma SameSize<T>(a: seq<T>, b: seq<T>)
    requires multiset(a) == multiset(b)
    ensures |a| == |b|
  {
    assert |multiset(a)| == |multiset(b)|;
  }

  lemma {:induction false} SameOn<T>(s: seq<T>, p: T -> bool, q: T -> bool)
    requires forall x | x in s :: p(x) == q(x)
    ensures Filter(s, p) == Filter(s, q)
  {
    if s != [] {
      SameOn(s[1..], p, q);
    }
  }

  /** Positions in a sequence and in its filtered form keep their order. */
  lemma {:induction false} FilterOrder<T>(s: seq<T>, p: T -> bool, i: nat, j: nat)
    requires i < j < |s| && p(s[i]) && p(s[j])
    ensures exists a, b | 0 <= a < b < |Filter(s, p)| :: Filter(s, p)[a] == s[i] && Filter(s, p)[b] == s[j]
  {
    var rest := Filter(s[1..], p);
    if i == 0 {
      FilterKeeps(s[1..], p, j - 1);
      var b :| 0 <= b < |rest| && rest[b] == s[1..][j - 1];
      assert Filter(s, p)[0] == s[0] && Filter(s, p)[b + 1] == s[j];
    } else {
      FilterOrder(s[1..], p, i - 1, j - 1);
      var a, b :| 0 <= a < b < |rest| && rest[a] == s[1..][i - 1] && rest[b] == s[1..][j - 1];
      var d := if p(s[0]) then 1 else 0;
      assert Filter(s, p)[a + d] == s[i] && Filter(s, p)[b + d] == s[j];
    }
  }

  lemma {:induction false} FilterKeeps<T>(s: seq<T>, p: T -> bool, i: nat)
    requires i < |s| && p(s[i])
    ensures exists a | 0 <= a < |Filter(s, p)| :: Filter(s, p)[a] == s[i]
  {
    if i > 0 {
      FilterKeeps(s[1..], p, i - 1);
      var rest := Filter(s[1..], p);
      var a :| 0 <= a < |rest| && rest[a] == s[1..][i - 1];
      var d := if p(s[0]) then 1 else 0;
      assert Filter(s, p)[a + d] == s[i];
    } else {
      assert Filter(s, p)[0] == s[0];
    }
  }

  lemma {:induction false} InFilter<T>(s: seq<T>, p: T -> bool, x: T)
    requires x in s && p(x)
    ensures x in Filter(s, p)
  {
    FilterCount(s, p, x);
    assert x in multiset(s);
    assert x in multiset(Filter(s, p));
  }

  lemma FilterWithin<T>(s: seq<T>, p: T -> bool)
    ensures multiset(Filter(s, p)) <= multiset(s)
  {
    forall x | x in multiset(Filter(s, p)) ensures multiset(Filter(s, p))[x] <= multiset(s)[x] {
      FilterCount(s, p, x);
    }
  }
}
