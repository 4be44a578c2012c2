/** Stable insertion sort by a comparison that need not be a strict weak order, as long as it is
    sandwiched by a total preorder. */
module Sorting {

  ghost predicate TotalPreorder<T(!new)>(leq: (T, T) -> bool) {
    && (forall a, b :: leq(a, b) || leq(b, a))
    && (forall a, b, c :: leq(a, b) && leq(b, c) ==> leq(a, c))
  }

  /** On the elements of `s` the comparison follows the preorder up to ties. */
  ghost predicate Follows<T>(s: seq<T>, less: (T, T) -> bool, leq: (T, T) -> bool) {
    forall a, b | a in s && b in s :: (less(a, b) ==> leq(a, b)) && (!less(a, b) ==> leq(b, a))
  }

  ghost predicate SortedBy<T(!new)>(s: seq<T>, leq: (T, T) -> bool) {
    forall i, j | 0 <= i < j < |s| :: leq(s[i], s[j])
  }

  lemma InsertKeepsSorted<T(!new)>(s: seq<T>, x: T, j: nat, leq: (T, T) -> bool)
    requires TotalPreorder(leq) && SortedBy(s, leq) && j <= |s|
    requires j > 0 ==> leq(s[j - 1], x)
    requires j < |s| ==> leq(x, s[j])
    ensures SortedBy(s[..j] + [x] + s[j..], leq)
  {
    var t := s[..j] + [x] + s[j..];
    forall a, b | 0 <= a < b < |t| ensures leq(t[a], t[b]) {
      if b == j {
        assert t[a] == s[a];
        assert a < j - 1 ==> leq(s[a], s[j - 1]);
      } else if a == j {
        assert t[b] == s[b - 1];
        assert j < b - 1 ==> leq(s[j], s[b - 1]);
      } else {
        var a', b' := if a < j then a else a - 1, if b < j then b else b - 1;
        assert t[a] == s[a'] && t[b] == s[b'];
      }
    }
  }

  lemma InsertAdds<T>(s: seq<T>, x: T, j: nat)
    requires j <= |s|
    ensures multiset(s[..j] + [x] + s[j..]) == multiset(s) + multiset{x}
  {
    assert s == s[..j] + s[j..];
  }

  lemma NothingToSort<T(!new)>(leq: (T, T) -> bool)
    ensures SortedBy([], leq)
  {
  }

  method StableSort<T(==, !new)>(s: seq<T>, less: (T, T) -> bool, ghost leq: (T, T) -> bool) returns (out: seq<T>)
    requires TotalPreorder(leq) && Follows(s, less, leq)
    ensures multiset(out) == multiset(s) && SortedBy(out, leq)
  {
    hide TotalPreorder, SortedBy;
    out := [];
    NothingToSort(leq);
    for i := 0 to |s|
      invariant multiset(out) == multiset(s[..i]) && SortedBy(out, leq)
    {
      forall y | y in out ensures y in s {
        assert y in multiset(s[..i]);
      }
      var x, j := s[i], |out|;
      while j > 0 && less(x, out[j - 1])
        invariant 0 <= j <= |out|
        invariant j < |out| ==> less(x, out[j])
      {
        j := j - 1;
      }
      InsertKeepsSorted(out, x, j, leq);
      InsertAdds(out, x, j);
      assert s[..i + 1] == s[..i] + [x];
      out := out[..j] + [x] + out[j..];
    }
    assert s[..|s|] == s;
  }
}
