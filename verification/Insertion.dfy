/** One step of an insertion sort, for any order. */
module Insertion {

  ghost predicate Ascending<T(!new)>(s: seq<T>, less: (T, T) -> bool) {
    forall i, j :: 0 <= i < j < |s| ==> less(s[i], s[j])
  }

  ghost predicate Transitive<T(!new)>(less: (T, T) -> bool) {
    forall a, b, c :: less(a, b) && less(b, c) ==> less(a, c)
  }

  /** Put in front of the first element that is not less, x keeps the order; no element may be level with it. */
  lemma KeepsOrder<T(!new)>(s: seq<T>, at: nat, x: T, less: (T, T) -> bool)
    requires Transitive(less) && Ascending(s, less) && at <= |s|
    requires forall k :: 0 <= k < |s| ==> less(s[k], x) || less(x, s[k])
    requires (forall k :: 0 <= k < at ==> less(s[k], x)) && (at < |s| ==> !less(s[at], x))
    ensures Ascending(s[..at] + [x] + s[at..], less)
  {
    var t := s[..at] + [x] + s[at..];
    forall k | at <= k < |s| ensures less(x, s[k]) {
      assert k > at ==> less(s[at], s[k]);
    }
    forall i, j | 0 <= i < j < |t| ensures less(t[i], t[j]) {
      if i < at {
        assert t[i] == s[i];
        if j > at { assert t[j] == s[j - 1]; }
      } else {
        assert t[j] == s[j - 1];
      }
    }
  }

  lemma KeepsContents<T>(all: seq<T>, n: nat, s: seq<T>, at: nat)
    requires n < |all| && at <= |s| && forall x :: x in s <==> x in all[..n]
    ensures forall x :: x in s[..at] + [all[n]] + s[at..] <==> x in all[..n + 1]
  {
    assert s == s[..at] + s[at..];
    assert all[..n + 1] == all[..n] + [all[n]];
  }
}
