/** Order-keeping selection on sequences, as the ERP's searches and the batch tallies use it. */
module Seqs {
  import opened Wrappers

  /** The elements of `s` that satisfy `keep`, in their order in `s`. */
  function Filter<T>(s: seq<T>, keep: T -> bool): (r: seq<T>)
    ensures |r| <= |s|
    ensures forall x :: x in r ==> x in s && keep(x)
    ensures r == [] <==> forall i :: 0 <= i < |s| ==> !keep(s[i])
    decreases |s|
  {
    if s == [] then []
    else Filter(s[..|s| - 1], keep) + (if keep(s[|s| - 1]) then [s[|s| - 1]] else [])
  }

  /** `s[k]` is the earliest element of `s` that satisfies `keep`. */
  ghost predicate FirstWith<T>(s: seq<T>, keep: T -> bool, k: int) {
    0 <= k < |s| && keep(s[k]) && forall j :: 0 <= j < k ==> !keep(s[j])
  }

  /** A non-empty selection starts with the earliest element that qualifies. */
  lemma {:induction false} FilterHead<T>(s: seq<T>, keep: T -> bool)
    requires Filter(s, keep) != []
    ensures exists k :: FirstWith(s, keep, k) && Filter(s, keep)[0] == s[k]
    decreases |s|
  {
    var front := s[..|s| - 1];
    if Filter(front, keep) == [] {
      assert FirstWith(s, keep, |s| - 1);
    } else {
      FilterHead(front, keep);
      var k :| FirstWith(front, keep, k) && Filter(front, keep)[0] == front[k];
      assert forall j :: 0 <= j <= k ==> front[j] == s[j];
      assert FirstWith(s, keep, k);
    }
  }

  /** The values `f` gives for the elements of `s`, in order, skipping the elements it gives none for. */
  function FilterMap<T, U>(s: seq<T>, f: T -> Option<U>): (r: seq<U>)
    ensures |r| <= |s|
    decreases |s|
  {
    if s == [] then []
    else FilterMap(s[..|s| - 1], f) + (if f(s[|s| - 1]).Some? then [f(s[|s| - 1]).value] else [])
  }

  /** Nothing comes out exactly when `f` gives nothing for every element. */
  lemma {:induction false} FilterMapEmpty<T, U>(s: seq<T>, f: T -> Option<U>)
    ensures FilterMap(s, f) == [] <==> forall i :: 0 <= i < |s| ==> f(s[i]).None?
    decreases |s|
  {
    if s != [] {
      var front := s[..|s| - 1];
      FilterMapEmpty(front, f);
      assert forall i :: 0 <= i < |front| ==> front[i] == s[i];
    }
  }

  /** `a` can be obtained from `b` by deleting elements. */
  ghost predicate Subsequence<T>(a: seq<T>, b: seq<T>)
    decreases |b|
  {
    if b == [] then a == []
    else
      || Subsequence(a, b[..|b| - 1])
      || (a != [] && a[|a| - 1] == b[|b| - 1] && Subsequence(a[..|a| - 1], b[..|b| - 1]))
  }

  lemma SubsequenceExtend<T>(a: seq<T>, b: seq<T>, x: T)
    requires Subsequence(a, b)
    ensures Subsequence(a, b + [x]) && Subsequence(a + [x], b + [x])
  {
    assert (b + [x])[..|b|] == b;
    assert (a + [x])[..|a|] == a;
  }

  /** A selection keeps the stored order: it is a subsequence of `s`. */
  lemma {:induction false} FilterSubsequence<T>(s: seq<T>, keep: T -> bool)
    ensures Subsequence(Filter(s, keep), s)
    decreases |s|
  {
    if s != [] {
      var front, x := s[..|s| - 1], s[|s| - 1];
      FilterSubsequence(front, keep);
      SubsequenceExtend(Filter(front, keep), front, x);
      assert front + [x] == s;
      if keep(x) {
        assert Filter(s, keep) == Filter(front, keep) + [x];
      } else {
        assert Filter(s, keep) == Filter(front, keep);
      }
    }
  }

  /** A selection misses nothing: every element of `s` that qualifies is in it. */
  lemma {:induction false} FilterComplete<T>(s: seq<T>, keep: T -> bool)
    ensures forall i :: 0 <= i < |s| && keep(s[i]) ==> s[i] in Filter(s, keep)
    decreases |s|
  {
    if s != [] {
      var front := s[..|s| - 1];
      FilterComplete(front, keep);
      assert forall i :: 0 <= i < |front| ==> front[i] == s[i];
    }
  }

  /** Whatever `f` selects, `g` selects with the same value: then `f`'s selection is a subsequence of `g`'s. */
  lemma {:induction false} FilterMapSubsequence<T, U>(s: seq<T>, f: T -> Option<U>, g: T -> Option<U>)
    requires forall x :: f(x).Some? ==> g(x) == f(x)
    ensures Subsequence(FilterMap(s, f), FilterMap(s, g))
    decreases |s|
  {
    if s == [] {
    } else {
      var front, x := s[..|s| - 1], s[|s| - 1];
      FilterMapSubsequence(front, f, g);
      var a, b := FilterMap(front, f), FilterMap(front, g);
      if g(x).Some? {
        assert FilterMap(s, g) == b + [g(x).value];
        SubsequenceExtend(a, b, g(x).value);
        if f(x).Some? {
          assert FilterMap(s, f) == a + [g(x).value];
        } else {
          assert FilterMap(s, f) == a;
        }
      } else {
        assert FilterMap(s, f) == a && FilterMap(s, g) == b;
      }
    }
  }
}
