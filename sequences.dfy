/** Order-preserving selection over sequences and the facts about it that the
    pod partition and the label filters rely on. */
module Sequences {

  /** The elements of `xs` that satisfy `p`, in their original order. */
  function Filter<T>(xs: seq<T>, p: T -> bool): (r: seq<T>)
    ensures |r| <= |xs|
    ensures forall i :: 0 <= i < |r| ==> p(r[i])
  {
    if xs == [] then []
    else Filter(xs[..|xs| - 1], p) + (if p(xs[|xs| - 1]) then [xs[|xs| - 1]] else [])
  }

  /** `s` can be obtained from `t` by deleting elements, keeping the order. */
  ghost predicate IsSubsequence<T>(s: seq<T>, t: seq<T>)
  {
    s == [] ||
    (t != [] &&
     ((s[|s| - 1] == t[|t| - 1] && IsSubsequence(s[..|s| - 1], t[..|t| - 1])) ||
      IsSubsequence(s, t[..|t| - 1])))
  }

  /** Every element occurs at most once. */
  ghost predicate Distinct<T>(s: seq<T>)
  {
    forall i, j :: 0 <= i < j < |s| ==> s[i] != s[j]
  }

  lemma {:induction false} FilterIsSubsequence<T>(xs: seq<T>, p: T -> bool)
    ensures IsSubsequence(Filter(xs, p), xs)
  {
    if xs != [] {
      var init := xs[..|xs| - 1];
      FilterIsSubsequence(init, p);
      var f := Filter(xs, p);
      if p(xs[|xs| - 1]) {
        assert f == Filter(init, p) + [xs[|xs| - 1]];
        assert f[..|f| - 1] == Filter(init, p);
        assert f[|f| - 1] == xs[|xs| - 1];
      } else {
        assert f == Filter(init, p);
      }
    }
  }

  /** `Filter` keeps every occurrence of an element that satisfies `p` and
      no occurrence of one that does not. */
  lemma {:induction false} FilterCounts<T>(xs: seq<T>, p: T -> bool)
    ensures forall x :: multiset(Filter(xs, p))[x] == if p(x) then multiset(xs)[x] else 0
  {
    if xs != [] {
      var init := xs[..|xs| - 1];
      FilterCounts(init, p);
      assert xs == init + [xs[|xs| - 1]];
    }
  }

  /** Filtering one more element of a prefix appends it when it satisfies `p`. */
  lemma FilterStep<T>(xs: seq<T>, i: nat, p: T -> bool)
    requires i < |xs|
    ensures Filter(xs[..i + 1], p) == Filter(xs[..i], p) + (if p(xs[i]) then [xs[i]] else [])
  {
    assert xs[..i + 1][..i] == xs[..i];
  }

  /** An element is kept exactly when it occurs in `xs` and satisfies `p`. */
  lemma {:induction false} FilterMembers<T>(xs: seq<T>, p: T -> bool, x: T)
    ensures x in Filter(xs, p) <==> x in xs && p(x)
  {
    FilterCounts(xs, p);
    assert multiset(Filter(xs, p))[x] == if p(x) then multiset(xs)[x] else 0;
  }

  lemma {:induction false} FilterIdempotent<T>(xs: seq<T>, p: T -> bool)
    ensures Filter(Filter(xs, p), p) == Filter(xs, p)
  {
    if xs != [] {
      var init := xs[..|xs| - 1];
      FilterIdempotent(init, p);
      var f := Filter(xs, p);
      if p(xs[|xs| - 1]) {
        assert f == Filter(init, p) + [xs[|xs| - 1]];
        assert f[..|f| - 1] == Filter(init, p);
        assert Filter(f, p) == Filter(f[..|f| - 1], p) + [f[|f| - 1]];
      } else {
        assert f == Filter(init, p);
      }
    }
  }

  /** A sequence has no repeated element iff no element is counted twice. */
  lemma {:induction false} DistinctCounts<T>(s: seq<T>)
    ensures Distinct(s) <==> forall x :: multiset(s)[x] <= 1
  {
    if s != [] {
      var init, y := s[..|s| - 1], s[|s| - 1];
      DistinctCounts(init);
      assert s == init + [y];
      if Distinct(s) {
        forall i | 0 <= i < |init| ensures init[i] != y {
          assert s[i] == init[i];
        }
        assert Distinct(init) by {
          forall i, j | 0 <= i < j < |init| ensures init[i] != init[j] {
            assert s[i] == init[i] && s[j] == init[j];
          }
        }
      }
      if forall x :: multiset(s)[x] <= 1 {
        assert forall x :: multiset(init)[x] <= 1 by {
          forall x ensures multiset(init)[x] <= 1 {
            assert multiset(s)[x] >= multiset(init)[x];
          }
        }
        assert multiset(s)[y] == multiset(init)[y] + 1;
        assert y !in init;
        forall i, j | 0 <= i < j < |s| ensures s[i] != s[j] {
          if j == |s| - 1 {
            assert s[i] in init;
          } else {
            assert s[i] == init[i] && s[j] == init[j];
          }
        }
      }
    }
  }
}
