/** Applications: label values that group objects, and the ordering used to
    sort them (api/application.go). */
module ApiApplication {

  /** The label whose value names the application an object belongs to. */
  const ApplicationNameLabel: string := "application"

  /** An application is nothing but the value of its label. */
  datatype Application = Application(value: string) {

    /** The application's name: the label value it was made from. */
    function Name(): (r: string)
      ensures Application(r) == this
    {
      value
    }
  }

  /** Go's string order: byte-wise lexicographic. For text that is valid UTF-8
      the byte order coincides with the order of the code points, which is
      the order compared here. A proper prefix comes first. */
  predicate StrLess(a: string, b: string)
  {
    if a == [] then b != []
    else if b == [] then false
    else if a[0] == b[0] then StrLess(a[1..], b[1..])
    else a[0] < b[0]
  }

  /** Less-than-or-equal in string order. */
  predicate StrLeq(a: string, b: string)
  {
    StrLess(a, b) || a == b
  }

  lemma {:induction false} StrLessIrreflexive(a: string)
    ensures !StrLess(a, a)
  {
    if a != [] {
      StrLessIrreflexive(a[1..]);
    }
  }

  lemma {:induction false} StrLessAsymmetric(a: string, b: string)
    requires StrLess(a, b)
    ensures !StrLess(b, a)
  {
    if a != [] && b != [] && a[0] == b[0] {
      StrLessAsymmetric(a[1..], b[1..]);
    }
  }

  lemma {:induction false} StrLessTransitive(a: string, b: string, c: string)
    requires StrLess(a, b) && StrLess(b, c)
    ensures StrLess(a, c)
  {
    if a != [] && a[0] == b[0] && b[0] == c[0] {
      StrLessTransitive(a[1..], b[1..], c[1..]);
    }
  }

  /** Any two strings are comparable. */
  lemma {:induction false} StrLessTotal(a: string, b: string)
    ensures StrLess(a, b) || a == b || StrLess(b, a)
  {
    if a != [] && b != [] && a[0] == b[0] {
      StrLessTotal(a[1..], b[1..]);
      if a[1..] == b[1..] {
        assert a == [a[0]] + a[1..] && b == [b[0]] + b[1..];
      }
    }
  }

  lemma StrLeqTransitive(a: string, b: string, c: string)
    requires StrLeq(a, b) && StrLeq(b, c)
    ensures StrLeq(a, c)
  {
    if StrLess(a, b) && StrLess(b, c) {
      StrLessTransitive(a, b, c);
    }
  }

  /** `Applications.Len`: the number of applications in the slice. */
  function Len(apps: array<Application>): (n: int)
    ensures n == apps.Length
  {
    apps.Length
  }

  /** `Applications.Less`: whether the application at `i` sorts strictly
      before the one at `j`. */
  function Less(apps: array<Application>, i: int, j: int): (b: bool)
    requires 0 <= i < apps.Length && 0 <= j < apps.Length
    reads apps
    ensures b <==> StrLess(apps[i].Name(), apps[j].Name())
    ensures b ==> !StrLess(apps[j].Name(), apps[i].Name()) && apps[i] != apps[j]
    ensures !b ==> StrLeq(apps[j].Name(), apps[i].Name())
  {
    StrLessTotal(apps[i].Name(), apps[j].Name());
    StrLessIrreflexive(apps[i].Name());
    if StrLess(apps[i].Name(), apps[j].Name()) then
      StrLessAsymmetric(apps[i].Name(), apps[j].Name());
      true
    else
      false
  }

  /** `Applications.Swap`: exchanges the applications at `i` and `j`. */
  method Swap(apps: array<Application>, i: int, j: int)
    requires 0 <= i < apps.Length && 0 <= j < apps.Length
    modifies apps
    ensures apps[..] == old(apps[..])[i := old(apps[j])][j := old(apps[i])]
    ensures multiset(apps[..]) == multiset(old(apps[..]))
  {
    apps[i], apps[j] := apps[j], apps[i];
  }

  /** Applications in non-decreasing name order. */
  ghost predicate Sorted(s: seq<Application>)
  {
    forall i, j :: 0 <= i < j < |s| ==> StrLeq(s[i].Name(), s[j].Name())
  }

  /** Applications in strictly ascending name order (hence without repeats). */
  ghost predicate StrictlyAscending(s: seq<Application>)
  {
    forall i, j :: 0 <= i < j < |s| ==> StrLess(s[i].Name(), s[j].Name())
  }

  /** Sorts the slice in place through `Len`, `Less` and `Swap` alone, as
      `sort.Sort(Applications(...))` does: the result is sorted and a
      permutation of the input. */
  method SortApplications(apps: array<Application>)
    modifies apps
    ensures Sorted(apps[..])
    ensures multiset(apps[..]) == multiset(old(apps[..]))
  {
    var n := Len(apps);
    if n == 0 {
      return;
    }
    var i := 1;
    while i < n
      invariant 1 <= i <= n
      invariant Sorted(apps[..i])
      invariant multiset(apps[..]) == multiset(old(apps[..]))
    {
      var j := i;
      while j > 0 && Less(apps, j, j - 1)
        invariant 0 <= j <= i
        invariant forall k, m :: 0 <= k < m <= i && k != j && m != j ==> StrLeq(apps[k].Name(), apps[m].Name())
        invariant forall m :: j < m <= i ==> StrLeq(apps[j].Name(), apps[m].Name())
        invariant multiset(apps[..]) == multiset(old(apps[..]))
      {
        Swap(apps, j, j - 1);
        j := j - 1;
      }
      forall k, m | 0 <= k < m <= i
        ensures StrLeq(apps[k].Name(), apps[m].Name())
      {
        if m == j && k < j - 1 {
          StrLeqTransitive(apps[k].Name(), apps[j - 1].Name(), apps[j].Name());
        }
      }
      i := i + 1;
    }
  }

  /** Distinct applications in non-decreasing order are strictly ascending. */
  lemma SortedDistinctIsStrictlyAscending(s: seq<Application>)
    requires Sorted(s)
    requires forall i, j :: 0 <= i < j < |s| ==> s[i] != s[j]
    ensures StrictlyAscending(s)
  {
    forall i, j | 0 <= i < j < |s| ensures StrLess(s[i].Name(), s[j].Name()) {
      assert StrLeq(s[i].Name(), s[j].Name());
      assert s[i] != s[j];
    }
  }

  lemma StrLeqAntisymmetric(a: string, b: string)
    requires StrLeq(a, b) && StrLeq(b, a)
    ensures a == b
  {
    if StrLess(a, b) {
      StrLessAsymmetric(a, b);
    }
  }

  /** Every non-empty set of names has a least element. */
  lemma {:induction false} HasLeast(names: set<string>)
    requires names != {}
    ensures exists m :: m in names && forall x :: x in names ==> StrLeq(m, x)
    decreases |names|
  {
    var y :| y in names;
    if names != {y} {
      var rest := names - {y};
      HasLeast(rest);
      var m :| m in rest && forall x :: x in rest ==> StrLeq(m, x);
      StrLessTotal(m, y);
      if StrLess(y, m) {
        forall x | x in names ensures StrLeq(y, x) {
          if x != y {
            StrLeqTransitive(y, m, x);
          }
        }
      } else {
        assert forall x :: x in names ==> StrLeq(m, x);
      }
    } else {
      assert forall x :: x in names ==> StrLeq(y, x);
    }
  }

  /** The applications named by `names`, each once, in strictly ascending
      order: what sorting the distinct label values yields. */
  ghost function AscendingApplications(names: set<string>): (r: seq<Application>)
    ensures StrictlyAscending(r)
    ensures forall a :: a in r <==> a.Name() in names
    decreases |names|
  {
    if names == {} then []
    else
      HasLeast(names);
      var m :| m in names && forall x :: x in names ==> StrLeq(m, x);
      var rest := AscendingApplications(names - {m});
      assert forall a :: a in rest ==> StrLess(m, a.Name());
      [Application(m)] + rest
  }

  /** Two strictly ascending lists with the same members are equal: the
      sorted, deduplicated list of a set of names is unique. */
  lemma {:induction false} AscendingUnique(xs: seq<Application>, ys: seq<Application>)
    requires StrictlyAscending(xs) && StrictlyAscending(ys)
    requires forall a :: a in xs <==> a in ys
    ensures xs == ys
    decreases |xs|
  {
    assert xs != [] ==> xs[0] in ys;
    assert ys != [] ==> ys[0] in xs;
    if xs != [] && ys != [] {
      var x0, y0 := xs[0], ys[0];
      forall k | 0 <= k < |ys| ensures StrLeq(y0.Name(), ys[k].Name()) {
      }
      forall k | 0 <= k < |xs| ensures StrLeq(x0.Name(), xs[k].Name()) {
      }
      StrLeqAntisymmetric(x0.Name(), y0.Name());
      assert x0 == y0;
      forall a ensures a in xs[1..] <==> a in ys[1..] {
        if a in xs[1..] {
          var k :| 1 <= k < |xs| && xs[k] == a;
          StrLessIrreflexive(x0.Name());
          assert a != x0;
          assert a in ys;
        }
        if a in ys[1..] {
          var k :| 1 <= k < |ys| && ys[k] == a;
          StrLessIrreflexive(y0.Name());
          assert a != y0;
          assert a in xs;
        }
      }
      AscendingUnique(xs[1..], ys[1..]);
      assert xs == [x0] + xs[1..] && ys == [y0] + ys[1..];
    }
  }
}
