/**
 * Sequence helpers shared by the stateful modules: distinctness, the set of
 * elements, and removing every element of a set while keeping the order of the
 * rest (what `filter` with a membership test and repeated `Map.delete` do).
 */
module Seqs {

  predicate Distinct<T(==)>(s: seq<T>) {
    forall i, j :: 0 <= i < |s| && 0 <= j < |s| && i != j ==> s[i] != s[j]
  }

  function Elems<T(!new)>(s: seq<T>): (r: set<T>)
    ensures forall x :: x in r <==> x in s
  {
    set x | x in s
  }

  /** `s` without the elements of `gone`, the rest in their original order. */
  function Without<T(==,!new)>(s: seq<T>, gone: set<T>): (r: seq<T>)
    ensures |r| <= |s|
    ensures forall x :: x in r <==> x in s && x !in gone
  {
    if s == [] then [] else (if s[0] in gone then [] else [s[0]]) + Without(s[1..], gone)
  }

  lemma {:induction false} WithoutAppend<T(!new)>(a: seq<T>, b: seq<T>, gone: set<T>)
    ensures Without(a + b, gone) == Without(a, gone) + Without(b, gone)
  {
    if a == [] {
      assert a + b == b;
    } else {
      assert (a + b)[1..] == a[1..] + b;
      WithoutAppend(a[1..], b, gone);
    }
  }

  /** Removing nothing that occurs changes nothing. */
  lemma {:induction false} WithoutNone<T(!new)>(s: seq<T>, gone: set<T>)
    requires forall x :: x in s ==> x !in gone
    ensures Without(s, gone) == s
  {
    if s != [] {
      WithoutNone(s[1..], gone);
    }
  }

  /** Removing in two rounds is removing the union once. */
  lemma {:induction false} WithoutTwice<T(!new)>(s: seq<T>, a: set<T>, b: set<T>)
    ensures Without(Without(s, a), b) == Without(s, a + b)
  {
    if s != [] {
      WithoutTwice(s[1..], a, b);
      if s[0] in a {
        assert Without(s, a) == Without(s[1..], a);
      } else {
        assert Without(s, a) == [s[0]] + Without(s[1..], a);
        WithoutAppend([s[0]], Without(s[1..], a), b);
      }
    }
  }

  /** Removing the elements of a prefix of a list without repeats leaves the suffix. */
  lemma WithoutPrefix<T(!new)>(s: seq<T>, n: nat)
    requires n <= |s| && Distinct(s)
    ensures Without(s, Elems(s[..n])) == s[n..]
  {
    var pre, post, gone := s[..n], s[n..], Elems(s[..n]);
    assert s == pre + post;
    WithoutAppend(pre, post, gone);
    WithoutAll(pre, gone);
    PrefixSuffixDisjoint(s, n);
    WithoutNone(post, gone);
  }

  lemma WithoutAll<T(!new)>(s: seq<T>, gone: set<T>)
    requires forall x :: x in s ==> x in gone
    ensures Without(s, gone) == []
  {
  }

  lemma PrefixSuffixDisjoint<T(!new)>(s: seq<T>, n: nat)
    requires n <= |s| && Distinct(s)
    ensures forall x :: x in s[n..] ==> x !in Elems(s[..n])
  {
    forall x | x in s[n..] ensures x !in s[..n] {
      var j :| n <= j < |s| && s[j] == x;
      forall i | 0 <= i < n ensures s[..n][i] != x {
        assert s[i] != s[j];
      }
    }
  }

  /** Filtering keeps a list free of repeats. */
  lemma {:induction false} WithoutDistinct<T(!new)>(s: seq<T>, gone: set<T>)
    requires Distinct(s)
    ensures Distinct(Without(s, gone))
  {
    if s != [] {
      assert Distinct(s[1..]) by {
        forall i, j | 0 <= i < |s[1..]| && 0 <= j < |s[1..]| && i != j ensures s[1..][i] != s[1..][j] {
          assert s[1..][i] == s[i + 1] && s[1..][j] == s[j + 1];
        }
      }
      WithoutDistinct(s[1..], gone);
      var rest := Without(s[1..], gone);
      if s[0] !in gone {
        assert s[0] !in rest;
        var r := [s[0]] + rest;
        forall i, j | 0 <= i < |r| && 0 <= j < |r| && i != j ensures r[i] != r[j] {
          if i > 0 && j > 0 {
            assert r[i] == rest[i - 1] && r[j] == rest[j - 1];
          } else if i == 0 {
            assert r[j] == rest[j - 1];
          } else {
            assert r[i] == rest[i - 1];
          }
        }
      }
    }
  }

  /** `s.filter(keep)`: the elements `keep` accepts, in their original order. */
  function Filter<T(!new)>(s: seq<T>, keep: T -> bool): (r: seq<T>)
    ensures |r| <= |s|
    ensures forall x :: x in r <==> x in s && keep(x)
  {
    if s == [] then []
    else
      assert forall x :: x in s <==> x == s[0] || x in s[1..];
      if keep(s[0]) then [s[0]] + Filter(s[1..], keep) else Filter(s[1..], keep)
  }

  lemma {:induction false} FilterAppend<T(!new)>(a: seq<T>, b: seq<T>, keep: T -> bool)
    ensures Filter(a + b, keep) == Filter(a, keep) + Filter(b, keep)
  {
    if a == [] {
      assert a + b == b;
    } else {
      assert (a + b)[1..] == a[1..] + b;
      FilterAppend(a[1..], b, keep);
    }
  }

  /** A filter that accepts every element changes nothing. */
  lemma {:induction false} FilterKeepsAll<T(!new)>(s: seq<T>, keep: T -> bool)
    requires forall x :: x in s ==> keep(x)
    ensures Filter(s, keep) == s
  {
    if s != [] {
      FilterKeepsAll(s[1..], keep);
    }
  }

  /** Filtering twice by the same test is filtering once. */
  lemma FilterTwice<T(!new)>(s: seq<T>, keep: T -> bool)
    ensures Filter(Filter(s, keep), keep) == Filter(s, keep)
  {
    FilterKeepsAll(Filter(s, keep), keep);
  }

  /** Filtering out one rejected element between accepted ones gives the two sides back. */
  lemma {:induction false} FilterDropsOne<T(!new)>(before: seq<T>, x: T, after: seq<T>, keep: T -> bool)
    requires !keep(x)
    requires forall y :: y in before ==> keep(y)
    requires forall y :: y in after ==> keep(y)
    ensures Filter(before + [x] + after, keep) == before + after
  {
    calc {
      Filter(before + [x] + after, keep);
    == { FilterAppend(before + [x], after, keep); }
      Filter(before + [x], keep) + Filter(after, keep);
    == { FilterAppend(before, [x], keep); }
      Filter(before, keep) + Filter([x], keep) + Filter(after, keep);
    == { FilterOfRejected(x, keep); }
      Filter(before, keep) + Filter(after, keep);
    == { FilterKeepsAll(before, keep); FilterKeepsAll(after, keep); }
      before + after;
    }
  }

  lemma FilterOfRejected<T(!new)>(x: T, keep: T -> bool)
    requires !keep(x)
    ensures Filter([x], keep) == []
  {
    assert [x][1..] == [];
  }
}
