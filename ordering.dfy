/** Python's ordering of `str` values (lexicographic by code point) and
    `sorted()` applied to a set of strings. */
module Ordering {

  /** `a` is a proper prefix of `b`. */
  ghost predicate ProperPrefix(a: string, b: string) {
    |a| < |b| && b[..|a|] == a
  }

  /** `a` and `b` agree before index `k` and `a` has the smaller code point at `k`. */
  ghost predicate FirstSmallerAt(a: string, b: string, k: int) {
    0 <= k < |a| && k < |b| && a[..k] == b[..k] && a[k] < b[k]
  }

  /** `a < b` on Python strings: `a` is a proper prefix of `b`, or the first code point
      where they differ is smaller in `a`. */
  function Before(a: string, b: string): (r: bool)
    ensures r <==> ProperPrefix(a, b) || exists k :: FirstSmallerAt(a, b, k)
  {
    if a == [] then b != []
    else if b == [] then false
    else if a[0] < b[0] then
      assert FirstSmallerAt(a, b, 0);
      true
    else if a[0] == b[0] then
      BeforeTail(a, b);
      Before(a[1..], b[1..])
    else
      assert !ProperPrefix(a, b) by { if |a| < |b| { assert b[..|a|][0] == b[0]; } }
      false
  }

  /** With equal first code points, both ways of being before carry over to the tails. */
  lemma BeforeTail(a: string, b: string)
    requires a != [] && b != [] && a[0] == b[0]
    ensures ProperPrefix(a, b) <==> ProperPrefix(a[1..], b[1..])
    ensures (exists k :: FirstSmallerAt(a, b, k)) <==> exists k :: FirstSmallerAt(a[1..], b[1..], k)
  {
    if ProperPrefix(a[1..], b[1..]) {
      assert b[..|a|] == [b[0]] + b[1..][..|a| - 1];
    }
    if ProperPrefix(a, b) {
      assert b[1..][..|a| - 1] == b[..|a|][1..];
    }
    if exists k :: FirstSmallerAt(a[1..], b[1..], k) {
      var k :| FirstSmallerAt(a[1..], b[1..], k);
      assert a[..k + 1] == [a[0]] + a[1..][..k];
      assert b[..k + 1] == [b[0]] + b[1..][..k];
      assert FirstSmallerAt(a, b, k + 1);
    }
    if exists k :: FirstSmallerAt(a, b, k) {
      var k :| FirstSmallerAt(a, b, k);
      assert k != 0;
      assert a[1..][..k - 1] == a[..k][1..];
      assert b[1..][..k - 1] == b[..k][1..];
      assert FirstSmallerAt(a[1..], b[1..], k - 1);
    }
  }

  lemma {:induction false} BeforeIrreflexive(a: string)
    ensures !Before(a, a)
  {
    if a != [] {
      BeforeIrreflexive(a[1..]);
    }
  }

  lemma {:induction false} BeforeAsymmetric(a: string, b: string)
    ensures Before(a, b) ==> !Before(b, a)
  {
    if a != [] && b != [] && a[0] == b[0] {
      BeforeAsymmetric(a[1..], b[1..]);
    }
  }

  lemma {:induction false} BeforeTransitive(a: string, b: string, c: string)
    requires Before(a, b) && Before(b, c)
    ensures Before(a, c)
  {
    if a != [] && a[0] == b[0] && b[0] == c[0] {
      BeforeTransitive(a[1..], b[1..], c[1..]);
    }
  }

  /** Any two different strings are ordered one way or the other. */
  lemma {:induction false} BeforeTotal(a: string, b: string)
    ensures a == b || Before(a, b) || Before(b, a)
  {
    if a != [] && b != [] && a[0] == b[0] {
      BeforeTotal(a[1..], b[1..]);
      if a[1..] == b[1..] {
        assert a == [a[0]] + a[1..] && b == [b[0]] + b[1..];
      }
    }
  }

  /** Strictly ascending, hence also free of duplicates. */
  ghost predicate StrictlySorted(r: seq<string>) {
    forall i, j :: 0 <= i < j < |r| ==> Before(r[i], r[j])
  }

  /** True when `m` is the least element of `s`. */
  predicate IsLeast(m: string, s: set<string>) {
    m in s && forall y :: y in s && y != m ==> Before(m, y)
  }

  lemma {:induction false} LeastExists(s: set<string>)
    requires s != {}
    ensures exists m :: IsLeast(m, s)
    decreases s
  {
    var x :| x in s;
    if s - {x} == {} {
      forall y | y in s
        ensures y == x
      {
        assert y !in s - {x};
      }
      assert IsLeast(x, s);
    } else {
      LeastExists(s - {x});
      var m :| IsLeast(m, s - {x});
      BeforeTotal(m, x);
      if Before(m, x) {
        assert IsLeast(m, s);
      } else {
        forall y | y in s && y != x
          ensures Before(x, y)
        {
          if y != m {
            BeforeTransitive(x, m, y);
          }
        }
        assert IsLeast(x, s);
      }
    }
  }

  lemma LeastUnique(m1: string, m2: string, s: set<string>)
    requires IsLeast(m1, s) && IsLeast(m2, s)
    ensures m1 == m2
  {
    BeforeAsymmetric(m1, m2);
  }

  /** `sorted(s)` for a set of strings: its elements in ascending order. */
  function SortedOf(s: set<string>): (r: seq<string>)
    ensures StrictlySorted(r)
    ensures forall x :: x in r <==> x in s
    ensures |r| == |s|
    decreases s
  {
    if s == {} then []
    else
      LeastExists(s);
      assert forall m1, m2 :: IsLeast(m1, s) && IsLeast(m2, s) ==> m1 == m2 by {
        forall m1, m2 | IsLeast(m1, s) && IsLeast(m2, s) ensures m1 == m2 {
          LeastUnique(m1, m2, s);
        }
      }
      var m :| IsLeast(m, s);
      var rest := SortedOf(s - {m});
      assert |s - {m}| == |s| - 1;
      [m] + rest
  }

  /** A strictly sorted sequence is determined by its elements, so `SortedOf` is the only possible result. */
  lemma {:induction false} SortedUnique(r1: seq<string>, r2: seq<string>)
    requires StrictlySorted(r1) && StrictlySorted(r2)
    requires forall x :: x in r1 <==> x in r2
    ensures r1 == r2
    decreases |r1|
  {
    if r1 != [] {
      assert r1[0] in r1;
    }
    if r2 != [] {
      assert r2[0] in r2;
    }
    if r1 != [] && r2 != [] {
      assert r1[0] == r2[0] by {
        assert r1[0] in r1 && r2[0] in r2;
        BeforeTotal(r1[0], r2[0]);
        BeforeAsymmetric(r1[0], r2[0]);
      }
      forall x
        ensures x in r1[1..] <==> x in r2[1..]
      {
        BeforeIrreflexive(x);
        if x in r1[1..] {
          var k :| 0 <= k < |r1[1..]| && r1[1..][k] == x;
          assert Before(r1[0], r1[k + 1]);
          assert x in r2;
          var j :| 0 <= j < |r2| && r2[j] == x;
          assert j != 0;
          assert r2[1..][j - 1] == x;
        }
        if x in r2[1..] {
          var k :| 0 <= k < |r2[1..]| && r2[1..][k] == x;
          assert Before(r2[0], r2[k + 1]);
          assert x in r1;
          var j :| 0 <= j < |r1| && r1[j] == x;
          assert j != 0;
          assert r1[1..][j - 1] == x;
        }
      }
      SortedUnique(r1[1..], r2[1..]);
    }
  }
}
