/** Lexicographic orders on identifiers and on lists of identifiers, as the ordered
    collections of the repository use them. */
module Ordering {

  /** Strict lexicographic order on strings. */
  predicate Less(a: string, b: string)
    decreases |a|
  {
    |b| > 0 && (|a| == 0 || a[0] < b[0] || (a[0] == b[0] && Less(a[1..], b[1..])))
  }

  predicate AtMost(a: string, b: string) {
    a == b || Less(a, b)
  }

  lemma {:induction false} LessTotal(a: string, b: string)
    ensures a == b || Less(a, b) || Less(b, a)
    decreases |a|
  {
    if |a| > 0 && |b| > 0 && a[0] == b[0] {
      LessTotal(a[1..], b[1..]);
      if a[1..] == b[1..] {
        assert a == [a[0]] + a[1..] && b == [b[0]] + b[1..];
      }
    }
  }

  lemma {:induction false} LessAsymmetric(a: string, b: string)
    requires Less(a, b)
    ensures !Less(b, a) && a != b
    decreases |a|
  {
    if |a| > 0 && a[0] == b[0] {
      LessAsymmetric(a[1..], b[1..]);
    }
  }

  lemma {:induction false} LessTransitive(a: string, b: string, c: string)
    requires Less(a, b) && Less(b, c)
    ensures Less(a, c)
    decreases |a|
  {
    if |a| > 0 && a[0] == b[0] && b[0] == c[0] {
      LessTransitive(a[1..], b[1..], c[1..]);
    }
  }

  /** Strict lexicographic order on lists of strings. */
  predicate PathLess(a: seq<string>, b: seq<string>)
    decreases |a|
  {
    |b| > 0 && (|a| == 0 || Less(a[0], b[0]) || (a[0] == b[0] && PathLess(a[1..], b[1..])))
  }

  lemma {:induction false} PathLessTotal(a: seq<string>, b: seq<string>)
    ensures a == b || PathLess(a, b) || PathLess(b, a)
    decreases |a|
  {
    if |a| > 0 && |b| > 0 {
      LessTotal(a[0], b[0]);
      if a[0] == b[0] {
        PathLessTotal(a[1..], b[1..]);
        if a[1..] == b[1..] {
          assert a == [a[0]] + a[1..] && b == [b[0]] + b[1..];
        }
      }
    }
  }

  lemma {:induction false} PathLessTransitive(a: seq<string>, b: seq<string>, c: seq<string>)
    requires PathLess(a, b) && PathLess(b, c)
    ensures PathLess(a, c)
    decreases |a|
  {
    if |a| > 0 {
      if Less(a[0], b[0]) && Less(b[0], c[0]) {
        LessTransitive(a[0], b[0], c[0]);
      } else if !Less(a[0], b[0]) && !Less(b[0], c[0]) {
        PathLessTransitive(a[1..], b[1..], c[1..]);
      }
    }
  }

  /** At `k` the first string ends, or differs from the second for the first time, and is smaller. */
  ghost predicate FirstSmallerAt(a: string, b: string, k: nat) {
    k <= |a| && k < |b| && a[..k] == b[..k] && (k == |a| || a[k] < b[k])
  }

  /** The order is decided at the first difference. */
  lemma {:induction false} LessIff(a: string, b: string)
    ensures Less(a, b) <==> exists k :: FirstSmallerAt(a, b, k)
    decreases |a|
  {
    assert forall k: nat :: FirstSmallerAt(a, b, k) && k > 0 ==> a[..k][0] == a[0] && b[..k][0] == b[0];
    if |a| > 0 && |b| > 0 && a[0] == b[0] {
      LessIff(a[1..], b[1..]);
      if k: nat :| FirstSmallerAt(a[1..], b[1..], k) {
        assert a[..k + 1] == [a[0]] + a[1..][..k] && b[..k + 1] == [b[0]] + b[1..][..k];
        assert FirstSmallerAt(a, b, k + 1);
      }
      if k: nat :| FirstSmallerAt(a, b, k) {
        assert k > 0;
        assert a[1..][..k - 1] == a[..k][1..] && b[1..][..k - 1] == b[..k][1..];
        assert FirstSmallerAt(a[1..], b[1..], k - 1);
      }
    } else {
      if Less(a, b) { assert FirstSmallerAt(a, b, 0); }
    }
  }

  ghost predicate FirstPathSmallerAt(a: seq<string>, b: seq<string>, k: nat) {
    k <= |a| && k < |b| && a[..k] == b[..k] && (k == |a| || Less(a[k], b[k]))
  }

  lemma {:induction false} PathLessIff(a: seq<string>, b: seq<string>)
    ensures PathLess(a, b) <==> exists k :: FirstPathSmallerAt(a, b, k)
    decreases |a|
  {
    assert forall k: nat :: FirstPathSmallerAt(a, b, k) && k > 0 ==> a[..k][0] == a[0] && b[..k][0] == b[0];
    if |a| > 0 && |b| > 0 && a[0] == b[0] {
      if Less(a[0], b[0]) { LessAsymmetric(a[0], b[0]); }
      PathLessIff(a[1..], b[1..]);
      if k: nat :| FirstPathSmallerAt(a[1..], b[1..], k) {
        assert a[..k + 1] == [a[0]] + a[1..][..k] && b[..k + 1] == [b[0]] + b[1..][..k];
        assert FirstPathSmallerAt(a, b, k + 1);
      }
      if k: nat :| FirstPathSmallerAt(a, b, k) {
        assert k > 0;
        assert a[1..][..k - 1] == a[..k][1..] && b[1..][..k - 1] == b[..k][1..];
        assert FirstPathSmallerAt(a[1..], b[1..], k - 1);
      }
    } else {
      if PathLess(a, b) { assert FirstPathSmallerAt(a, b, 0); }
    }
  }

  /** The least member of a non-empty set of identifiers. */
  lemma {:induction false} LeastExists(s: set<string>)
    requires s != {}
    ensures exists m :: m in s && forall x :: x in s ==> AtMost(m, x)
  {
    var e :| e in s;
    if s == {e} {
      assert forall x :: x in s ==> AtMost(e, x);
    } else {
      var rest := s - {e};
      LeastExists(rest);
      var m :| m in rest && forall x :: x in rest ==> AtMost(m, x);
      LessTotal(m, e);
      if Less(e, m) {
        forall x | x in s ensures AtMost(e, x) {
          if x != e {
            assert x in rest;
            if x != m { LessTransitive(e, m, x); }
          }
        }
        assert e in s && forall x :: x in s ==> AtMost(e, x);
      } else {
        assert m in s && forall x :: x in s ==> AtMost(m, x);
      }
    }
  }

  function Least(s: set<string>): (m: string)
    requires s != {}
    ensures m in s && forall x :: x in s ==> AtMost(m, x)
  {
    LeastExists(s);
    assert forall m, k ::
        (m in s && k in s && (forall x :: x in s ==> AtMost(m, x)) && (forall x :: x in s ==> AtMost(k, x)))
        ==> m == k
    by {
      forall m, k | m in s && k in s && (forall x :: x in s ==> AtMost(m, x)) && (forall x :: x in s ==> AtMost(k, x))
        ensures m == k
      {
        if m != k { LessAsymmetric(m, k); }
      }
    }
    var m :| m in s && forall x :: x in s ==> AtMost(m, x);
    m
  }

  /** The members of a set in increasing order: the iteration order of an ordered set. */
  function Ascending(s: set<string>): (r: seq<string>)
    ensures forall x :: x in r <==> x in s
    ensures |r| == |s|
  {
    if s == {} then [] else
    var m := Least(s);
    [m] + Ascending(s - {m})
  }

  ghost predicate StrictlyAscending(s: seq<string>) {
    forall i, j :: 0 <= i < j < |s| ==> Less(s[i], s[j])
  }

  lemma {:induction false} AscendingSorted(s: set<string>)
    ensures StrictlyAscending(Ascending(s))
  {
    if s != {} {
      var m := Least(s);
      AscendingSorted(s - {m});
      var rest := Ascending(s - {m});
      forall j | 0 <= j < |rest| ensures Less(m, rest[j]) {
        assert rest[j] in rest;
      }
    }
  }
}
