/** Lexicographic order on integer sequences, and sorting a finite set by an integer-sequence key.
    Text is compared by code points and tuples by their encoded components, as Python's `sorted` does. */
module Ordering {

  predicate Less(a: seq<int>, b: seq<int>) {
    b != [] && (a == [] || a[0] < b[0] || (a[0] == b[0] && Less(a[1..], b[1..])))
  }

  lemma {:induction false} LessIrreflexive(a: seq<int>)
    ensures !Less(a, a)
  {
    if a != [] {
      LessIrreflexive(a[1..]);
    }
  }

  lemma {:induction false} LessTransitive(a: seq<int>, b: seq<int>, c: seq<int>)
    requires Less(a, b) && Less(b, c)
    ensures Less(a, c)
  {
    if a != [] && a[0] == b[0] == c[0] {
      LessTransitive(a[1..], b[1..], c[1..]);
    }
  }

  lemma {:induction false} LessTotal(a: seq<int>, b: seq<int>)
    ensures Less(a, b) || a == b || Less(b, a)
  {
    if a != [] && b != [] && a[0] == b[0] {
      LessTotal(a[1..], b[1..]);
      assert a == [a[0]] + a[1..] && b == [b[0]] + b[1..];
    }
  }

  /** Two sequences that differ first at position `n` are ordered by that position. */
  lemma {:induction false} LessAt(a: seq<int>, b: seq<int>, n: nat)
    requires n < |a| && n < |b| && a[..n] == b[..n] && a[n] != b[n]
    ensures Less(a, b) <==> a[n] < b[n]
  {
    if n > 0 {
      assert a[0] == a[..n][0] == b[..n][0] == b[0];
      assert a[1..][..n - 1] == a[..n][1..] == b[..n][1..] == b[1..][..n - 1];
      LessAt(a[1..], b[1..], n - 1);
    }
  }

  function CodePoints(s: string): (r: seq<int>)
    ensures |r| == |s|
  {
    seq(|s|, i requires 0 <= i < |s| => s[i] as int)
  }

  lemma CodePointsInjective(a: string, b: string)
    requires CodePoints(a) == CodePoints(b)
    ensures a == b
  {
    forall i | 0 <= i < |a| ensures a[i] == b[i] {
      assert CodePoints(a)[i] == CodePoints(b)[i];
    }
  }

  ghost predicate InjectiveOn<T(!new)>(s: set<T>, key: T -> seq<int>) {
    forall a, b :: a in s && b in s && key(a) == key(b) ==> a == b
  }

  ghost predicate SortedBy<T>(xs: seq<T>, key: T -> seq<int>) {
    forall i, j :: 0 <= i < j < |xs| ==> Less(key(xs[i]), key(xs[j]))
  }

  predicate IsMin<T(==)>(s: set<T>, key: T -> seq<int>, x: T) {
    x in s && forall y :: y in s && y != x ==> Less(key(x), key(y))
  }

  lemma {:induction false} MinExists<T(!new)>(s: set<T>, key: T -> seq<int>)
    requires s != {} && InjectiveOn(s, key)
    ensures exists x :: IsMin(s, key, x)
  {
    var a :| a in s;
    if s == {a} {
      assert IsMin(s, key, a);
    } else {
      MinExists(s - {a}, key);
      var m :| IsMin(s - {a}, key, m);
      LessTotal(key(a), key(m));
      if Less(key(a), key(m)) {
        forall y | y in s && y != a ensures Less(key(a), key(y)) {
          if y != m { LessTransitive(key(a), key(m), key(y)); }
        }
        assert IsMin(s, key, a);
      } else {
        assert IsMin(s, key, m);
      }
    }
  }

  lemma MinUnique<T(!new)>(s: set<T>, key: T -> seq<int>)
    ensures forall x, y :: IsMin(s, key, x) && IsMin(s, key, y) ==> x == y
  {
    forall x, y | IsMin(s, key, x) && IsMin(s, key, y) ensures x == y {
      if x != y {
        LessTransitive(key(x), key(y), key(x));
        LessIrreflexive(key(x));
      }
    }
  }

  /** The elements of `s`, each once, in increasing key order. */
  function SortBy<T(==,!new)>(s: set<T>, key: T -> seq<int>): (r: seq<T>)
    requires InjectiveOn(s, key)
    ensures |r| == |s|
    ensures forall x :: x in r <==> x in s
    ensures SortedBy(r, key)
  {
    if s == {} then []
    else
      MinExists(s, key);
      MinUnique(s, key);
      var x :| x in s && IsMin(s, key, x);
      [x] + SortBy(s - {x}, key)
  }

  lemma SortedDistinct<T>(xs: seq<T>, key: T -> seq<int>)
    requires SortedBy(xs, key)
    ensures forall i, j :: 0 <= i < j < |xs| ==> xs[i] != xs[j]
  {
    forall i, j | 0 <= i < j < |xs| ensures xs[i] != xs[j] {
      LessIrreflexive(key(xs[i]));
    }
  }

  /** Sorting strings by code point. */
  function SortStrings(s: set<string>): (r: seq<string>)
    ensures |r| == |s|
    ensures forall x :: x in r <==> x in s
    ensures SortedBy(r, CodePoints)
    ensures forall i, j :: 0 <= i < j < |r| ==> r[i] != r[j]
  {
    assert InjectiveOn(s, CodePoints) by {
      forall a, b | a in s && b in s && CodePoints(a) == CodePoints(b) ensures a == b {
        CodePointsInjective(a, b);
      }
    }
    var r := SortBy(s, CodePoints);
    SortedDistinct(r, CodePoints);
    r
  }

  lemma TailMember<T>(xs: seq<T>, x: T)
    requires xs != [] && forall i, j :: 0 <= i < j < |xs| ==> xs[i] != xs[j]
    ensures x in xs[1..] <==> x in xs && x != xs[0]
  {
    assert xs == [xs[0]] + xs[1..];
  }

  /** There is one sorted listing of a set, so a printed key order is canonical. */
  lemma {:induction false} SortedUnique<T(!new)>(xs: seq<T>, ys: seq<T>, key: T -> seq<int>)
    requires SortedBy(xs, key) && SortedBy(ys, key)
    requires forall x :: x in xs <==> x in ys
    ensures xs == ys
  {
    if xs == [] {
      assert forall i :: 0 <= i < |ys| ==> ys[i] in xs;
    } else {
      assert xs[0] in ys;
      assert ys[0] in xs;
      var i :| 0 <= i < |ys| && ys[i] == xs[0];
      var j :| 0 <= j < |xs| && xs[j] == ys[0];
      if xs[0] != ys[0] {
        LessTransitive(key(xs[0]), key(ys[0]), key(xs[0]));
        LessIrreflexive(key(xs[0]));
      }
      SortedDistinct(xs, key);
      SortedDistinct(ys, key);
      forall x ensures x in xs[1..] <==> x in ys[1..] {
        TailMember(xs, x);
        TailMember(ys, x);
      }
      SortedUnique(xs[1..], ys[1..], key);
      assert xs == [xs[0]] + xs[1..] && ys == [ys[0]] + ys[1..];
    }
  }
}
