/** Python's ordering of strings (by code point, a proper prefix first) and
    the two uses of `sorted` in the widget: `sorted(keys)` and
    `sorted(items, key=count, reverse=True)`. Both sorts are stable
    insertion sorts, as Python's `sorted` is stable. */
module Sorting {
  import opened Basics

  /** `a < b` on Python strings. */
  predicate LexLess(a: string, b: string) {
    if a == [] then b != []
    else if b == [] then false
    else if a[0] != b[0] then a[0] < b[0]
    else LexLess(a[1..], b[1..])
  }

  lemma {:induction false} LexLessIrreflexive(a: string)
    ensures !LexLess(a, a)
  {
    if a != [] { LexLessIrreflexive(a[1..]); }
  }

  lemma {:induction false} LexLessTransitive(a: string, b: string, c: string)
    requires LexLess(a, b) && LexLess(b, c)
    ensures LexLess(a, c)
  {
    if a != [] && b != [] && c != [] && a[0] == b[0] && b[0] == c[0] {
      LexLessTransitive(a[1..], b[1..], c[1..]);
    }
  }

  lemma {:induction false} LexLessTotal(a: string, b: string)
    requires a != b
    ensures LexLess(a, b) || LexLess(b, a)
  {
    if a != [] && b != [] && a[0] == b[0] {
      assert a == [a[0]] + a[1..] && b == [b[0]] + b[1..];
      LexLessTotal(a[1..], b[1..]);
    }
  }

  lemma {:induction false} LexLessAsymmetric(a: string, b: string)
    requires LexLess(a, b)
    ensures !LexLess(b, a)
  {
    if a != [] && b != [] && a[0] == b[0] {
      LexLessAsymmetric(a[1..], b[1..]);
    }
  }

  /** No element is smaller than an earlier one. */
  predicate SortedLex(s: seq<string>) {
    forall i, j :: 0 <= i < j < |s| ==> !LexLess(s[j], s[i])
  }

  /** Every element is smaller than every later one. */
  predicate StrictlySortedLex(s: seq<string>) {
    forall i, j :: 0 <= i < j < |s| ==> LexLess(s[i], s[j])
  }

  function InsertLex(x: string, s: seq<string>): (r: seq<string>)
    requires SortedLex(s)
    ensures SortedLex(r)
    ensures multiset(r) == multiset(s) + multiset{x}
  {
    if s == [] then [x]
    else if !LexLess(s[0], x) then
      assert forall j :: 0 <= j < |s| ==> !LexLess(s[j], x) by {
        forall j | 0 <= j < |s| ensures !LexLess(s[j], x) {
          if LexLess(s[j], x) {
            if s[j] == s[0] { } else {
              LexLessTotal(s[0], s[j]);
              LexLessTransitive(s[0], s[j], x);
            }
          }
        }
      }
      [x] + s
    else
      var rest := InsertLex(x, s[1..]);
      assert s == [s[0]] + s[1..];
      forall j | 0 <= j < |rest| ensures !LexLess(rest[j], s[0]) {
        assert rest[j] in multiset(rest);
        if rest[j] == x {
          LexLessAsymmetric(s[0], x);
        } else {
          assert rest[j] in multiset(s[1..]);
          var k :| 0 <= k < |s[1..]| && s[1..][k] == rest[j];
          assert s[k + 1] == rest[j];
        }
      }
      [s[0]] + rest
  }

  /** `sorted(s)` for a list of strings. */
  function SortLex(s: seq<string>): (r: seq<string>)
    ensures SortedLex(r)
    ensures multiset(r) == multiset(s)
  {
    if s == [] then []
    else
      assert s == [s[0]] + s[1..];
      InsertLex(s[0], SortLex(s[1..]))
  }

  /** Two equal elements at different positions make the value occur twice. */
  lemma EqualPairCountsTwice(s: seq<string>, i: nat, j: nat)
    requires i < j < |s|
    ensures s[i] == s[j] ==> multiset(s)[s[i]] >= 2
  {
    var x := s[i];
    assert s == s[..j] + s[j..];
    assert s[..j][i] == x && s[j..][0] == s[j];
    assert multiset(s)[x] == multiset(s[..j])[x] + multiset(s[j..])[x];
  }

  /** A sequence in which no value occurs twice is duplicate-free. */
  lemma DistinctByMultiset(s: seq<string>)
    requires forall x :: multiset(s)[x] <= 1
    ensures Distinct(s)
  {
    forall i, j | 0 <= i < j < |s| ensures s[i] != s[j] {
      EqualPairCountsTwice(s, i, j);
    }
  }

  lemma {:induction false} MultisetOfDistinct(s: seq<string>)
    requires Distinct(s)
    ensures forall x :: multiset(s)[x] <= 1
  {
    if s != [] {
      var t := s[1..];
      assert s == [s[0]] + t;
      assert Distinct(t);
      MultisetOfDistinct(t);
      assert s[0] !in t;
    }
  }

  /** Sorting a duplicate-free list gives a strictly ascending list. */
  lemma SortLexStrict(s: seq<string>)
    requires Distinct(s)
    ensures StrictlySortedLex(SortLex(s))
    ensures Distinct(SortLex(s))
  {
    var r := SortLex(s);
    MultisetOfDistinct(s);
    DistinctByMultiset(r);
    forall i, j | 0 <= i < j < |r| ensures LexLess(r[i], r[j]) {
      LexLessTotal(r[i], r[j]);
    }
  }

  /** `xs.count(t)`. */
  function CountIn(xs: seq<string>, t: string): nat {
    multiset(xs)[t]
  }

  /** No element occurs less often in `xs` than a later one. */
  predicate ByCountDescending(s: seq<string>, xs: seq<string>) {
    forall i, j :: 0 <= i < j < |s| ==> CountIn(xs, s[i]) >= CountIn(xs, s[j])
  }

  function InsertByCount(x: string, s: seq<string>, xs: seq<string>): (r: seq<string>)
    requires ByCountDescending(s, xs)
    ensures ByCountDescending(r, xs)
    ensures multiset(r) == multiset(s) + multiset{x}
  {
    if s == [] || CountIn(xs, s[0]) <= CountIn(xs, x) then
      ConsByCount(x, s, xs);
      [x] + s
    else
      var rest := InsertByCount(x, s[1..], xs);
      assert s == [s[0]] + s[1..];
      HeadCountBound(x, s, rest, xs);
      ConsByCount(s[0], rest, xs);
      [s[0]] + rest
  }

  /** A list in count order stays in count order behind a head counted at
      least as often as its first element. */
  lemma ConsByCount(h: string, s: seq<string>, xs: seq<string>)
    requires ByCountDescending(s, xs)
    requires s != [] ==> CountIn(xs, h) >= CountIn(xs, s[0])
    ensures ByCountDescending([h] + s, xs)
  {
    var r := [h] + s;
    forall i, j | 0 <= i < j < |r| ensures CountIn(xs, r[i]) >= CountIn(xs, r[j]) {
      if i == 0 && j > 1 {
        assert r[j] == s[j - 1] && r[1] == s[0];
      }
    }
  }

  /** The head of a list in count order is counted at least as often as
      anything its tail holds, and `x` is counted less often than it. */
  lemma HeadCountBound(x: string, s: seq<string>, rest: seq<string>, xs: seq<string>)
    requires s != [] && ByCountDescending(s, xs) && CountIn(xs, s[0]) > CountIn(xs, x)
    requires multiset(rest) == multiset(s[1..]) + multiset{x}
    ensures forall j :: 0 <= j < |rest| ==> CountIn(xs, s[0]) >= CountIn(xs, rest[j])
  {
    forall j | 0 <= j < |rest| ensures CountIn(xs, s[0]) >= CountIn(xs, rest[j]) {
      assert rest[j] in multiset(rest);
      if rest[j] != x {
        assert rest[j] in multiset(s[1..]);
        var k :| 0 <= k < |s[1..]| && s[1..][k] == rest[j];
        assert s[k + 1] == rest[j];
      }
    }
  }

  /** `sorted(s, key=lambda t: xs.count(t), reverse=True)`: most frequent
      first, equally frequent ones in their original order. */
  function SortByCountDescending(s: seq<string>, xs: seq<string>): (r: seq<string>)
    ensures ByCountDescending(r, xs)
    ensures multiset(r) == multiset(s)
  {
    if s == [] then []
    else
      assert s == [s[0]] + s[1..];
      InsertByCount(s[0], SortByCountDescending(s[1..], xs), xs)
  }
}
