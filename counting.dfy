/** `collections.Counter` over string labels. A Counter is a dict, so it
    keeps its keys in the order they were first counted; `most_common(1)`
    picks the first key with the largest count. */
module Counting {
  import opened Basics

  /** Counter items in insertion order. */
  type Counter = seq<(string, nat)>

  /** `c[k]`: the count stored for `k`, 0 when `k` was never counted. */
  function CountOf(c: Counter, k: string): nat {
    if c == [] then 0 else if c[0].0 == k then c[0].1 else CountOf(c[1..], k)
  }

  /** Keys are stored once each and every stored count is positive. */
  predicate WellFormed(c: Counter) {
    Distinct(Keys(c)) && forall i :: 0 <= i < |c| ==> c[i].1 >= 1
  }

  /** Sum of all counts. */
  function Total(c: Counter): nat {
    if c == [] then 0 else c[0].1 + Total(c[1..])
  }

  /** `c[k] += 1`. */
  function Add(c: Counter, k: string): Counter {
    if c == [] then [(k, 1)]
    else if c[0].0 == k then [(k, c[0].1 + 1)] + c[1..]
    else [c[0]] + Add(c[1..], k)
  }

  /** `c[k] += 1` adds `k` at the end when it is new, raises its count by
      one and leaves every other count alone. */
  lemma {:induction false} AddSpec(c: Counter, k: string)
    ensures Keys(Add(c, k)) == if k in Keys(c) then Keys(c) else Keys(c) + [k]
    ensures CountOf(Add(c, k), k) == CountOf(c, k) + 1
    ensures forall other :: other != k ==> CountOf(Add(c, k), other) == CountOf(c, other)
    ensures Total(Add(c, k)) == Total(c) + 1
  {
    if c != [] && c[0].0 != k {
      AddSpec(c[1..], k);
      assert Keys([c[0]] + Add(c[1..], k)) == [c[0].0] + Keys(Add(c[1..], k));
      assert Keys(c) == [c[0].0] + Keys(c[1..]);
    }
  }

  /** Counting every label of `xs`, in order, on top of `c`. */
  function AddAll(c: Counter, xs: seq<string>): Counter {
    if xs == [] then c else Add(AddAll(c, xs[..|xs| - 1]), xs[|xs| - 1])
  }

  lemma AddAllSnoc(c: Counter, xs: seq<string>, x: string)
    ensures AddAll(c, xs + [x]) == Add(AddAll(c, xs), x)
  {
    assert (xs + [x])[..|xs|] == xs;
  }

  /** `Counter(xs)`. */
  function Tally(xs: seq<string>): Counter {
    AddAll([], xs)
  }

  lemma AddKeepsWellFormed(c: Counter, k: string)
    requires WellFormed(c)
    ensures WellFormed(Add(c, k))
  {
    AddSpec(c, k);
    forall i | 0 <= i < |Add(c, k)| ensures Add(c, k)[i].1 >= 1 {
      AddPositive(c, k, i);
    }
  }

  lemma {:induction false} AddPositive(c: Counter, k: string, i: nat)
    requires forall j :: 0 <= j < |c| ==> c[j].1 >= 1
    requires i < |Add(c, k)|
    ensures Add(c, k)[i].1 >= 1
  {
    if c != [] && c[0].0 != k && i > 0 {
      AddPositive(c[1..], k, i - 1);
    }
  }

  /** The count stored at a position is the count of that position's key. */
  lemma {:induction false} CountAtPosition(c: Counter, i: nat)
    requires Distinct(Keys(c)) && i < |c|
    ensures CountOf(c, c[i].0) == c[i].1
  {
    if i > 0 {
      assert Keys(c[1..]) == Keys(c)[1..];
      assert Keys(c)[0] != Keys(c)[i];
      CountAtPosition(c[1..], i - 1);
    }
  }

  /** What `Counter(xs)` holds: one entry per distinct label, each with the
      number of times the label occurs, all counts summing to `|xs|`. */
  lemma {:induction false} TallySpec(xs: seq<string>)
    ensures WellFormed(Tally(xs))
    ensures forall k :: CountOf(Tally(xs), k) == multiset(xs)[k]
    ensures forall k :: k in Keys(Tally(xs)) <==> k in xs
    ensures Total(Tally(xs)) == |xs|
  {
    if xs != [] {
      var init, last := xs[..|xs| - 1], xs[|xs| - 1];
      assert xs == init + [last];
      TallySpec(init);
      AddSpec(Tally(init), last);
      AddKeepsWellFormed(Tally(init), last);
    }
  }

  /** Keys are in the order of first occurrence. */
  lemma {:induction false} TallyKeysInFirstOccurrenceOrder(xs: seq<string>)
    ensures Keys(Tally(xs)) == Dedup(xs)
  {
    if xs != [] {
      var init, last := xs[..|xs| - 1], xs[|xs| - 1];
      TallyKeysInFirstOccurrenceOrder(init);
      DedupSpec(init);
      TallySpec(init);
      AddSpec(Tally(init), last);
    }
  }

  /** `max(c.items(), key=count)`: the position of the first largest count. */
  function FirstLargest(c: Counter): (i: nat)
    requires c != []
    ensures i < |c|
    ensures forall j :: 0 <= j < |c| ==> c[j].1 <= c[i].1
    ensures forall j :: 0 <= j < i ==> c[j].1 < c[i].1
  {
    if |c| == 1 then 0
    else
      var k := FirstLargest(c[1..]) + 1;
      if c[0].1 >= c[k].1 then 0 else k
  }

  /** `c.most_common(1)[0][0] if c else default`. */
  function MostCommonOr(c: Counter, default: string): (r: string)
    ensures c == [] ==> r == default
    ensures c != [] ==> exists i :: 0 <= i < |c| && r == c[i].0
                           && (forall j :: 0 <= j < |c| ==> c[j].1 <= c[i].1)
                           && (forall j :: 0 <= j < i ==> c[j].1 < c[i].1)
  {
    if c == [] then default else c[FirstLargest(c)].0
  }

  /** A label met before the first occurrence of `r` comes before `r` in
      first-occurrence order. */
  lemma {:induction false} DedupOrder(xs: seq<string>, j: nat, r: string)
    requires j < |xs| && r in xs && r !in xs[..j + 1]
    ensures exists a, b :: 0 <= a < b < |Dedup(xs)| && Dedup(xs)[a] == xs[j] && Dedup(xs)[b] == r
  {
    var init, last := xs[..|xs| - 1], xs[|xs| - 1];
    assert xs == init + [last];
    DedupSpec(init);
    if r in init {
      assert xs[..j + 1] == init[..j + 1];
      DedupOrder(init, j, r);
      var a, b :| 0 <= a < b < |Dedup(init)| && Dedup(init)[a] == xs[j] && Dedup(init)[b] == r;
      assert Dedup(xs) == Dedup(init) || Dedup(xs) == Dedup(init) + [last];
      assert Dedup(xs)[a] == xs[j] && Dedup(xs)[b] == r;
    } else {
      assert xs[..j + 1][j] == xs[j];
      assert last == r && xs[j] != r;
      assert init[j] == xs[j] && xs[j] in Dedup(init);
      var a :| 0 <= a < |Dedup(init)| && Dedup(init)[a] == xs[j];
      assert Dedup(xs) == Dedup(init) + [r];
      assert Dedup(xs)[a] == xs[j] && Dedup(xs)[|Dedup(init)|] == r;
    }
  }

  /** `most_common(1)` of `Counter(xs)`: a label of `xs` that occurs at least
      as often as any other, and on a tie the one seen first: every label met
      before its first occurrence occurs strictly less often. */
  lemma MostCommonOfTally(xs: seq<string>)
    requires xs != []
    ensures MostCommonOr(Tally(xs), "") in xs
    ensures forall t :: multiset(xs)[t] <= multiset(xs)[MostCommonOr(Tally(xs), "")]
    ensures forall j :: 0 <= j < |xs| && MostCommonOr(Tally(xs), "") !in xs[..j + 1] ==>
              multiset(xs)[xs[j]] < multiset(xs)[MostCommonOr(Tally(xs), "")]
  {
    var c := Tally(xs);
    TallySpec(xs);
    TallyKeysInFirstOccurrenceOrder(xs);
    assert xs[0] in Keys(c);
    var i := FirstLargest(c);
    var r := c[i].0;
    assert Keys(c)[i] == r;
    CountAtPosition(c, i);
    forall t ensures multiset(xs)[t] <= multiset(xs)[r] {
      if t in Keys(c) {
        var j :| 0 <= j < |c| && Keys(c)[j] == t;
        CountAtPosition(c, j);
      }
    }
    forall j | 0 <= j < |xs| && r !in xs[..j + 1] ensures multiset(xs)[xs[j]] < multiset(xs)[r] {
      DedupOrder(xs, j, r);
      var a, b :| 0 <= a < b < |Dedup(xs)| && Dedup(xs)[a] == xs[j] && Dedup(xs)[b] == r;
      assert b == i;
      CountAtPosition(c, a);
      assert Keys(c)[a] == xs[j];
    }
  }
}
