/** Small building blocks shared by the whole model: an optional value,
    lookup in an insertion-ordered table (a Python dict literal), the
    abstraction of `random.choice`, and duplicate-free sequences. */
module Basics {

  datatype Option<+T> = None | Some(value: T)

  /** A Python dict literal, kept in its insertion order. */
  type Table<V> = seq<(string, V)>

  function Keys<V>(t: Table<V>): (ks: seq<string>)
    ensures |ks| == |t|
    ensures forall i :: 0 <= i < |t| ==> ks[i] == t[i].0
  {
    if t == [] then [] else [t[0].0] + Keys(t[1..])
  }

  /** `d.get(k)`: the value stored under the first entry with key `k`. */
  function Lookup<V>(t: Table<V>, k: string): (r: Option<V>)
    ensures r.None? <==> k !in Keys(t)
    ensures r.Some? ==> exists i :: 0 <= i < |t| && t[i] == (k, r.value)
  {
    if t == [] then None
    else if t[0].0 == k then Some(t[0].1)
    else
      var r := Lookup(t[1..], k);
      assert r.Some? ==> exists i :: 0 <= i < |t[1..]| && t[1..][i] == (k, r.value);
      r
  }

  /** `random.choice(xs)`: the random draw is the parameter `pick`. */
  function Choice<T>(xs: seq<T>, pick: nat): (x: T)
    requires |xs| > 0
    ensures x in xs
  {
    xs[pick % |xs|]
  }

  /** Every element of the list can be drawn, so the abstraction loses no outcome. */
  lemma ChoiceReachesEvery<T>(xs: seq<T>, x: T)
    requires x in xs
    ensures exists pick: nat :: Choice(xs, pick) == x
  {
    var i :| 0 <= i < |xs| && xs[i] == x;
    assert i % |xs| == i;
    assert Choice(xs, i) == x;
  }

  predicate Distinct<T(==)>(xs: seq<T>) {
    forall i, j :: 0 <= i < j < |xs| ==> xs[i] != xs[j]
  }

  /** The distinct elements of `xs` in first-occurrence order. */
  function Dedup<T(==)>(xs: seq<T>): seq<T> {
    if xs == [] then []
    else
      var d := Dedup(xs[..|xs| - 1]);
      if xs[|xs| - 1] in d then d else d + [xs[|xs| - 1]]
  }

  lemma {:induction false} DedupSpec<T>(xs: seq<T>)
    ensures Distinct(Dedup(xs))
    ensures forall x :: x in Dedup(xs) <==> x in xs
    ensures |Dedup(xs)| <= |xs|
  {
    if xs != [] {
      var init := xs[..|xs| - 1];
      DedupSpec(init);
      assert xs == init + [xs[|xs| - 1]];
    }
  }

  /** Inserting at the end keeps an earlier element at its place: the
      order of first occurrences is the order of `Dedup`. */
  lemma {:induction false} DedupPrefix<T>(xs: seq<T>, x: T)
    ensures Dedup(xs + [x]) == if x in Dedup(xs) then Dedup(xs) else Dedup(xs) + [x]
  {
    assert (xs + [x])[..|xs|] == xs;
  }

  /** A set with more than one element holds two different values. */
  lemma {:induction false} TwoElementsInSet<T>(s: set<T>)
    requires |s| > 1
    ensures exists a, b :: a in s && b in s && a != b
  {
    var a :| a in s;
    assert |s - {a}| == |s| - 1;
    var b :| b in s - {a};
  }

  /** A set holding two different values has more than one element. */
  lemma SetWithTwo<T>(s: set<T>, a: T, b: T)
    requires a in s && b in s && a != b
    ensures |s| > 1
  {
    assert b in s - {a};
    assert |s - {a}| == |s| - 1;
  }
}
