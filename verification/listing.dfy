/** The list derivations the pages share: a filter that keeps everything for
    the value 'all' and otherwise keeps the entries whose key equals the
    selection (`filter === 'all' ? xs : xs.filter(x => key(x) === filter)`),
    and `xs.filter(x => key(x) === v).length`. */
module Listing {

  const ALL := "all"

  /** `xs.filter(x => key(x) == v)`. */
  function Matching<T>(xs: seq<T>, key: T -> string, v: string): (r: seq<T>)
    ensures |r| <= |xs|
    ensures forall k :: 0 <= k < |r| ==> key(r[k]) == v
  {
    if |xs| == 0 then []
    else if key(xs[0]) == v then [xs[0]] + Matching(xs[1..], key, v)
    else Matching(xs[1..], key, v)
  }

  /** `xs.filter(x => key(x) == v).length`. */
  function Count<T>(xs: seq<T>, key: T -> string, v: string): (n: nat)
    ensures n <= |xs|
  {
    |Matching(xs, key, v)|
  }

  /** `ys` is `xs` with some entries dropped, the rest kept in their order. */
  ghost predicate Subsequence<T>(ys: seq<T>, xs: seq<T>)
    decreases |xs|
  {
    if |ys| == 0 then true
    else if |xs| == 0 then false
    else if ys[0] == xs[0] then Subsequence(ys[1..], xs[1..])
    else Subsequence(ys, xs[1..])
  }

  /** The filtered list keeps the original order, holds only entries with the
      wanted key, and holds every entry with the wanted key. */
  lemma {:induction false} MatchingIsExact<T>(xs: seq<T>, key: T -> string, v: string)
    ensures Subsequence(Matching(xs, key, v), xs)
    ensures forall y :: y in Matching(xs, key, v) <==> y in xs && key(y) == v
  {
    if |xs| > 0 {
      MatchingIsExact(xs[1..], key, v);
      var rest := Matching(xs[1..], key, v);
      if key(xs[0]) == v {
        assert ([xs[0]] + rest)[1..] == rest;
      } else {
        SubsequenceSkip(rest, xs);
      }
      assert xs == [xs[0]] + xs[1..];
    }
  }

  lemma {:induction false} SubsequenceSkip<T>(ys: seq<T>, xs: seq<T>)
    requires |xs| > 0 && Subsequence(ys, xs[1..])
    ensures Subsequence(ys, xs)
    decreases |xs|, 0
  {
    if |ys| > 0 && ys[0] == xs[0] {
      // `ys` matched inside xs[1..]: its tail also fits inside xs[1..]
      SubsequenceTail(ys, xs[1..]);
    }
  }

  lemma {:induction false} SubsequenceTail<T>(ys: seq<T>, xs: seq<T>)
    requires |ys| > 0 && Subsequence(ys, xs)
    ensures Subsequence(ys[1..], xs)
    decreases |xs|, 1
  {
    assert |xs| > 0;
    if ys[0] == xs[0] {
      assert Subsequence(ys[1..], xs[1..]);
      if |ys[1..]| > 0 { SubsequenceSkip(ys[1..], xs); }
    } else {
      SubsequenceTail(ys, xs[1..]);
      if |ys[1..]| > 0 { SubsequenceSkip(ys[1..], xs); }
    }
  }

  /** The filter the pages apply for a selection: 'all' keeps the list as it
      is; any other selection keeps exactly the entries whose key equals it,
      in their original order. */
  function Filter<T>(xs: seq<T>, key: T -> string, selection: string): (r: seq<T>)
    ensures selection == ALL ==> r == xs
    ensures selection != ALL ==> |r| == Count(xs, key, selection)
    ensures selection != ALL ==> forall k :: 0 <= k < |r| ==> key(r[k]) == selection
    ensures selection != ALL ==> forall k :: 0 <= k < |xs| && key(xs[k]) == selection ==> xs[k] in r
    ensures Subsequence(r, xs)
  {
    if selection == ALL then
      SubsequenceRefl(xs);
      xs
    else
      MatchingIsExact(xs, key, selection);
      Matching(xs, key, selection)
  }

  lemma {:induction false} SubsequenceRefl<T>(xs: seq<T>)
    ensures Subsequence(xs, xs)
  {
    if |xs| > 0 { SubsequenceRefl(xs[1..]); }
  }

  /** When every key is one of the listed values, the counts of the listed
      values add up to the length of the list. */
  lemma {:induction false} CountsPartition<T>(xs: seq<T>, key: T -> string, values: seq<string>)
    requires forall i, j :: 0 <= i < j < |values| ==> values[i] != values[j]
    requires forall x :: x in xs ==> key(x) in values
    ensures SumCounts(xs, key, values) == |xs|
  {
    if |xs| > 0 {
      assert xs[0] in xs;
      CountsPartition(xs[1..], key, values);
      SumCountsStep(xs, key, values);
    } else {
      SumCountsOfEmpty(xs, key, values);
    }
  }

  lemma {:induction false} SumCountsOfEmpty<T>(xs: seq<T>, key: T -> string, values: seq<string>)
    requires |xs| == 0
    ensures SumCounts(xs, key, values) == 0
  {
    if |values| > 0 { SumCountsOfEmpty(xs, key, values[1..]); }
  }

  /** Sum over `values` of Count(xs, key, v). */
  function SumCounts<T>(xs: seq<T>, key: T -> string, values: seq<string>): nat
  {
    if |values| == 0 then 0 else Count(xs, key, values[0]) + SumCounts(xs, key, values[1..])
  }

  /** Removing the head of the list lowers the sum by one exactly when the
      head's key is among the (distinct) values. */
  lemma {:induction false} SumCountsStep<T>(xs: seq<T>, key: T -> string, values: seq<string>)
    requires |xs| > 0
    requires forall i, j :: 0 <= i < j < |values| ==> values[i] != values[j]
    ensures SumCounts(xs, key, values) ==
      SumCounts(xs[1..], key, values) + (if key(xs[0]) in values then 1 else 0)
  {
    if |values| > 0 {
      SumCountsStep(xs, key, values[1..]);
      if key(xs[0]) == values[0] {
        assert key(xs[0]) !in values[1..];
      }
    }
  }
}
