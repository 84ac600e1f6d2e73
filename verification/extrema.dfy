/** Maximum and minimum of a non-empty column of prices. */
module Extrema {

  /** `m` is a greatest element of `s`: it occurs in `s` and bounds it above. */
  predicate IsHighest(m: int, s: seq<int>)
  {
    m in s && forall i :: 0 <= i < |s| ==> s[i] <= m
  }

  /** `m` is a least element of `s`: it occurs in `s` and bounds it below. */
  predicate IsLowest(m: int, s: seq<int>)
  {
    m in s && forall i :: 0 <= i < |s| ==> m <= s[i]
  }

  /** The largest value of `s`, the model of pandas' `Series.max`. */
  function Highest(s: seq<int>): (m: int)
    requires |s| > 0
    ensures IsHighest(m, s)
  {
    if |s| == 1 then s[0]
    else
      var rest := Highest(s[1..]);
      if s[0] >= rest then s[0] else rest
  }

  /** The smallest value of `s`, the model of pandas' `Series.min`. */
  function Lowest(s: seq<int>): (m: int)
    requires |s| > 0
    ensures IsLowest(m, s)
  {
    if |s| == 1 then s[0]
    else
      var rest := Lowest(s[1..]);
      if s[0] <= rest then s[0] else rest
  }

  /** A greatest element is unique: whatever value meets the definition is the
      one `Highest` returns, so the order of rows cannot change the answer. */
  lemma HighestIsUnique(m: int, s: seq<int>)
    requires IsHighest(m, s)
    ensures |s| > 0 && m == Highest(s)
  {
  }

  /** A least element is unique in the same way. */
  lemma LowestIsUnique(m: int, s: seq<int>)
    requires IsLowest(m, s)
    ensures |s| > 0 && m == Lowest(s)
  {
  }

  /** The highest value is never below the lowest one. */
  lemma HighestAtLeastLowest(s: seq<int>)
    requires |s| > 0
    ensures Lowest(s) <= Highest(s)
  {
  }

  /** On a single value both extrema are that value. */
  lemma SingletonExtrema(v: int)
    ensures Highest([v]) == v && Lowest([v]) == v
  {
  }
}
