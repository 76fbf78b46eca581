/** Latency ladders: an ascending list of inclusive upper bounds, and a counter per bound.
    A value is tallied in the first bucket whose bound is not below it. */
module Buckets {

  /** Index of the first bound in `steps` that is at least `t`; `|steps|` when there is none.
      This is what a left-to-right scan with "t <= steps[index]" and an early return finds. */
  function FirstFit(steps: seq<int>, t: int): (r: nat)
    ensures r <= |steps|
    ensures r < |steps| ==> t <= steps[r]
    ensures forall j :: 0 <= j < r ==> steps[j] < t
  {
    if |steps| == 0 then 0
    else if t <= steps[0] then 0
    else 1 + FirstFit(steps[1..], t)
  }

  /** Sum of a sequence of counters. */
  function Total(s: seq<int>): int
  {
    if |s| == 0 then 0 else s[0] + Total(s[1..])
  }

  /** A ladder whose counters are all zero has total zero. */
  lemma {:induction false} TotalOfZeros(s: seq<int>)
    requires forall i :: 0 <= i < |s| ==> s[i] == 0
    ensures Total(s) == 0
  {
    if |s| > 0 {
      TotalOfZeros(s[1..]);
    }
  }

  /** Replacing one counter changes the total by exactly the difference. */
  lemma {:induction false} TotalUpdate(s: seq<int>, i: nat, v: int)
    requires i < |s|
    ensures Total(s[i := v]) == Total(s) - s[i] + v
  {
    if i == 0 {
      assert s[i := v][1..] == s[1..];
    } else {
      assert s[i := v][1..] == s[1..][i - 1 := v];
      TotalUpdate(s[1..], i - 1, v);
    }
  }

  /** The total of a pointwise sum of two ladders is the sum of their totals. */
  lemma {:induction false} TotalPointwiseSum(s: seq<int>, t: seq<int>, r: seq<int>)
    requires |s| == |t| == |r|
    requires forall i :: 0 <= i < |r| ==> r[i] == s[i] + t[i]
    ensures Total(r) == Total(s) + Total(t)
  {
    if |r| > 0 {
      TotalPointwiseSum(s[1..], t[1..], r[1..]);
    }
  }
}
