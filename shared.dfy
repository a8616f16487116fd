/** Value types shared by several agents. */
module Shared {
  import opened Wrappers
  import opened Dicts

  /** A risk level, as the agents write it: "LOW", "MEDIUM" or "HIGH". */
  datatype Risk = Low | Medium | High

  /** A drafted message as the compliance, feedback and decision agents read it:
      `message_id` and `content`, either of which may be absent. */
  datatype MessageView = MessageView(id: Option<int>, content: Option<string>)

  /** A configuration value: a string, a number, a list or a nested table. */
  datatype Value = Str(s: string) | Num(x: real) | Items(items: seq<Value>) | Entries(entries: seq<(string, Value)>)

  /** An adaptation set: parameter name to value, in insertion order. */
  type Adaptations = Dict<string, Value>

  /** The messages an agent reviews: the copywriter's messages from earlier in the run when there are any,
      otherwise the caller's own `messages`. */
  function MessagesToReview(fromCopywriter: seq<MessageView>, fromCaller: seq<MessageView>): (ms: seq<MessageView>)
    ensures fromCopywriter != [] ==> ms == fromCopywriter
    ensures fromCopywriter == [] ==> ms == fromCaller
  {
    if fromCopywriter != [] then fromCopywriter else fromCaller
  }

  /** The sum of a list of numbers. */
  function Sum(xs: seq<real>): real {
    if xs == [] then 0.0 else xs[0] + Sum(xs[1..])
  }

  /** The mean `total / n` times `n` gives back the total. */
  lemma MeanTimesCount(total: real, n: real)
    requires n > 0.0
    ensures (total / n) * n == total
  {
  }

  /** A total between `lo * n` and `hi * n` has its mean between `lo` and `hi`. */
  lemma MeanBounds(total: real, n: real, lo: real, hi: real)
    requires n > 0.0 && lo * n <= total <= hi * n
    ensures lo <= total / n <= hi
  {
    MeanTimesCount(total, n);
  }

  /** The share `c / m` of `m` things lies in [0, 1] and gives back `c` when multiplied by `m`. */
  lemma Rate(c: nat, m: nat)
    requires 0 < m && c <= m
    ensures 0.0 <= c as real / m as real <= 1.0
    ensures (c as real / m as real) * m as real == c as real
  {
    MeanBounds(c as real, m as real, 0.0, 1.0);
    MeanTimesCount(c as real, m as real);
  }

  /** The sum of numbers all between `lo` and `hi` lies between `lo` and `hi` times their count. */
  lemma {:induction false} SumBounds(xs: seq<real>, lo: real, hi: real)
    requires forall i :: 0 <= i < |xs| ==> lo <= xs[i] <= hi
    ensures lo * |xs| as real <= Sum(xs) <= hi * |xs| as real
    decreases |xs|
  {
    if xs != [] {
      SumBounds(xs[1..], lo, hi);
      assert lo * |xs| as real == lo + lo * |xs[1..]| as real;
      assert hi * |xs| as real == hi + hi * |xs[1..]| as real;
    }
  }

  /** `sum(xs) / len(xs)`. */
  function Mean(xs: seq<real>): real
    requires xs != []
  {
    Sum(xs) / |xs| as real
  }

  /** `max(xs)`. */
  function MaxOf(xs: seq<real>): (m: real)
    requires xs != []
    ensures forall i :: 0 <= i < |xs| ==> xs[i] <= m
  {
    if |xs| == 1 then xs[0]
    else
      var rest := MaxOf(xs[1..]);
      assert forall i :: 1 <= i < |xs| ==> xs[i] == xs[1..][i - 1];
      if xs[0] >= rest then xs[0] else rest
  }

  /** `min(xs)`. */
  function MinOf(xs: seq<real>): (m: real)
    requires xs != []
    ensures forall i :: 0 <= i < |xs| ==> m <= xs[i]
  {
    if |xs| == 1 then xs[0]
    else
      var rest := MinOf(xs[1..]);
      assert forall i :: 1 <= i < |xs| ==> xs[i] == xs[1..][i - 1];
      if xs[0] <= rest then xs[0] else rest
  }

  /** The largest of numbers that are all at most `hi` is at most `hi`. */
  lemma {:induction false} MaxAtMost(xs: seq<real>, hi: real)
    requires xs != [] && forall i :: 0 <= i < |xs| ==> xs[i] <= hi
    ensures MaxOf(xs) <= hi
    decreases |xs|
  {
    if |xs| > 1 {
      MaxAtMost(xs[1..], hi);
    }
  }

  /** The smallest of numbers that are all at least `lo` is at least `lo`. */
  lemma {:induction false} MinAtLeast(xs: seq<real>, lo: real)
    requires xs != [] && forall i :: 0 <= i < |xs| ==> lo <= xs[i]
    ensures lo <= MinOf(xs)
    decreases |xs|
  {
    if |xs| > 1 {
      MinAtLeast(xs[1..], lo);
    }
  }

  /** A mean lies between the smallest and the largest of its numbers. */
  lemma MeanWithin(xs: seq<real>)
    requires xs != []
    ensures MinOf(xs) <= Mean(xs) <= MaxOf(xs)
  {
    SumBounds(xs, MinOf(xs), MaxOf(xs));
    MeanBounds(Sum(xs), |xs| as real, MinOf(xs), MaxOf(xs));
  }

  /** The index Python's `max(..., key=...)` picks: the first of the maximal keys. */
  function FirstMax(keys: seq<real>): (i: nat)
    requires keys != []
    ensures i < |keys|
    ensures forall j :: 0 <= j < |keys| ==> keys[j] <= keys[i]
    ensures forall j :: 0 <= j < i ==> keys[j] < keys[i]
    decreases |keys|
  {
    if |keys| == 1 then 0
    else
      var init := keys[..|keys| - 1];
      var k := FirstMax(init);
      assert forall j :: 0 <= j < |keys| - 1 ==> keys[j] == init[j];
      if keys[|keys| - 1] > keys[k] then |keys| - 1 else k
  }
}
