/**
 * The running-average arithmetic every revision of the bot uses: folding one
 * more result into a stored average, and merging a stored average with an
 * externally known prior history (the `adjust` command).
 */
module Averages {

  /** Largest average the bot accepts from a manual edit (a failed game counts 7). */
  const MaxAvg: real := 7.0

  /** Sum of a history of try counts. */
  function Sum(ts: seq<real>): real
  {
    if ts == [] then 0.0 else Sum(ts[..|ts| - 1]) + ts[|ts| - 1]
  }

  /** Arithmetic mean of a non-empty history. */
  function Mean(ts: seq<real>): real
    requires |ts| > 0
  {
    Sum(ts) / |ts| as real
  }

  /**
   * The average after one more game: `(avg * n + tries) / (n + 1)`, where `n`
   * is the number of games already folded into `avg`. Python raises
   * ZeroDivisionError when `n + 1 == 0`, which callers handle beforehand.
   */
  function FoldIn(avg: real, n: int, tries: real): (r: real)
    requires n != -1
    ensures r * (n + 1) as real == avg * n as real + tries
    ensures 0 <= n && 0.0 <= avg <= MaxAvg && 0.0 <= tries <= MaxAvg ==> 0.0 <= r <= MaxAvg
  {
    WeightedMeanBounds(avg, n as real, tries, 1.0);
    (avg * n as real + tries) / (n + 1) as real
  }

  /**
   * Merge of two averaged histories, weighted by their lengths:
   * `(avgA * nA + avgB * nB) / (nA + nB)`.
   */
  function Merge(avgA: real, nA: int, avgB: real, nB: int): (r: real)
    requires nA + nB != 0
    ensures r * (nA + nB) as real == avgA * nA as real + avgB * nB as real
    ensures 0 <= nA && 0 <= nB && 0.0 <= avgA <= MaxAvg && 0.0 <= avgB <= MaxAvg ==> 0.0 <= r <= MaxAvg
  {
    WeightedMeanBounds(avgA, nA as real, avgB, nB as real);
    (avgA * nA as real + avgB * nB as real) / (nA + nB) as real
  }

  /** A value whose product with a positive weight `d` lies in `[0, 7 * d]` lies in `[0, 7]`. */
  lemma BoundedQuotient(r: real, d: real)
    requires d > 0.0 && 0.0 <= r * d <= 7.0 * d
    ensures 0.0 <= r <= 7.0
  {
  }

  /** The weighted mean of `a` (weight `x`) and `b` (weight `y`), and its bounds. */
  lemma WeightedMeanBounds(a: real, x: real, b: real, y: real)
    requires x + y != 0.0
    ensures ((a * x + b * y) / (x + y)) * (x + y) == a * x + b * y
    ensures 0.0 <= x && 0.0 <= y && 0.0 <= a <= 7.0 && 0.0 <= b <= 7.0 ==>
      0.0 <= (a * x + b * y) / (x + y) <= 7.0
  {
    var total, d := a * x + b * y, x + y;
    if 0.0 <= x && 0.0 <= y && 0.0 <= a <= 7.0 && 0.0 <= b <= 7.0 {
      WeightedSumBound(a, x, b, y);
      assert 7.0 * x + 7.0 * y == 7.0 * d;
      QuotientTimesDivisor(total, d);
      BoundedQuotient(total / d, d);
    } else {
      QuotientTimesDivisor(total, d);
    }
  }

  /** `(q / d) * d == q` for a non-zero divisor. */
  lemma QuotientTimesDivisor(q: real, d: real)
    requires d != 0.0
    ensures (q / d) * d == q
  {
  }

  /** A value in `[0, 7]` times a non-negative weight lies in `[0, 7 * weight]`. */
  lemma ScaledBound(a: real, x: real)
    requires 0.0 <= x && 0.0 <= a <= 7.0
    ensures 0.0 <= a * x <= 7.0 * x
  {
  }

  /** Two values in `[0, 7]` with non-negative weights sum to at most 7 times the total weight. */
  lemma WeightedSumBound(a: real, x: real, b: real, y: real)
    requires 0.0 <= x && 0.0 <= y && 0.0 <= a <= 7.0 && 0.0 <= b <= 7.0
    ensures 0.0 <= a * x + b * y <= 7.0 * x + 7.0 * y
  {
    ScaledBound(a, x);
    ScaledBound(b, y);
    var ax, bY := a * x, b * y;
    assert ax <= 7.0 * x && bY <= 7.0 * y;
    assert ax + bY <= 7.0 * x + 7.0 * y;
  }

  /**
   * The average the bot holds after a history of results: the first result
   * starts it (`score_avg = tries`), each later one is folded in.
   */
  function Running(ts: seq<real>): real
    requires |ts| > 0
  {
    if |ts| == 1 then ts[0] else FoldIn(Running(ts[..|ts| - 1]), |ts| - 1, ts[|ts| - 1])
  }

  /** Folding results in one at a time yields the plain mean of the history. */
  lemma {:induction false} RunningIsMean(ts: seq<real>)
    requires |ts| > 0
    ensures Running(ts) == Mean(ts)
  {
    if |ts| == 1 {
      assert ts[..0] == [];
    } else {
      var front := ts[..|ts| - 1];
      var k := |front|;
      RunningIsMean(front);
      var a := Running(front);
      assert a * k as real == Sum(front);
      var r := Running(ts);
      assert r * (k + 1) as real == a * k as real + ts[k];
      assert r * (k + 1) as real == Sum(ts);
    }
  }

  /** Sum distributes over concatenation. */
  lemma {:induction false} SumAppend(xs: seq<real>, ys: seq<real>)
    ensures Sum(xs + ys) == Sum(xs) + Sum(ys)
  {
    if ys == [] {
      assert xs + ys == xs;
    } else {
      var ys' := ys[..|ys| - 1];
      assert (xs + ys)[..|xs + ys| - 1] == xs + ys';
      SumAppend(xs, ys');
    }
  }

  /** Merging the averages of two histories gives the mean of both together. */
  lemma MergeIsMeanOfConcat(xs: seq<real>, ys: seq<real>)
    requires |xs| > 0 && |ys| > 0
    ensures Merge(Mean(xs), |xs|, Mean(ys), |ys|) == Mean(xs + ys)
  {
    SumAppend(xs, ys);
    var a, b := Mean(xs), Mean(ys);
    assert a * |xs| as real == Sum(xs);
    assert b * |ys| as real == Sum(ys);
    var m := Merge(a, |xs|, b, |ys|);
    assert m * (|xs| + |ys|) as real == Sum(xs + ys);
  }

  /** Taking one result out of a history takes it out of the multiset. */
  lemma RemoveOneMultiset(ys: seq<real>, i: nat)
    requires i < |ys|
    ensures multiset(ys[..i] + ys[i + 1..]) == multiset(ys) - multiset{ys[i]}
  {
    assert ys == ys[..i] + [ys[i]] + ys[i + 1..];
  }

  /** Taking one result out of a history takes it out of the sum. */
  lemma RemoveOneSum(ys: seq<real>, i: nat)
    requires i < |ys|
    ensures Sum(ys) == Sum(ys[..i] + ys[i + 1..]) + ys[i]
  {
    var left, x, right := ys[..i], ys[i], ys[i + 1..];
    assert ys == (left + [x]) + right;
    SumAppend(left + [x], right);
    SumAppend(left, right);
    assert Sum(left + [x]) == Sum(left) + x by {
      assert (left + [x])[..|left|] == left;
    }
  }

  /** Sum does not depend on the order of the results: any rearrangement has the same sum. */
  lemma {:induction false} SumPermutation(xs: seq<real>, ys: seq<real>)
    requires multiset(xs) == multiset(ys)
    ensures Sum(xs) == Sum(ys)
    decreases |xs|
  {
    if xs != [] {
      var front, x := xs[..|xs| - 1], xs[|xs| - 1];
      assert xs == front + [x];
      assert multiset(front) == multiset(xs) - multiset{x};
      assert x in multiset(ys);
      var i :| 0 <= i < |ys| && ys[i] == x;
      RemoveOneMultiset(ys, i);
      RemoveOneSum(ys, i);
      SumPermutation(front, ys[..i] + ys[i + 1..]);
    }
  }

  /**
   * The mean does not depend on the order the results arrive in: any
   * rearrangement of a history has the same mean.
   */
  lemma MeanOrderIndependent(xs: seq<real>, ys: seq<real>)
    requires |xs| > 0 && multiset(xs) == multiset(ys)
    ensures |ys| == |xs| && Mean(xs) == Mean(ys)
  {
    assert |ys| == |multiset(ys)| == |multiset(xs)| == |xs|;
    SumPermutation(xs, ys);
  }

  /**
   * A result that arrives late, after results of later editions, leaves the
   * same mean as if it had arrived in edition order.
   */
  lemma LateResultCountsTheSame(before: seq<real>, after: seq<real>, late: real)
    ensures Mean(before + after + [late]) == Mean(before + [late] + after)
  {
    assert multiset(before + after + [late]) == multiset(before + [late] + after);
    MeanOrderIndependent(before + after + [late], before + [late] + after);
  }
}
