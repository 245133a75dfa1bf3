/** The numbers `src/components/PredictedVsActualChart.tsx` computes from the predicted/actual
    pairs before drawing them: the coefficient of determination shown under the chart, and the
    smallest and largest plotted value, which bound the line of perfect prediction. */
module PredictedVsActualChart {
  import opened Pipeline

  /** A JavaScript number as far as the chart's arithmetic takes it: a finite value, or one of
      the non-finite values that the empty input and constant actual scores produce. */
  datatype Number = Finite(x: real) | NaN | PositiveInfinity | NegativeInfinity

  /** `Math.pow(x, 2)`. */
  function Square(x: real): (r: real)
    ensures r >= 0.0
  {
    x * x
  }

  /** `a / b` on numbers where b is a sum of squares: division by zero gives an infinity of the
      numerator's sign, or NaN when the numerator is zero too. */
  function Divide(a: real, b: real): (r: Number)
    ensures r.Finite? <==> b != 0.0
    ensures r.Finite? ==> r.x * b == a
    ensures b == 0.0 ==> (r == NaN <==> a == 0.0) && (r == PositiveInfinity <==> a > 0.0)
  {
    if b != 0.0 then Finite(a / b)
    else if a > 0.0 then PositiveInfinity
    else if a < 0.0 then NegativeInfinity
    else NaN
  }

  /** `1 - n`. */
  function OneMinus(n: Number): (r: Number)
    ensures r.Finite? <==> n.Finite?
    ensures r.Finite? ==> r.x + n.x == 1.0
    ensures r == NaN <==> n == NaN
  {
    match n
    case Finite(x) => Finite(1.0 - x)
    case NaN => NaN
    case PositiveInfinity => NegativeInfinity
    case NegativeInfinity => PositiveInfinity
  }

  /** Line 18's `reduce`: the actual values added up from the left, starting from 0. When every
      actual value is the first one, the sum is that value |data| times, which is what makes
      the mean of constant actual values that value (ConstantMean). */
  function ActualSum(data: seq<Pair>): (r: real)
    ensures data != [] && (forall i :: 0 <= i < |data| ==> data[i].actual == data[0].actual) ==>
      r == (|data| as real) * data[0].actual
  {
    if data == [] then 0.0
    else
      var n := |data| - 1;
      assert forall i :: 0 <= i < n ==> data[..n][i] == data[i];
      assert (n as real) * data[0].actual + data[0].actual == (|data| as real) * data[0].actual;
      ActualSum(data[..n]) + data[n].actual
  }

  /** Line 18: the mean actual value; 0 / 0 is NaN when there are no points. */
  function ActualMean(data: seq<Pair>): (r: Number)
    ensures r.Finite? <==> data != []
  {
    if |data| == 0 then NaN else Finite(ActualSum(data) / (|data| as real))
  }

  /** Line 19: the sum of the squared residuals. */
  function SsRes(data: seq<Pair>): (r: real)
    ensures r >= 0.0
  {
    if data == [] then 0.0
    else SsRes(data[..|data| - 1]) + Square(data[|data| - 1].actual - data[|data| - 1].predicted)
  }

  /** The sum of the squared distances of the actual values from m. */
  function Spread(data: seq<Pair>, m: real): (r: real)
    ensures r >= 0.0
  {
    if data == [] then 0.0 else Spread(data[..|data| - 1], m) + Square(data[|data| - 1].actual - m)
  }

  /** Line 20: the total sum of squares around the mean. With no points the `reduce` returns its
      start value 0 without ever using the (NaN) mean. */
  function SsTot(data: seq<Pair>): (r: real)
    ensures r >= 0.0
  {
    if data == [] then 0.0 else Spread(data, ActualSum(data) / (|data| as real))
  }

  /** Line 21: `1 - ssRes / ssTot`. Both sums are non-negative, so a finite result is at most 1. */
  function R2(data: seq<Pair>): (r: Number)
    ensures r.Finite? <==> SsTot(data) > 0.0
    ensures r.Finite? ==> r.x <= 1.0
  {
    var res := SsRes(data);
    var tot := SsTot(data);
    assert tot > 0.0 ==> res / tot >= 0.0;
    OneMinus(Divide(res, tot))
  }

  /** Line 24: `flatMap(item => [item.actual, item.predicted])`. */
  function Values(data: seq<Pair>): (r: seq<real>)
    ensures |r| == 2 * |data|
    ensures forall i :: 0 <= i < |data| ==> r[2 * i] == data[i].actual && r[2 * i + 1] == data[i].predicted
  {
    if data == [] then []
    else
      var rest := Values(data[1..]);
      var r := [data[0].actual, data[0].predicted] + rest;
      assert forall i :: 1 <= i < |data| ==> r[2 * i] == rest[2 * (i - 1)] && r[2 * i + 1] == rest[2 * (i - 1) + 1];
      r
  }

  /** The smallest element of a non-empty sequence. */
  function Least(xs: seq<real>): (r: real)
    requires xs != []
    ensures r in xs && forall i :: 0 <= i < |xs| ==> r <= xs[i]
  {
    if |xs| == 1 then xs[0]
    else
      var m := Least(xs[1..]);
      assert forall i :: 1 <= i < |xs| ==> xs[i] == xs[1..][i - 1];
      if xs[0] <= m then xs[0] else m
  }

  /** The largest element of a non-empty sequence. */
  function Greatest(xs: seq<real>): (r: real)
    requires xs != []
    ensures r in xs && forall i :: 0 <= i < |xs| ==> xs[i] <= r
  {
    if |xs| == 1 then xs[0]
    else
      var m := Greatest(xs[1..]);
      assert forall i :: 1 <= i < |xs| ==> xs[i] == xs[1..][i - 1];
      if xs[0] >= m then xs[0] else m
  }

  /** Line 25: `Math.min(...values)`, which is +Infinity for no arguments. */
  function MinVal(data: seq<Pair>): (r: Number)
    ensures r.Finite? <==> data != []
    ensures r.Finite? ==> forall i :: 0 <= i < |data| ==> r.x <= data[i].actual && r.x <= data[i].predicted
  {
    var vs := Values(data);
    if vs == [] then PositiveInfinity else Finite(Least(vs))
  }

  /** Line 26: `Math.max(...values)`, which is -Infinity for no arguments. */
  function MaxVal(data: seq<Pair>): (r: Number)
    ensures r.Finite? <==> data != []
    ensures r.Finite? ==> forall i :: 0 <= i < |data| ==> data[i].actual <= r.x && data[i].predicted <= r.x
  {
    var vs := Values(data);
    if vs == [] then NegativeInfinity else Finite(Greatest(vs))
  }

  // ---------------------------------------------------------------------------------------
  // The coefficient of determination

  /** A sum of squares around m is zero when every actual value is m. */
  lemma {:induction false} SpreadAtCentre(data: seq<Pair>, m: real)
    requires forall i :: 0 <= i < |data| ==> data[i].actual == m
    ensures Spread(data, m) == 0.0
  {
    if data != [] {
      var n := |data| - 1;
      assert forall i :: 0 <= i < n ==> data[..n][i] == data[i];
      SpreadAtCentre(data[..n], m);
    }
  }

  /** Perfect predictions leave no residual. */
  lemma {:induction false} PerfectResiduals(data: seq<Pair>)
    requires forall i :: 0 <= i < |data| ==> data[i].actual == data[i].predicted
    ensures SsRes(data) == 0.0
  {
    if data != [] {
      var n := |data| - 1;
      assert forall i :: 0 <= i < n ==> data[..n][i] == data[i];
      PerfectResiduals(data[..n]);
    }
  }

  /** Actual values that all equal c have mean c. */
  lemma ConstantMean(data: seq<Pair>, c: real)
    requires data != [] && forall i :: 0 <= i < |data| ==> data[i].actual == c
    ensures ActualMean(data) == Finite(c)
  {
    assert data[0].actual == c;
    var k := |data| as real;
    Cancel(k, c);
    assert ActualSum(data) / k == k * c / k;
  }

  lemma Cancel(k: real, c: real)
    requires k > 0.0
    ensures k * c / k == c
  {
  }

  /** Constant actual values leave no total sum of squares. */
  lemma ConstantActuals(data: seq<Pair>, c: real)
    requires forall i :: 0 <= i < |data| ==> data[i].actual == c
    ensures SsTot(data) == 0.0
  {
    if data != [] {
      ConstantMean(data, c);
      SpreadAtCentre(data, c);
    }
  }

  /** R² is a finite number exactly when the total sum of squares is positive: with no points,
      or with constant actual values, it is NaN or -Infinity. */
  lemma R2Defined(data: seq<Pair>)
    ensures R2(data).Finite? <==> SsTot(data) > 0.0
    ensures SsTot(data) == 0.0 ==> R2(data) == if SsRes(data) == 0.0 then NaN else NegativeInfinity
    ensures data == [] ==> R2(data) == NaN
  {
  }

  /** With a positive total sum of squares, R² is at most 1, and exactly 1 for perfect
      predictions. */
  lemma R2AtMostOne(data: seq<Pair>)
    requires SsTot(data) > 0.0
    ensures R2(data).Finite? && R2(data).x <= 1.0
    ensures (forall i :: 0 <= i < |data| ==> data[i].actual == data[i].predicted) ==> R2(data) == Finite(1.0)
  {
    if forall i :: 0 <= i < |data| ==> data[i].actual == data[i].predicted {
      PerfectResiduals(data);
    }
  }

  // ---------------------------------------------------------------------------------------
  // The plotted range

  /** With at least one point, both bounds are finite, every actual and predicted value lies
      between them, and each bound is one of the plotted values. */
  lemma Range(data: seq<Pair>)
    requires data != []
    ensures MinVal(data).Finite? && MaxVal(data).Finite? && MinVal(data).x <= MaxVal(data).x
    ensures forall i :: 0 <= i < |data| ==>
      && MinVal(data).x <= data[i].actual <= MaxVal(data).x
      && MinVal(data).x <= data[i].predicted <= MaxVal(data).x
    ensures exists i :: 0 <= i < |data| && (MinVal(data).x == data[i].actual || MinVal(data).x == data[i].predicted)
    ensures exists i :: 0 <= i < |data| && (MaxVal(data).x == data[i].actual || MaxVal(data).x == data[i].predicted)
  {
    var vs := Values(data);
    var lo := Least(vs);
    var hi := Greatest(vs);
    assert vs[0] == data[0].actual;
    forall i | 0 <= i < |data|
      ensures lo <= data[i].actual <= hi && lo <= data[i].predicted <= hi
    {
      assert vs[2 * i] == data[i].actual && vs[2 * i + 1] == data[i].predicted;
    }
    Attained(data, lo);
    Attained(data, hi);
  }

  /** Every plotted value comes from some point. */
  lemma {:induction false} Attained(data: seq<Pair>, v: real)
    requires v in Values(data)
    ensures exists i :: 0 <= i < |data| && (v == data[i].actual || v == data[i].predicted)
  {
    var rest := Values(data[1..]);
    assert Values(data) == [data[0].actual, data[0].predicted] + rest;
    if v != data[0].actual && v != data[0].predicted {
      assert v in rest;
      Attained(data[1..], v);
      var i :| 0 <= i < |data[1..]| && (v == data[1..][i].actual || v == data[1..][i].predicted);
      assert data[1..][i] == data[i + 1];
    }
  }

  /** With no points the bounds are the infinities `Math.min()` and `Math.max()` return. */
  lemma EmptyRange()
    ensures MinVal([]) == PositiveInfinity && MaxVal([]) == NegativeInfinity
  {
  }
}
