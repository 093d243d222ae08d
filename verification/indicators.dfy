/** The relative strength index with Wilder's smoothing, over exact reals. */
module Indicators {
  import opened Wrappers

  const RSI_PERIOD: nat := 14

  function Rise(x: real): real { if x >= 0.0 then x else 0.0 }

  function Decline(x: real): real { if x <= 0.0 then -x else 0.0 }

  function Changes(closes: seq<real>): (r: seq<real>)
    ensures |r| == if closes == [] then 0 else |closes| - 1
  {
    if closes == [] then [] else seq(|closes| - 1, i requires 0 <= i < |closes| - 1 => closes[i + 1] - closes[i])
  }

  function Sum(xs: seq<real>): real {
    if xs == [] then 0.0 else Sum(xs[..|xs| - 1]) + xs[|xs| - 1]
  }

  /** A new value counts 1/period, the average so far the rest. */
  function Blend(average: real, x: real, period: nat): real
    requires period >= 1
  {
    (average * (period - 1) as real + x) / period as real
  }

  /** Wilder's average: the mean of the first `period` values, then a new value counts 1/period. */
  function Smoothed(xs: seq<real>, period: nat): real
    requires 1 <= period <= |xs|
  {
    if |xs| == period then Sum(xs) / period as real
    else Blend(Smoothed(xs[..|xs| - 1], period), xs[|xs| - 1], period)
  }

  function Map(f: real -> real, xs: seq<real>): (r: seq<real>)
    ensures |r| == |xs| && forall i :: 0 <= i < |xs| ==> r[i] == f(xs[i])
  {
    seq(|xs|, i requires 0 <= i < |xs| => f(xs[i]))
  }

  function Gain(closes: seq<real>, period: nat): real
    requires 1 <= period < |closes|
  {
    Smoothed(Map(Rise, Changes(closes)), period)
  }

  function Loss(closes: seq<real>, period: nat): real
    requires 1 <= period < |closes|
  {
    Smoothed(Map(Decline, Changes(closes)), period)
  }

  /** The share of the smoothed gain, in percent; the middle when nothing moved. */
  function Share(gain: real, loss: real): real
    requires gain + loss != 0.0 || gain == 0.0
  {
    if gain + loss == 0.0 then 50.0 else 100.0 * gain / (gain + loss)
  }

  lemma Quotient(a: real, b: real, q: real)
    requires b != 0.0 && q * b == a
    ensures a / b == q
  {
  }

  function Times(k: real, x: real): real { k * x }

  predicate NonNegative(xs: seq<real>) {
    forall i :: 0 <= i < |xs| ==> xs[i] >= 0.0
  }

  lemma {:induction false} SumNonNegative(xs: seq<real>)
    requires NonNegative(xs)
    ensures Sum(xs) >= 0.0
    ensures Sum(xs) == 0.0 <==> forall i :: 0 <= i < |xs| ==> xs[i] == 0.0
  {
    if xs != [] {
      SumNonNegative(xs[..|xs| - 1]);
      assert forall i :: 0 <= i < |xs| - 1 ==> xs[..|xs| - 1][i] == xs[i];
    }
  }

  /** Wilder's average of values that are not negative vanishes only if all of them do, unless the
      period is one: then only the last value counts. */
  lemma {:induction false} SmoothedNonNegative(xs: seq<real>, period: nat)
    requires 1 <= period <= |xs| && NonNegative(xs)
    ensures Smoothed(xs, period) >= 0.0
    ensures period > 1 ==> (Smoothed(xs, period) == 0.0 <==> forall i :: 0 <= i < |xs| ==> xs[i] == 0.0)
  {
    if |xs| == period {
      SumNonNegative(xs);
    } else {
      var init := xs[..|xs| - 1];
      SmoothedNonNegative(init, period);
      assert forall i :: 0 <= i < |xs| - 1 ==> init[i] == xs[i];
      Weighted(Smoothed(init, period), xs[|xs| - 1], period);
    }
  }

  lemma Weighted(average: real, x: real, period: nat)
    requires average >= 0.0 && x >= 0.0 && period >= 1
    ensures Blend(average, x, period) >= 0.0
    ensures period > 1 ==> (Blend(average, x, period) == 0.0 <==> average == 0.0 && x == 0.0)
  {
    var p := (period - 1) as real;
    assert average * p >= 0.0;
    if period > 1 && average > 0.0 {
      assert average * p > 0.0;
    }
  }

  method Rsi(closes: seq<real>, period: nat) returns (r: Option<real>)
    requires period >= 1
    ensures r.None? <==> |closes| <= period
    ensures r.Some? ==> r.value == RsiValue(closes, period) && 0.0 <= r.value <= 100.0
    ensures r.Some? ==>
              var last := |closes| - 1;
              var rises, falls := WeightedRises(closes, period, last), WeightedFalls(closes, period, last);
              && rises >= 0.0 && falls >= 0.0
              && r.value == if rises == 0.0 && falls == 0.0 then 50.0 else 100.0 * rises / (rises + falls)
  {
    hide Sum, Changes, Share, Rise, Decline, Map, Blend, Smoothed;
    var changes := Changes(closes);
    if |changes| < period {
      return None;
    }
    ghost var ups, downs := Map(Rise, changes), Map(Decline, changes);
    var gain := MeanOf(changes, period, Rise);
    var loss := MeanOf(changes, period, Decline);
    for i := period to |changes|
      invariant gain == Smoothed(ups[..i], period) && loss == Smoothed(downs[..i], period)
    {
      var x := changes[i];
      OneMore(ups, i, period);
      OneMore(downs, i, period);
      gain := Blend(gain, Rise(x), period);
      loss := Blend(loss, Decline(x), period);
    }
    assert ups[..|changes|] == ups && downs[..|changes|] == downs;
    GainAndLoss(closes, period);
    GainAndLossAreWeighted(closes, period);
    ShareIs(gain, loss);
    r := Some(Index(gain, loss));
  }

  lemma ShareIs(gain: real, loss: real)
    requires gain >= 0.0 && loss >= 0.0
    ensures Share(gain, loss) == if gain == 0.0 && loss == 0.0 then 50.0 else 100.0 * gain / (gain + loss)
  {
  }

  /** The last lines of the computation. */
  function Index(gain: real, loss: real): (r: real)
    requires gain >= 0.0 && loss >= 0.0
    ensures r == Share(gain, loss) && 0.0 <= r <= 100.0
  {
    if loss == 0.0 then
      ShareExtremes(gain, loss);
      if gain == 0.0 then 50.0 else 100.0
    else
      AsShare(gain, loss);
      100.0 - 100.0 / (1.0 + gain / loss)
  }

  lemma OneMore(xs: seq<real>, i: nat, period: nat)
    requires 1 <= period <= i < |xs|
    ensures Smoothed(xs[..i + 1], period) == Blend(Smoothed(xs[..i], period), xs[i], period)
  {
    hide Blend, Sum;
    assert xs[..i + 1][..i] == xs[..i];
  }

  lemma GainAndLoss(closes: seq<real>, period: nat)
    requires 1 <= period < |closes|
    ensures Gain(closes, period) >= 0.0 && Loss(closes, period) >= 0.0
  {
    SmoothedNonNegative(Map(Rise, Changes(closes)), period);
    SmoothedNonNegative(Map(Decline, Changes(closes)), period);
  }

  /** The mean of the first `period` values. */
  method MeanOf(changes: seq<real>, period: nat, f: real -> real) returns (mean: real)
    requires 1 <= period <= |changes|
    ensures mean == Smoothed(Map(f, changes)[..period], period)
  {
    hide Map;
    var sum := 0.0;
    ghost var all := Map(f, changes);
    for i := 0 to period
      invariant sum == Sum(all[..i])
    {
      assert all[..i + 1][..i] == all[..i];
      sum := sum + f(changes[i]);
    }
    mean := sum / period as real;
  }

  lemma AsShare(gain: real, loss: real)
    requires gain >= 0.0 && loss > 0.0
    ensures 1.0 + gain / loss > 0.0 && 100.0 - 100.0 / (1.0 + gain / loss) == Share(gain, loss)
    ensures 0.0 <= Share(gain, loss) <= 100.0
  {
    var ratio, t := gain / loss, gain + loss;
    assert ratio * loss == gain;
    assert ratio >= 0.0;
    var q := 100.0 * loss / t;
    assert q * t == 100.0 * loss;
    assert (1.0 + ratio) * loss == t;
    assert (q * (1.0 + ratio)) * loss == q * ((1.0 + ratio) * loss) by {
      Associate(q, 1.0 + ratio, loss);
    }
    Cancel(q * (1.0 + ratio), 100.0, loss);
    Quotient(100.0, 1.0 + ratio, q);
    Quotient(100.0 * gain, t, 100.0 - q);
    Bounded(gain, loss);
  }

  lemma Associate(a: real, b: real, c: real)
    ensures (a * b) * c == a * (b * c)
  {
  }

  lemma Cancel(a: real, b: real, c: real)
    requires c != 0.0 && a * c == b * c
    ensures a == b
  {
  }

  lemma Bounded(gain: real, loss: real)
    requires gain >= 0.0 && loss > 0.0
    ensures 0.0 <= 100.0 * gain / (gain + loss) <= 100.0
  {
    var t := gain + loss;
    var r := 100.0 * gain / t;
    assert r * t == 100.0 * gain;
    assert r * t <= 100.0 * t;
  }

  // ---------------------------------------------------------------- what the index says

  /** 100 exactly if the price rose and never fell, 0 exactly if it fell and never rose. */
  lemma RsiExtremes(closes: seq<real>, period: nat)
    requires 2 <= period < |closes|
    ensures RsiValue(closes, period) == 100.0 <==>
              && (forall i, j :: 0 <= i < j < |closes| && j == i + 1 ==> closes[i] <= closes[j])
              && exists i, j :: 0 <= i < j < |closes| && j == i + 1 && closes[i] < closes[j]
    ensures RsiValue(closes, period) == 0.0 <==>
              && (forall i, j :: 0 <= i < j < |closes| && j == i + 1 ==> closes[i] >= closes[j])
              && exists i, j :: 0 <= i < j < |closes| && j == i + 1 && closes[i] > closes[j]
  {
    hide Share;
    var c := Changes(closes);
    var ups, downs := Map(Rise, c), Map(Decline, c);
    SmoothedNonNegative(ups, period);
    SmoothedNonNegative(downs, period);
    ShareExtremes(Gain(closes, period), Loss(closes, period));
    NeverRose(closes);
    NeverFell(closes);
  }

  /** The rises all vanish exactly if no price is above the one before it. */
  lemma NeverRose(closes: seq<real>)
    ensures (forall i :: 0 <= i < |Changes(closes)| ==> Map(Rise, Changes(closes))[i] == 0.0)
            <==> forall i, j :: 0 <= i < j < |closes| && j == i + 1 ==> closes[i] >= closes[j]
  {
    var ups := Map(Rise, Changes(closes));
    forall i, j | 0 <= i < j < |closes| && j == i + 1 ensures ups[i] == 0.0 <==> closes[i] >= closes[j] {
    }
    if forall i, j :: 0 <= i < j < |closes| && j == i + 1 ==> closes[i] >= closes[j] {
      forall i | 0 <= i < |ups| ensures ups[i] == 0.0 {
        assert closes[i] >= closes[i + 1];
      }
    }
  }

  lemma NeverFell(closes: seq<real>)
    ensures (forall i :: 0 <= i < |Changes(closes)| ==> Map(Decline, Changes(closes))[i] == 0.0)
            <==> forall i, j :: 0 <= i < j < |closes| && j == i + 1 ==> closes[i] <= closes[j]
  {
    var downs := Map(Decline, Changes(closes));
    forall i, j | 0 <= i < j < |closes| && j == i + 1 ensures downs[i] == 0.0 <==> closes[i] <= closes[j] {
    }
    if forall i, j :: 0 <= i < j < |closes| && j == i + 1 ==> closes[i] <= closes[j] {
      forall i | 0 <= i < |downs| ensures downs[i] == 0.0 {
        assert closes[i] <= closes[i + 1];
      }
    }
  }

  // ---------------------------------------------------------------- the averages by the prices

  function Power(q: real, k: nat): real { if k == 0 then 1.0 else q * Power(q, k - 1) }

  /** What a further change leaves of the weight of those before it. */
  function Keep(period: nat): real
    requires period >= 1
  {
    (period - 1) as real / period as real
  }

  /** What change i of n counts: the first `period` changes alike, every later one fresh at 1/period,
      fading with each change after them. */
  function Weight(i: nat, n: nat, period: nat): real
    requires i < n && 1 <= period <= n
  {
    Power(Keep(period), if i < period then n - period else n - 1 - i) / period as real
  }

  /** The weighted rises among the first k of all changes of price. */
  function WeightedRises(closes: seq<real>, period: nat, k: nat): real
    requires 1 <= period < |closes| && k < |closes|
  {
    if k == 0 then 0.0
    else
      WeightedRises(closes, period, k - 1) +
      Times(Weight(k - 1, |closes| - 1, period), if closes[k] > closes[k - 1] then closes[k] - closes[k - 1] else 0.0)
  }

  function WeightedFalls(closes: seq<real>, period: nat, k: nat): real
    requires 1 <= period < |closes| && k < |closes|
  {
    if k == 0 then 0.0
    else
      WeightedFalls(closes, period, k - 1) +
      Times(Weight(k - 1, |closes| - 1, period), if closes[k] < closes[k - 1] then closes[k - 1] - closes[k] else 0.0)
  }

  function WeightedSum(xs: seq<real>, period: nat, n: nat, k: nat): real
    requires 1 <= period <= n && k <= n && k <= |xs|
  {
    if k == 0 then 0.0 else WeightedSum(xs, period, n, k - 1) + Times(Weight(k - 1, n, period), xs[k - 1])
  }

  /** One more change scales the weights of those before it. */
  lemma WeightFades(i: nat, n: nat, period: nat)
    requires i < n && 1 <= period <= n
    ensures Weight(i, n + 1, period) == Times(Keep(period), Weight(i, n, period))
  {
    hide Keep;
    var k := if i < period then n - period else n - 1 - i;
    assert Power(Keep(period), k + 1) == Keep(period) * Power(Keep(period), k);
    MeanScales(Keep(period), Power(Keep(period), k), period as real);
  }

  lemma FadeAdds(q: real, sum: real, w: real, x: real)
    ensures Times(q, sum) + Times(Times(q, w), x) == Times(q, sum + Times(w, x))
  {
    Associate(q, w, x);
  }

  lemma {:induction false} WeightedSumFades(xs: seq<real>, period: nat, n: nat, k: nat)
    requires 1 <= period <= n && k <= n && k <= |xs|
    ensures WeightedSum(xs, period, n + 1, k) == Times(Keep(period), WeightedSum(xs, period, n, k))
  {
    hide Weight, Times, Keep;
    if k > 0 {
      WeightedSumFades(xs, period, n, k - 1);
      WeightFades(k - 1, n, period);
      FadeAdds(Keep(period), WeightedSum(xs, period, n, k - 1), Weight(k - 1, n, period), xs[k - 1]);
    } else {
      TimesZero(Keep(period));
    }
  }

  lemma TimesZero(q: real)
    ensures Times(q, 0.0) == 0.0
  {
  }

  /** While there are no more than `period` values their weights are all 1/period. */
  lemma {:induction false} WeightedMean(xs: seq<real>, period: nat, k: nat)
    requires 1 <= period && k <= period && k <= |xs|
    ensures WeightedSum(xs, period, period, k) == Sum(xs[..k]) / period as real
  {
    if k > 0 {
      WeightedMean(xs, period, k - 1);
      assert xs[..k][..k - 1] == xs[..k - 1];
      assert Weight(k - 1, period, period) == 1.0 / period as real;
      MeanAdds(Sum(xs[..k - 1]), xs[k - 1], period as real);
    }
  }

  lemma MeanAdds(a: real, b: real, p: real)
    requires p > 0.0
    ensures a / p + Times(1.0 / p, b) == (a + b) / p
  {
    var t := 1.0 / p;
    assert t * p == 1.0;
    assert (t * b) * p == b;
    Quotient(b, p, t * b);
    Quotient(a + b, p, a / p + b / p);
  }

  lemma {:induction false} WeightedPrefix(xs: seq<real>, ys: seq<real>, period: nat, n: nat, k: nat)
    requires 1 <= period <= n && k <= n && k <= |xs| && xs <= ys
    ensures WeightedSum(xs, period, n, k) == WeightedSum(ys, period, n, k)
  {
    if k > 0 {
      hide Weight, Times;
      WeightedPrefix(xs, ys, period, n, k - 1);
    }
  }

  /** Wilder's average in closed form. */
  lemma {:induction false} SmoothedIsWeighted(xs: seq<real>, period: nat)
    requires 1 <= period <= |xs|
    ensures Smoothed(xs, period) == WeightedSum(xs, period, |xs|, |xs|)
  {
    hide Weight, Times, Keep, Blend, Sum;
    if |xs| == period {
      WeightedMean(xs, period, period);
      assert xs[..period] == xs;
    } else {
      var n := |xs| - 1;
      var init := xs[..n];
      SmoothedIsWeighted(init, period);
      WeightedPrefix(init, xs, period, n, n);
      WeightedSumFades(xs, period, n, n);
      BlendWeighs(Smoothed(init, period), xs[n], period);
      LastWeight(n, period);
    }
  }

  lemma LastWeight(n: nat, period: nat)
    requires 1 <= period <= n
    ensures Weight(n, n + 1, period) == 1.0 / period as real
  {
    hide Keep;
  }

  lemma BlendWeighs(average: real, x: real, period: nat)
    requires period >= 1
    ensures Blend(average, x, period) == Times(Keep(period), average) + Times(1.0 / period as real, x)
  {
    var p, q := period as real, (period - 1) as real;
    var a := q / p;
    assert a * p == q;
    Swap(a, average, p);
    Quotient(average * q, p, a * average);
    MeanAdds(average * q, x, p);
  }

  lemma Swap(a: real, b: real, c: real)
    ensures (a * b) * c == b * (a * c)
  {
  }

  lemma {:induction false} RisesAreWeighted(closes: seq<real>, period: nat, k: nat)
    requires 1 <= period < |closes| && k < |closes|
    ensures WeightedSum(Map(Rise, Changes(closes)), period, |closes| - 1, k) == WeightedRises(closes, period, k)
    ensures WeightedSum(Map(Decline, Changes(closes)), period, |closes| - 1, k) == WeightedFalls(closes, period, k)
  {
    if k > 0 {
      hide Weight, Times, Map, Rise, Decline, Changes;
      RisesAreWeighted(closes, period, k - 1);
      RiseOf(closes, k - 1);
    }
  }

  lemma RiseOf(closes: seq<real>, i: nat)
    requires i + 1 < |closes|
    ensures Map(Rise, Changes(closes))[i] == if closes[i + 1] > closes[i] then closes[i + 1] - closes[i] else 0.0
    ensures Map(Decline, Changes(closes))[i] == if closes[i + 1] < closes[i] then closes[i] - closes[i + 1] else 0.0
  {
  }

  lemma GainAndLossAreWeighted(closes: seq<real>, period: nat)
    requires 1 <= period < |closes|
    ensures Gain(closes, period) == WeightedRises(closes, period, |closes| - 1)
    ensures Loss(closes, period) == WeightedFalls(closes, period, |closes| - 1)
  {
    SmoothedIsWeighted(Map(Rise, Changes(closes)), period);
    SmoothedIsWeighted(Map(Decline, Changes(closes)), period);
    RisesAreWeighted(closes, period, |closes| - 1);
  }

  /** What `Rsi` returns when there is enough history. */
  function RsiValue(closes: seq<real>, period: nat): real
    requires 1 <= period < |closes|
  {
    GainAndLoss(closes, period);
    Share(Gain(closes, period), Loss(closes, period))
  }

  lemma ShareExtremes(gain: real, loss: real)
    requires gain >= 0.0 && loss >= 0.0
    ensures Share(gain, loss) == 100.0 <==> loss == 0.0 && gain > 0.0
    ensures Share(gain, loss) == 0.0 <==> gain == 0.0 && loss > 0.0
  {
    if loss == 0.0 && gain > 0.0 {
      Quotient(100.0 * gain, gain + loss, 100.0);
    } else if loss > 0.0 {
      var t := gain + loss;
      var r := 100.0 * gain / t;
      assert r * t == 100.0 * gain;
      assert r == 100.0 ==> 100.0 * t == 100.0 * gain;
      assert gain == 0.0 ==> r * t == 0.0;
    }
  }

  function Scaled(k: real, xs: seq<real>): (r: seq<real>)
    ensures |r| == |xs| && forall i :: 0 <= i < |xs| ==> r[i] == Times(k, xs[i])
  {
    seq(|xs|, i requires 0 <= i < |xs| => Times(k, xs[i]))
  }

  lemma ScaledInit(k: real, xs: seq<real>)
    requires xs != []
    ensures Scaled(k, xs)[..|xs| - 1] == Scaled(k, xs[..|xs| - 1]) && Scaled(k, xs)[|xs| - 1] == Times(k, xs[|xs| - 1])
  {
    hide Times, Scaled;
  }

  lemma {:induction false} SumScales(k: real, xs: seq<real>)
    ensures Sum(Scaled(k, xs)) == k * Sum(xs)
  {
    if xs != [] {
      hide Scaled;
      ScaledInit(k, xs);
      SumScales(k, xs[..|xs| - 1]);
    }
  }

  lemma {:induction false} SmoothedScales(k: real, xs: seq<real>, period: nat)
    requires 1 <= period <= |xs|
    ensures Smoothed(Scaled(k, xs), period) == k * Smoothed(xs, period)
  {
    hide Scaled, Times, Blend, Sum;
    if |xs| == period {
      SumScales(k, xs);
      MeanScales(k, Sum(xs), period as real);
    } else {
      ScaledInit(k, xs);
      assert |Scaled(k, xs)| == |xs|;
      SmoothedScales(k, xs[..|xs| - 1], period);
      WeightScales(k, Smoothed(xs[..|xs| - 1], period), xs[|xs| - 1], period,
                   Smoothed(Scaled(k, xs)[..|xs| - 1], period));
    }
  }

  lemma MeanScales(k: real, sum: real, p: real)
    requires p > 0.0
    ensures (k * sum) / p == k * (sum / p)
  {
    var mean := sum / p;
    assert mean * p == sum;
    Associate(k, mean, p);
    Quotient(k * sum, p, k * mean);
  }

  lemma WeightScales(k: real, s: real, x: real, period: nat, s': real)
    requires period >= 1 && s' == k * s
    ensures Blend(s', Times(k, x), period) == k * Blend(s, x, period)
  {
    var q := (period - 1) as real;
    Associate(k, s, q);
    MeanScales(k, s * q + x, period as real);
  }

  lemma ChangesScale(closes: seq<real>, k: real)
    requires k > 0.0 && closes != []
    ensures
      var c, c' := Changes(closes), Changes(Scaled(k, closes));
      Map(Rise, c') == Scaled(k, Map(Rise, c)) && Map(Decline, c') == Scaled(k, Map(Decline, c))
  {
    var c, c' := Changes(closes), Changes(Scaled(k, closes));
    forall i | 0 <= i < |c|
      ensures Rise(c'[i]) == Times(k, Rise(c[i])) && Decline(c'[i]) == Times(k, Decline(c[i]))
    {
      SignScales(k, closes[i], closes[i + 1]);
    }
    hide Rise, Decline, Times, Changes;
  }

  /** Prices in another unit have the same index. */
  lemma RsiScaleInvariant(closes: seq<real>, k: real, period: nat)
    requires k > 0.0 && 1 <= period < |closes|
    ensures RsiValue(Scaled(k, closes), period) == RsiValue(closes, period)
  {
    hide Times, Rise, Decline, Changes, Map, Share, Smoothed, Scaled;
    var c := Changes(closes);
    assert |Scaled(k, closes)| == |closes|;
    ChangesScale(closes, k);
    SmoothedScales(k, Map(Rise, c), period);
    SmoothedScales(k, Map(Decline, c), period);
    GainAndLoss(closes, period);
    GainAndLoss(Scaled(k, closes), period);
    ShareScales(k, Gain(closes, period), Loss(closes, period), Gain(Scaled(k, closes), period),
                Loss(Scaled(k, closes), period));
  }

  lemma SignScales(k: real, a: real, b: real)
    requires k > 0.0
    ensures Rise(Times(k, b) - Times(k, a)) == Times(k, Rise(b - a))
    ensures Decline(Times(k, b) - Times(k, a)) == Times(k, Decline(b - a))
  {
    var x := b - a;
    assert k * b - k * a == k * x;
    assert x >= 0.0 ==> k * x >= 0.0;
    assert x <= 0.0 ==> k * x <= 0.0;
  }

  lemma ShareScales(k: real, gain: real, loss: real, gain': real, loss': real)
    requires k > 0.0 && gain >= 0.0 && loss >= 0.0 && gain' == k * gain && loss' == k * loss
    ensures gain' >= 0.0 && loss' >= 0.0 && Share(gain', loss') == Share(gain, loss)
  {
    var t := gain + loss;
    assert gain' + loss' == k * t;
    if t != 0.0 {
      var r := 100.0 * gain / t;
      assert r * t == 100.0 * gain;
      assert r * (k * t) == k * (r * t) == 100.0 * (k * gain);
      assert k * t != 0.0;
      Quotient(100.0 * gain', k * t, r);
    }
  }

  /** Turning prices upside down swaps gains and losses: the two indices add up to 100. */
  lemma RsiMirror(closes: seq<real>, top: real, period: nat)
    requires 1 <= period < |closes|
    ensures RsiValue(Mirrored(top, closes), period) == 100.0 - RsiValue(closes, period)
  {
    hide Rise, Decline, Changes, Map, Share, Smoothed;
    ChangesMirror(closes, top);
    GainAndLoss(closes, period);
    ShareMirrors(Gain(closes, period), Loss(closes, period));
  }

  lemma ChangesMirror(closes: seq<real>, top: real)
    requires closes != []
    ensures
      var c, c' := Changes(closes), Changes(Mirrored(top, closes));
      Map(Rise, c') == Map(Decline, c) && Map(Decline, c') == Map(Rise, c)
  {
    var c, c' := Changes(closes), Changes(Mirrored(top, closes));
    forall i | 0 <= i < |c| ensures c'[i] == -c[i] {
    }
  }

  lemma ShareMirrors(gain: real, loss: real)
    requires gain >= 0.0 && loss >= 0.0
    ensures Share(loss, gain) == 100.0 - Share(gain, loss)
  {
    var t := gain + loss;
    if t != 0.0 {
      var r := 100.0 * gain / t;
      assert r * t == 100.0 * gain;
      Quotient(100.0 * loss, t, 100.0 - r);
    }
  }

  function Mirrored(top: real, closes: seq<real>): (r: seq<real>)
    ensures |r| == |closes| && forall i :: 0 <= i < |closes| ==> r[i] == top - closes[i]
  {
    seq(|closes|, i requires 0 <= i < |closes| => top - closes[i])
  }
}
