/**
 * The metric formulas the configurer's handlers evaluate over the growth series:
 * life-time, income, average portfolio, time- and money-weighted rates of return,
 * the standard deviation of the growth factors, and the Sharpe / information ratios.
 */
module Metrics {
  import opened Numerics
  import opened Calendar
  import opened Records
  import opened Growth

  function PortfolioOf(r: EfficiencyRecord): real { r.portfolio }
  function FlowOf(r: EfficiencyRecord): real { r.flow }
  function CommissionOf(r: EfficiencyRecord): real { r.commission }
  function GrowthOf(r: EfficiencyRecord): real { r.growth }

  /** LINQ `Sum(selector)` over the series, in series order. */
  function Sum(s: seq<EfficiencyRecord>, f: EfficiencyRecord -> real): real
    decreases |s|
  {
    if s == [] then 0.0 else Sum(s[..|s| - 1], f) + f(s[|s| - 1])
  }

  // ---------------------------------------------------------------- life-time

  /** Life-time: days from the first record's date to the last record's date. */
  function LifeTime(s: seq<EfficiencyRecord>): (lt: int)
    requires s != []
    ensures |s| == 1 ==> lt == 0
    ensures StrictlyIncreasing(Dates(s)) && |s| > 1 ==> lt > 0
  {
    assert |s| > 1 ==> Dates(s)[0] == s[0].date && Dates(s)[|s| - 1] == s[|s| - 1].date;
    s[|s| - 1].date - s[0].date
  }

  /** On a series with strictly increasing dates, life-time counts at least one day per step. */
  lemma {:induction false} LifeTimeCoversSteps(s: seq<EfficiencyRecord>)
    requires s != [] && StrictlyIncreasing(Dates(s))
    ensures LifeTime(s) >= |s| - 1
    decreases |s|
  {
    if |s| > 1 {
      var init := s[..|s| - 1];
      assert Dates(init) == Dates(s)[..|s| - 1];
      LifeTimeCoversSteps(init);
      assert Dates(s)[|s| - 2] < Dates(s)[|s| - 1];
    }
  }

  // ---------------------------------------------------------------- income

  /**
   * Income: last portfolio minus first portfolio minus every flow and commission,
   * giving back the first day's flow and commission.
   */
  function Income(s: seq<EfficiencyRecord>): (income: real)
    requires s != []
    ensures |s| == 1 ==> income == 0.0
  {
    assert |s| == 1 ==> Sum(s, FlowOf) == s[0].flow && Sum(s, CommissionOf) == s[0].commission by {
      if |s| == 1 { assert s[..0] == []; }
    }
    var first := s[0];
    s[|s| - 1].portfolio - first.portfolio - Sum(s, FlowOf) - Sum(s, CommissionOf)
      + first.flow + first.commission
  }

  /** The gain of day `i` over day `i - 1`, net of the day's flow and commission. */
  function DailyGain(s: seq<EfficiencyRecord>, i: nat): real
    requires 0 < i < |s|
  {
    s[i].portfolio - s[i - 1].portfolio - s[i].flow - s[i].commission
  }

  /** The daily gains of days 1 .. |s| - 1, summed. */
  function TotalGain(s: seq<EfficiencyRecord>): real
    decreases |s|
  {
    if |s| <= 1 then 0.0 else TotalGain(s[..|s| - 1]) + DailyGain(s, |s| - 1)
  }

  /** Income is the sum of the daily net gains: the first day's flow and commission do not count. */
  lemma {:induction false} IncomeTelescopes(s: seq<EfficiencyRecord>)
    requires s != []
    ensures Income(s) == TotalGain(s)
    decreases |s|
  {
    if |s| > 1 {
      var init := s[..|s| - 1];
      IncomeTelescopes(init);
      assert init[0] == s[0] && init[|init| - 1] == s[|s| - 2];
      assert Sum(s, FlowOf) == Sum(init, FlowOf) + s[|s| - 1].flow;
      assert Sum(s, CommissionOf) == Sum(init, CommissionOf) + s[|s| - 1].commission;
    } else {
      assert s[..0] == [];
      assert Sum(s, FlowOf) == s[0].flow && Sum(s, CommissionOf) == s[0].commission;
    }
  }

  // ---------------------------------------------------------------- average portfolio

  /** How many records have a non-zero portfolio. */
  function CountNonZero(s: seq<EfficiencyRecord>): nat
    decreases |s|
  {
    if s == [] then 0
    else CountNonZero(s[..|s| - 1]) + (if s[|s| - 1].portfolio != 0.0 then 1 else 0)
  }

  /** Portfolios that do not sum to zero include a non-zero one, so the mean is defined. */
  lemma {:induction false} NonZeroCount(s: seq<EfficiencyRecord>)
    ensures Sum(s, PortfolioOf) != 0.0 ==> CountNonZero(s) > 0
    decreases |s|
  {
    if s != [] {
      NonZeroCount(s[..|s| - 1]);
    }
  }

  /**
   * Average portfolio: the mean of the non-zero portfolios when the portfolios do not
   * sum to zero, else 0. Zero-valued days are left out of the mean.
   */
  function AveragePortfolio(s: seq<EfficiencyRecord>): (a: real)
    ensures Sum(s, PortfolioOf) == 0.0 ==> a == 0.0
    ensures a * (CountNonZero(s) as real) == Sum(s, PortfolioOf)
  {
    NonZeroCount(s);
    if Sum(s, PortfolioOf) != 0.0 then Sum(s, PortfolioOf) / (CountNonZero(s) as real) else 0.0
  }

  /** Appending a day with a zero portfolio does not move the average. */
  lemma ZeroDayKeepsAverage(s: seq<EfficiencyRecord>, r: EfficiencyRecord)
    requires r.portfolio == 0.0
    ensures AveragePortfolio(s + [r]) == AveragePortfolio(s)
  {
    assert (s + [r])[..|s|] == s;
    assert Sum(s + [r], PortfolioOf) == Sum(s, PortfolioOf);
    assert CountNonZero(s + [r]) == CountNonZero(s);
  }

  // ---------------------------------------------------------------- TWR

  /** `Aggregate((g1, g2) => g1 * g2)` over the growth factors. */
  function GrowthProduct(s: seq<EfficiencyRecord>): real
    decreases |s|
  {
    if s == [] then 1.0 else GrowthProduct(s[..|s| - 1]) * s[|s| - 1].growth
  }

  /** Neutral factors multiply to 1, and positive factors to a positive product. */
  lemma {:induction false} GrowthProductSign(s: seq<EfficiencyRecord>)
    ensures (forall i :: 0 <= i < |s| ==> s[i].growth == 1.0) ==> GrowthProduct(s) == 1.0
    ensures (forall i :: 0 <= i < |s| ==> s[i].growth > 0.0) ==> GrowthProduct(s) > 0.0
    decreases |s|
  {
    if s != [] {
      GrowthProductSign(s[..|s| - 1]);
      assert forall i :: 0 <= i < |s| - 1 ==> s[..|s| - 1][i] == s[i];
    }
  }

  /** A day without flow is never under the large-flow rule. */
  lemma NoFlowNotSuppressed(portfolio: real)
    ensures !FlowSuppressed(portfolio, 0.0)
  {
    assert (0.0 / 1000.0).Floor == 0;
  }

  /** `factor` takes the value `from` to the value `to`. */
  predicate Scales(factor: real, from: real, to: real) {
    factor * from == to
  }

  lemma ChainProduct(product: real, g: real, first: real, prev: real, last: real)
    requires Scales(product, first, prev) && Scales(g, prev, last)
    ensures Scales(product * g, first, last)
  {
    calc {
      (product * g) * first;
      g * (product * first);
      last;
    }
  }

  /**
   * Without flows or commissions, and with no zero portfolio before the last day, the
   * product of the growth factors is the ratio of the last portfolio to the first.
   */
  lemma {:induction false} GrowthProductTelescopes(q: seq<EfficiencyRecord>)
    requires q != []
    requires forall i :: 0 <= i < |q| ==> q[i].flow == 0.0 && q[i].commission == 0.0
    requires forall i :: 0 <= i < |q| - 1 ==> q[i].portfolio != 0.0
    ensures Scales(GrowthProduct(GrowthRates(q)), q[0].portfolio, q[|q| - 1].portfolio)
    decreases |q|
  {
    var n := |q|;
    var s := GrowthRates(q);
    GrowthRatesAt(q, n - 1);
    if n == 1 {
      assert s[..0] == [];
      NoSignalGrowth(q, 0);
    } else {
      var init := q[..n - 1];
      GrowthProductTelescopes(init);
      assert s[..n - 1] == GrowthRates(init);
      NoFlowNotSuppressed(q[n - 1].portfolio);
      NetGrowth(q, n - 1);
      assert Scales(s[n - 1].growth, q[n - 2].portfolio, q[n - 1].portfolio);
      ChainProduct(GrowthProduct(GrowthRates(init)), s[n - 1].growth, q[0].portfolio,
        q[n - 2].portfolio, q[n - 1].portfolio);
    }
  }

  /** Time-weighted rate of return: the growth product annualised over `lifeTime` days. */
  function Twr(s: seq<EfficiencyRecord>, lifeTime: int, o: FloatOracles): Double
  {
    Sub(o.pow(Finite(GrowthProduct(s)), Div(Finite(365.0), Finite(lifeTime as real))), Finite(1.0))
  }

  // ---------------------------------------------------------------- STD

  /** `Average(growth)`. */
  function MeanGrowth(s: seq<EfficiencyRecord>): (m: real)
    requires s != []
    ensures m * (|s| as real) == Sum(s, GrowthOf)
  {
    Sum(s, GrowthOf) / (|s| as real)
  }

  /** The sum of squared deviations of the growth factors from `mean`. */
  function SquaredDeviations(s: seq<EfficiencyRecord>, mean: real): (d: real)
    ensures d >= 0.0
    decreases |s|
  {
    if s == [] then 0.0
    else
      var dev := s[|s| - 1].growth - mean;
      SquareNonNegative(dev);
      SquaredDeviations(s[..|s| - 1], mean) + dev * dev
  }

  lemma SquareNonNegative(x: real)
    ensures x * x >= 0.0
  {
    if x < 0.0 { assert x * x == (-x) * (-x); }
  }

  /** Growth factors all equal to `c` sum to `|s| * c`. */
  lemma {:induction false} SumOfConstantGrowth(s: seq<EfficiencyRecord>, c: real)
    requires forall i :: 0 <= i < |s| ==> s[i].growth == c
    ensures Sum(s, GrowthOf) == (|s| as real) * c
    decreases |s|
  {
    if s != [] {
      SumOfConstantGrowth(s[..|s| - 1], c);
    }
  }

  /** Growth factors that all equal the mean deviate by nothing. */
  lemma {:induction false} NoDeviationAtMean(s: seq<EfficiencyRecord>, c: real)
    requires forall i :: 0 <= i < |s| ==> s[i].growth == c
    ensures SquaredDeviations(s, c) == 0.0
    decreases |s|
  {
    if s != [] {
      NoDeviationAtMean(s[..|s| - 1], c);
    }
  }

  /** A series of constant growth has mean growth equal to that constant and no deviation. */
  lemma ConstantGrowthHasNoDeviation(s: seq<EfficiencyRecord>, c: real)
    requires s != [] && forall i :: 0 <= i < |s| ==> s[i].growth == c
    ensures MeanGrowth(s) == c && SquaredDeviations(s, MeanGrowth(s)) == 0.0
  {
    SumOfConstantGrowth(s, c);
    NoDeviationAtMean(s, c);
  }

  /** Standard deviation of the growth factors (sample, n - 1), annualised by sqrt(252). */
  function Std(s: seq<EfficiencyRecord>, o: FloatOracles): Double
    requires s != []
  {
    Mul(o.sqrt(Div(Finite(SquaredDeviations(s, MeanGrowth(s))), Finite((|s| - 1) as real))),
        o.sqrt(Finite(252.0)))
  }

  /** One record gives 0 / 0: when `Math.Sqrt` propagates NaN, the deviation is NaN. */
  lemma StdOfOneRecord(s: seq<EfficiencyRecord>, o: FloatOracles)
    requires |s| == 1 && o.sqrt(NonFinite) == NonFinite
    ensures Std(s, o) == NonFinite
  {
  }

  // ---------------------------------------------------------------- MWR and ratios

  /** Money-weighted rate of return: income over average portfolio, per day, times 365. */
  function Mwr(income: Double, average: Double, lifeTime: int): (r: Double)
    ensures r.Finite? <==>
      income.Finite? && average.Finite? && average.value != 0.0 && lifeTime != 0
    ensures r.Finite? ==>
      r.value * average.value * (lifeTime as real) == 365.0 * income.value
  {
    var perAverage := Div(income, average);
    var perDay := Div(perAverage, Finite(lifeTime as real));
    assert perDay.Finite? ==> perDay.value * (lifeTime as real) * average.value == income.value by {
      if perDay.Finite? {
        MulAssoc(perDay.value, lifeTime as real, average.value, perAverage.value, income.value);
      }
    }
    Mul(perDay, Finite(365.0))
  }

  lemma MulAssoc(x: real, y: real, z: real, xy: real, xyz: real)
    requires x * y == xy && xy * z == xyz
    ensures x * y * z == xyz
  {
  }

  /** Excess return per unit of deviation: the Sharpe ratio and the information ratio. */
  function Ratio(twr: Double, reference: real, std: Double): (r: Double)
    ensures r.Finite? <==> twr.Finite? && std.Finite? && std.value != 0.0
    ensures r.Finite? ==> r.value * std.value + reference == twr.value
  {
    Div(Sub(twr, Finite(reference)), std)
  }
}
