/**
 * Growth rates: the configurer walks the query's records once, carrying the previous
 * day's portfolio, and gives every record a day-over-day growth factor.
 */
module Growth {
  import opened Wrappers
  import opened Records

  /**
   * The large-flow rule: when the portfolio, in whole thousands, exceeds 10 and equals
   * the flow in whole thousands, the day's flow nearly is the portfolio, and the growth
   * factor is not computed.
   */
  predicate FlowSuppressed(portfolio: real, flow: real) {
    (portfolio / 1000.0).Floor > 10 && (portfolio / 1000.0).Floor == (flow / 1000.0).Floor
  }

  /** "More than 10 thousands" means a portfolio of at least 11,000. */
  lemma SuppressionThreshold(portfolio: real)
    ensures (portfolio / 1000.0).Floor > 10 <==> portfolio >= 11000.0
  {
    var k := (portfolio / 1000.0).Floor;
    assert k as real <= portfolio / 1000.0 < k as real + 1.0;
  }

  /** The rule holds from a portfolio of 11,000 with a flow in the same whole thousands. */
  lemma SuppressedFrom11000(portfolio: real, flow: real)
    ensures FlowSuppressed(portfolio, flow) <==>
      portfolio >= 11000.0 && (portfolio / 1000.0).Floor == (flow / 1000.0).Floor
    ensures FlowSuppressed(portfolio, flow) ==> flow >= 11000.0
  {
    SuppressionThreshold(portfolio);
    SuppressionThreshold(flow);
  }

  /**
   * `CalculateGrowth`: the factor for a day whose predecessor had portfolio `prev`
   * (`None` on the first day).
   */
  function GrowthFactor(prev: Option<real>, portfolio: real, flow: real, commission: real): (g: real)
    ensures prev.None? || prev.value == 0.0 || FlowSuppressed(portfolio, flow) ==> g == 1.0
    ensures prev.Some? && prev.value != 0.0 && !FlowSuppressed(portfolio, flow) ==>
      g * prev.value == portfolio - flow - commission
  {
    if FlowSuppressed(portfolio, flow) || prev.None? || prev.value == 0.0 then 1.0
    else (portfolio - flow - commission) / prev.value
  }

  /** The portfolio of the record before record `i`, if there is one. */
  function Previous(q: seq<EfficiencyRecord>, i: nat): Option<real>
    requires i < |q|
  {
    if i == 0 then None else Some(q[i - 1].portfolio)
  }

  /** The series `CalculateGrowthRates` yields for the query records `q`. */
  function GrowthRates(q: seq<EfficiencyRecord>): (r: seq<EfficiencyRecord>)
    ensures |r| == |q|
    decreases |q|
  {
    if q == [] then []
    else
      var init, last := q[..|q| - 1], q[|q| - 1];
      var prev := if init == [] then None else Some(init[|init| - 1].portfolio);
      GrowthRates(init) + [last.(growth := GrowthFactor(prev, last.portfolio, last.flow, last.commission))]
  }

  /**
   * Record `i` of the series is query record `i` with its growth factor computed
   * against record `i - 1`: date, portfolio, flow and commission are kept.
   */
  lemma {:induction false} GrowthRatesAt(q: seq<EfficiencyRecord>, i: nat)
    requires i < |q|
    ensures GrowthRates(q)[i] ==
      q[i].(growth := GrowthFactor(Previous(q, i), q[i].portfolio, q[i].flow, q[i].commission))
    decreases |q|
  {
    if i < |q| - 1 {
      var init := q[..|q| - 1];
      GrowthRatesAt(init, i);
      assert init[i] == q[i];
      if i > 0 { assert init[i - 1] == q[i - 1]; }
    }
  }

  /** The first record, and every record after a zero portfolio, grows by 1. */
  lemma NoSignalGrowth(q: seq<EfficiencyRecord>, i: nat)
    requires i < |q| && (i == 0 || q[i - 1].portfolio == 0.0)
    ensures GrowthRates(q)[i].growth == 1.0
  {
    GrowthRatesAt(q, i);
  }

  /** A day whose flow nearly equals its portfolio grows by 1, whatever came before. */
  lemma SuppressedGrowth(q: seq<EfficiencyRecord>, i: nat)
    requires i < |q| && q[i].portfolio >= 11000.0
    requires (q[i].portfolio / 1000.0).Floor == (q[i].flow / 1000.0).Floor
    ensures GrowthRates(q)[i].growth == 1.0
  {
    SuppressionThreshold(q[i].portfolio);
    GrowthRatesAt(q, i);
  }

  /** The day's value net of flow and commission is `growth` times the value the day before. */
  predicate Compounds(growth: real, before: real, r: EfficiencyRecord) {
    growth * before == r.portfolio - r.flow - r.commission
  }

  /** Otherwise the growth factor compounds the previous portfolio into the day's net value. */
  lemma NetGrowth(q: seq<EfficiencyRecord>, i: nat)
    requires 0 < i < |q| && q[i - 1].portfolio != 0.0 && !FlowSuppressed(q[i].portfolio, q[i].flow)
    ensures Compounds(GrowthRates(q)[i].growth, q[i - 1].portfolio, q[i])
  {
    GrowthRatesAt(q, i);
  }

  /**
   * `CalculateGrowthRates`: one pass over the records carrying the previous portfolio,
   * keeping every record's date, portfolio, flow and commission.
   */
  method CalculateGrowthRates(query: seq<EfficiencyRecord>) returns (series: seq<EfficiencyRecord>)
    ensures series == GrowthRates(query)
  {
    var prevPortfolio: Option<real> := None;
    series := [];
    var k := 0;
    while k < |query|
      invariant 0 <= k <= |query|
      invariant prevPortfolio == if k == 0 then None else Some(query[k - 1].portfolio)
      invariant series == GrowthRates(query[..k])
    {
      assert query[..k + 1][..k] == query[..k];
      var rec := query[k];
      var g := GrowthFactor(prevPortfolio, rec.portfolio, rec.flow, rec.commission);
      series := series + [EfficiencyRecord(rec.date, rec.portfolio, rec.flow, rec.commission, g)];
      prevPortfolio := Some(rec.portfolio);
      k := k + 1;
    }
    assert query[..k] == query;
  }
}
