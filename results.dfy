/** The `Efficiency` result object: optional metric fields filled in by `Calculate`. */
module Results {
  import opened Wrappers
  import opened Numerics
  import opened Records
  import opened BenchmarkSet
  import opened Staging

  class Efficiency {
    var twr: Option<Double>
    var mwr: Option<Double>
    var std: Option<Double>
    var income: Option<Double>
    var averagePortfolio: Option<Double>
    var lifeTime: Option<int>
    var sharpeRatio: Option<Double>
    var informationRatio: Option<Double>
    var benchmarks: Option<EfficiencyBenchmarks>
    var details: Option<QueryDetails>
    var efficiencySeries: Option<seq<EfficiencyRecord>>

    /** The metric fields, in the shape `Staging.Evaluate` computes them. */
    function Metrics(): Outputs
      reads this
    {
      Outputs(lifeTime, income, averagePortfolio, mwr, twr, std, sharpeRatio, informationRatio)
    }

    /** A fresh result: every metric, the benchmarks, the details and the series are null. */
    constructor()
      ensures Metrics() == Outputs(None, None, None, None, None, None, None, None)
      ensures benchmarks == None && details == None && efficiencySeries == None
    {
      twr, mwr, std, income, averagePortfolio := None, None, None, None, None;
      lifeTime, sharpeRatio, informationRatio := None, None, None;
      benchmarks, details, efficiencySeries := None, None, None;
    }
  }
}
