/**
 * `EfficiencyConfigurer`: derives the growth series from a query, lets the caller stage
 * metric calculations one `Add*` call at a time, and evaluates them in `Calculate`.
 * Each `Add*` method is proved to perform `Staging.Apply` of its call; a thrown
 * exception is the `Fail` outcome and leaves the configurer unchanged.
 */
module Configurer {
  import opened Wrappers
  import opened Numerics
  import opened Stages
  import opened Records
  import opened Growth
  import opened Metrics
  import opened BenchmarkSet
  import opened Staging
  import opened Results

  /** `outcome` and `after` are what running a call with result `r` from `before` gives. */
  predicate Follows(r: Result<Config, Error>, before: Config, after: Config, outcome: Outcome<Error>) {
    && (r.Success? ==> outcome == Pass && after == r.value)
    && (r.Failure? ==> outcome == Fail(r.error) && after == before)
  }

  class EfficiencyConfigurer {
    const query: EfficiencyQuery
    const series: seq<EfficiencyRecord>
    const eff: Efficiency
    var stage: CalculationStage
    var handlers: Handlers

    /** The staging state, with the benchmarks of the result object. */
    function State(): Config
      reads this, eff
    {
      Config(stage, handlers, eff.benchmarks)
    }

    predicate Valid()
      reads this, eff
    {
      Consistent(State(), series == [])
    }

    /**
     * The series is the query's records with growth factors; the result carries the
     * query's details; only growth rates are staged.
     */
    constructor(query: EfficiencyQuery)
      ensures this.query == query && series == GrowthRates(query.records)
      ensures fresh(eff) && eff.Metrics() == Outputs(None, None, None, None, None, None, None, None)
      ensures eff.details == Some(query.details) && eff.efficiencySeries == None
      ensures State() == Initial(None) && Valid()
    {
      this.query := query;
      var e := new Efficiency();
      e.details := Some(query.details);
      eff := e;
      var s := CalculateGrowthRates(query.records);
      series := s;
      stage := Initialized | GrrCalcQueued;
      handlers := NoHandlers;
      new;
      InitialConsistent(None, series == []);
    }

    /** The same, with `benchmarks` attached to the result; the BENCH flag is not set. */
    constructor WithBenchmarks(query: EfficiencyQuery, benchmarks: EfficiencyBenchmarks)
      ensures this.query == query && series == GrowthRates(query.records)
      ensures fresh(eff) && eff.Metrics() == Outputs(None, None, None, None, None, None, None, None)
      ensures eff.details == Some(query.details) && eff.efficiencySeries == None
      ensures State() == Initial(Some(benchmarks)) && Valid()
    {
      this.query := query;
      var e := new Efficiency();
      e.details := Some(query.details);
      e.benchmarks := Some(benchmarks);
      eff := e;
      var s := CalculateGrowthRates(query.records);
      series := s;
      stage := Initialized | GrrCalcQueued;
      handlers := NoHandlers;
      new;
      InitialConsistent(Some(benchmarks), series == []);
    }

    method AddLifeTimeCalculation() returns (outcome: Outcome<Error>)
      modifies this
      ensures Follows(Apply(old(State()), series == [], AddLifeTime), old(State()), State(), outcome)
      ensures old(Valid()) ==> Valid()
    {
      if series == [] { return Pass; }
      ghost var before := State();
      assert HasFlag(stage, Prerequisites(AddLifeTime)) by { InitializedIsEmpty(stage); }
      handlers := handlers.(lifeTime := true);
      stage := stage | LftCalcQueued;
      assert State() == Apply(before, false, AddLifeTime).value;
      outcome := Pass;
      KeepsValid(before, AddLifeTime);
    }

    method AddIncomeCalculation() returns (outcome: Outcome<Error>)
      modifies this
      ensures Follows(Apply(old(State()), series == [], AddIncome), old(State()), State(), outcome)
      ensures old(Valid()) ==> Valid()
    {
      if series == [] { return Pass; }
      ghost var before := State();
      assert HasFlag(stage, Prerequisites(AddIncome)) by { InitializedIsEmpty(stage); }
      handlers := handlers.(income := true);
      stage := stage | IncCalcQueued;
      assert State() == Apply(before, false, AddIncome).value;
      outcome := Pass;
      KeepsValid(before, AddIncome);
    }

    method AddAveragePortfolioCalculation() returns (outcome: Outcome<Error>)
      modifies this
      ensures Follows(Apply(old(State()), series == [], AddAverage), old(State()), State(), outcome)
      ensures old(Valid()) ==> Valid()
    {
      if series == [] { return Pass; }
      ghost var before := State();
      assert HasFlag(stage, Prerequisites(AddAverage)) by { InitializedIsEmpty(stage); }
      handlers := handlers.(average := true);
      stage := stage | AvgCalculated;
      assert State() == Apply(before, false, AddAverage).value;
      outcome := Pass;
      KeepsValid(before, AddAverage);
    }

    method AddTwrCalculation() returns (outcome: Outcome<Error>)
      modifies this
      ensures Follows(Apply(old(State()), series == [], AddTwr), old(State()), State(), outcome)
      ensures old(Valid()) ==> Valid()
    {
      if series == [] { return Pass; }
      if !HasFlag(stage, GrrCalcQueued | LftCalcQueued) {
        return Fail(PrerequisitesMissing(GrrCalcQueued | LftCalcQueued));
      }
      ghost var before := State();
      handlers := handlers.(twr := true);
      stage := stage | TwrCalcQueued;
      assert State() == Apply(before, false, AddTwr).value;
      outcome := Pass;
      KeepsValid(before, AddTwr);
    }

    method AddMwrCalculation() returns (outcome: Outcome<Error>)
      modifies this
      ensures Follows(Apply(old(State()), series == [], AddMwr), old(State()), State(), outcome)
      ensures old(Valid()) ==> Valid()
    {
      if series == [] { return Pass; }
      if !HasFlag(stage, IncCalcQueued | AvgCalculated | LftCalcQueued) {
        return Fail(PrerequisitesMissing(IncCalcQueued | AvgCalculated | LftCalcQueued));
      }
      ghost var before := State();
      handlers := handlers.(mwr := true);
      assert State() == Apply(before, false, AddMwr).value;
      outcome := Pass;
      KeepsValid(before, AddMwr);
    }

    method AddStdCalculation() returns (outcome: Outcome<Error>)
      modifies this
      ensures Follows(Apply(old(State()), series == [], AddStd), old(State()), State(), outcome)
      ensures old(Valid()) ==> Valid()
    {
      if series == [] { return Pass; }
      if !HasFlag(stage, GrrCalcQueued) {
        return Fail(PrerequisitesMissing(GrrCalcQueued));
      }
      ghost var before := State();
      handlers := handlers.(std := true);
      stage := stage | StdCalcQueued;
      assert State() == Apply(before, false, AddStd).value;
      outcome := Pass;
      KeepsValid(before, AddStd);
    }

    /** `AddSharpeCalculation()`: the risk-free rate of the attached benchmarks. */
    method AddSharpeCalculationFromBenchmarks() returns (outcome: Outcome<Error>)
      modifies this
      ensures Follows(Apply(old(State()), series == [], AddSharpeDefault), old(State()), State(), outcome)
      ensures old(Valid()) ==> Valid()
    {
      if eff.benchmarks.None? { return Fail(NullValue); }
      outcome := AddSharpeCalculation(eff.benchmarks.value.riskFreeRate);
    }

    method AddSharpeCalculation(riskFreeRate: real) returns (outcome: Outcome<Error>)
      modifies this
      ensures Follows(Apply(old(State()), series == [], AddSharpe(riskFreeRate)), old(State()), State(), outcome)
      ensures old(Valid()) ==> Valid()
    {
      if series == [] { return Pass; }
      if !HasFlag(stage, TwrCalcQueued | StdCalcQueued | HasBenchmarks) {
        return Fail(PrerequisitesMissing(TwrCalcQueued | StdCalcQueued | HasBenchmarks));
      }
      ghost var before := State();
      handlers := handlers.(sharpe := Some(riskFreeRate));
      assert State() == Apply(before, false, AddSharpe(riskFreeRate)).value;
      outcome := Pass;
      KeepsValid(before, AddSharpe(riskFreeRate));
    }

    method AddInformationRatioCalculation(indexTwr: real) returns (outcome: Outcome<Error>)
      modifies this
      ensures Follows(Apply(old(State()), series == [], AddInformationRatio(indexTwr)), old(State()), State(), outcome)
      ensures old(Valid()) ==> Valid()
    {
      if series == [] { return Pass; }
      if !HasFlag(stage, TwrCalcQueued | StdCalcQueued | HasBenchmarks) {
        return Fail(PrerequisitesMissing(TwrCalcQueued | StdCalcQueued | HasBenchmarks));
      }
      ghost var before := State();
      handlers := handlers.(info := Some(indexTwr));
      assert State() == Apply(before, false, AddInformationRatio(indexTwr)).value;
      outcome := Pass;
      KeepsValid(before, AddInformationRatio(indexTwr));
    }

    /** `AddBenchmarksCalculation`: stages BENCH; the benchmark download is not modelled. */
    method AddBenchmarksCalculation() returns (outcome: Outcome<Error>)
      modifies this
      ensures Follows(Apply(old(State()), series == [], AddBenchmarks), old(State()), State(), outcome)
      ensures old(Valid()) ==> Valid()
    {
      stage := stage | HasBenchmarks;
      outcome := Pass;
      KeepsValid(old(State()), AddBenchmarks);
    }

    method UseBenchmarks(benchmarks: EfficiencyBenchmarks) returns (outcome: Outcome<Error>)
      modifies this, eff
      ensures Follows(Apply(old(State()), series == [], Staging.UseBenchmarks(benchmarks)), old(State()), State(), outcome)
      ensures old(Valid()) ==> Valid()
      ensures eff.Metrics() == old(eff.Metrics()) && eff.details == old(eff.details)
      ensures eff.efficiencySeries == old(eff.efficiencySeries)
    {
      eff.benchmarks := Some(benchmarks);
      stage := stage | HasBenchmarks;
      outcome := Pass;
      KeepsValid(old(State()), Staging.UseBenchmarks(benchmarks));
    }

    /** The invariant survives a successful call. */
    lemma KeepsValid(before: Config, op: AddOp)
      requires Apply(before, series == [], op).Success?
      ensures Consistent(before, series == []) ==> Consistent(Apply(before, series == [], op).value, series == [])
    {
      if Consistent(before, series == []) {
        ApplyPreservesConsistent(before, series == [], op);
      }
    }

    /**
     * `Calculate`: attaches the series, runs the registered handlers and stores their
     * results in the result object, which the caller gets back.
     */
    method Calculate(o: FloatOracles) returns (result: Efficiency)
      requires Valid()
      modifies eff
      ensures result == eff
      ensures eff.Metrics() == Evaluate(series, handlers, o)
      ensures eff.efficiencySeries == Some(series)
      ensures eff.benchmarks == old(eff.benchmarks) && eff.details == old(eff.details)
    {
      assert Closed(handlers) && (series == [] ==> handlers == NoHandlers);
      var out := RunHandlers(series, handlers, o);
      eff.efficiencySeries := Some(series);
      eff.lifeTime, eff.income, eff.averagePortfolio, eff.mwr := out.lifeTime, out.income, out.average, out.mwr;
      eff.twr, eff.std, eff.sharpeRatio, eff.informationRatio := out.twr, out.std, out.sharpe, out.info;
      result := eff;
    }
  }

  /** `Efficiency.ConfigureEfficiencyCalculation(query)`. */
  method ConfigureEfficiencyCalculation(query: EfficiencyQuery) returns (c: EfficiencyConfigurer)
    ensures fresh(c) && fresh(c.eff) && c.query == query && c.series == GrowthRates(query.records)
    ensures c.State() == Initial(None) && c.Valid() && c.eff.details == Some(query.details)
  {
    c := new EfficiencyConfigurer(query);
  }

  /** `Efficiency.ConfigureEfficiencyCalculation(query, benchmarks)`. */
  method ConfigureEfficiencyCalculationWithBenchmarks(query: EfficiencyQuery, benchmarks: EfficiencyBenchmarks)
    returns (c: EfficiencyConfigurer)
    ensures fresh(c) && fresh(c.eff) && c.query == query && c.series == GrowthRates(query.records)
    ensures c.State() == Initial(Some(benchmarks)) && c.Valid() && c.eff.details == Some(query.details)
  {
    c := new EfficiencyConfigurer.WithBenchmarks(query, benchmarks);
  }
}
