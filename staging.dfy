/**
 * The configurer's staging discipline as a pure state machine: which `Add*` calls are
 * allowed in which stage, which handler each one registers and which flag it adds, and
 * what `Calculate` then produces from the registered handlers.
 */
module Staging {
  import opened Wrappers
  import opened Numerics
  import opened Stages
  import opened Records
  import opened Metrics
  import opened BenchmarkSet

  /**
   * The registered deferred handlers. The Sharpe and information-ratio handlers
   * capture the reference rate they were registered with.
   */
  datatype Handlers = Handlers(
    lifeTime: bool, income: bool, average: bool, twr: bool, mwr: bool, std: bool,
    sharpe: Option<real>, info: Option<real>)

  const NoHandlers: Handlers := Handlers(false, false, false, false, false, false, None, None)

  /** The configurer's mutable state, with the benchmarks attached to its result object. */
  datatype Config = Config(stage: CalculationStage, handlers: Handlers, benchmarks: Option<EfficiencyBenchmarks>)

  /** The configuring calls. */
  datatype AddOp =
    | AddLifeTime
    | AddIncome
    | AddAverage
    | AddTwr
    | AddMwr
    | AddStd
    | AddSharpe(riskFreeRate: real)          // `AddSharpeCalculation(double)`
    | AddSharpeDefault                       // `AddSharpeCalculation()`, rate from the benchmarks
    | AddInformationRatio(indexTwr: real)
    | AddBenchmarks                          // `AddBenchmarksCalculation`
    | UseBenchmarks(benchmarks: EfficiencyBenchmarks)

  /** The calls that compute a metric: each is skipped on an empty series. */
  predicate IsMetric(op: AddOp) {
    !(op.AddSharpeDefault? || op.AddBenchmarks? || op.UseBenchmarks?)
  }

  /** The flags a metric call checks with `HasFlag` before registering its handler. */
  function Prerequisites(op: AddOp): CalculationStage {
    match op
    case AddTwr => GrrCalcQueued | LftCalcQueued
    case AddMwr => IncCalcQueued | AvgCalculated | LftCalcQueued
    case AddStd => GrrCalcQueued
    case AddSharpe(_) => TwrCalcQueued | StdCalcQueued | HasBenchmarks
    case AddInformationRatio(_) => TwrCalcQueued | StdCalcQueued | HasBenchmarks
    case _ => Initialized
  }

  /** The flag a call ORs into the stage (MWR, Sharpe and information ratio add none). */
  function OwnFlag(op: AddOp): CalculationStage {
    match op
    case AddLifeTime => LftCalcQueued
    case AddIncome => IncCalcQueued
    case AddAverage => AvgCalculated
    case AddTwr => TwrCalcQueued
    case AddStd => StdCalcQueued
    case AddBenchmarks => HasBenchmarks
    case UseBenchmarks(_) => HasBenchmarks
    case _ => Initialized
  }

  /** The handler a metric call registers. */
  function Register(h: Handlers, op: AddOp): Handlers {
    match op
    case AddLifeTime => h.(lifeTime := true)
    case AddIncome => h.(income := true)
    case AddAverage => h.(average := true)
    case AddTwr => h.(twr := true)
    case AddMwr => h.(mwr := true)
    case AddStd => h.(std := true)
    case AddSharpe(rf) => h.(sharpe := Some(rf))
    case AddInformationRatio(t) => h.(info := Some(t))
    case _ => h
  }

  /** A metric call: skipped on an empty series, else gated, registered and flagged. */
  function StageMetric(c: Config, empty: bool, op: AddOp): Result<Config, Error>
    requires IsMetric(op)
  {
    if empty then Success(c)
    else if !HasFlag(c.stage, Prerequisites(op)) then Failure(PrerequisitesMissing(Prerequisites(op)))
    else Success(c.(stage := c.stage | OwnFlag(op), handlers := Register(c.handlers, op)))
  }

  /**
   * One configuring call on a configurer in state `c` whose series is empty when
   * `empty` holds: the new state, or the exception the call throws.
   */
  function Apply(c: Config, empty: bool, op: AddOp): Result<Config, Error> {
    match op
    case AddSharpeDefault =>
      // the benchmarks are dereferenced before the series is looked at
      if c.benchmarks.None? then Failure(NullValue)
      else StageMetric(c, empty, AddSharpe(c.benchmarks.value.riskFreeRate))
    case AddBenchmarks => Success(c.(stage := c.stage | HasBenchmarks))
    case UseBenchmarks(b) => Success(c.(stage := c.stage | HasBenchmarks, benchmarks := Some(b)))
    case _ => StageMetric(c, empty, op)
  }

  /** A sequence of configuring calls; the first exception ends the chain. */
  function ApplyAll(c: Config, empty: bool, ops: seq<AddOp>): Result<Config, Error>
    decreases |ops|
  {
    if ops == [] then Success(c)
    else
      match Apply(c, empty, ops[0])
      case Success(c') => ApplyAll(c', empty, ops[1..])
      case Failure(e) => Failure(e)
  }

  /** The state right after construction: only growth rates staged, nothing registered. */
  function Initial(benchmarks: Option<EfficiencyBenchmarks>): Config {
    Config(GrrCalcQueued, NoHandlers, benchmarks)
  }

  // ---------------------------------------------------------------- the invariant

  /** Every handler finds the handlers it depends on registered. */
  predicate Closed(h: Handlers) {
    && (h.twr ==> h.lifeTime)
    && (h.mwr ==> h.income && h.average && h.lifeTime)
    && (h.sharpe.Some? ==> h.twr && h.std)
    && (h.info.Some? ==> h.twr && h.std)
  }

  /**
   * The configurer's invariant: growth rates are staged, a flag is set exactly when its
   * handler is registered, handlers are closed under their dependencies, and an empty
   * series has nothing registered.
   */
  predicate Consistent(c: Config, empty: bool) {
    ConsistentStages(StagesOf(c.stage), c.handlers, empty)
  }

  /** The invariant over the stage set recorded in the flags. */
  predicate ConsistentStages(st: set<Stage>, h: Handlers, empty: bool) {
    && Grr in st
    && (h.lifeTime <==> Lft in st)
    && (h.income <==> Inc in st)
    && (h.average <==> Avg in st)
    && (h.twr <==> Twr in st)
    && (h.std <==> Std in st)
    && Closed(h)
    && (empty ==> h == NoHandlers)
  }

  lemma InitialConsistent(benchmarks: Option<EfficiencyBenchmarks>, empty: bool)
    ensures Consistent(Initial(benchmarks), empty)
    ensures StagesOf(Initial(benchmarks).stage) == {Grr}
  {
    StagesOfBit(Grr);
  }

  // ---------------------------------------------------------------- flags only grow

  /** The stages a call adds to the stage set. */
  function Adds(op: AddOp): set<Stage> {
    match op
    case AddLifeTime => {Lft}
    case AddIncome => {Inc}
    case AddAverage => {Avg}
    case AddTwr => {Twr}
    case AddStd => {Std}
    case AddBenchmarks => {Bench}
    case UseBenchmarks(_) => {Bench}
    case _ => {}
  }

  /**
   * The stage after a successful call: unchanged for a metric call skipped on an empty
   * series, otherwise the call's own flag OR-ed in.
   */
  lemma ApplyStage(c: Config, empty: bool, op: AddOp)
    requires Apply(c, empty, op).Success?
    ensures Apply(c, empty, op).value.stage ==
      if empty && IsMetric(op) then c.stage else c.stage | OwnFlag(op)
  {
    if op.AddSharpeDefault? {
      StageMetricStage(c, empty, AddSharpe(c.benchmarks.value.riskFreeRate));
    } else if IsMetric(op) {
      StageMetricStage(c, empty, op);
    } else {
      BenchmarkStage(c, empty, op);
    }
  }

  lemma BenchmarkStage(c: Config, empty: bool, op: AddOp)
    requires op.AddBenchmarks? || op.UseBenchmarks?
    ensures OwnFlag(op) == HasBenchmarks
    ensures Apply(c, empty, op).value.stage == c.stage | HasBenchmarks
  {
  }

  lemma StageMetricStage(c: Config, empty: bool, op: AddOp)
    requires IsMetric(op) && StageMetric(c, empty, op).Success?
    ensures StageMetric(c, empty, op).value.stage == if empty then c.stage else c.stage | OwnFlag(op)
  {
  }

  lemma StagesOfOwnFlag(op: AddOp)
    ensures StagesOf(OwnFlag(op)) == Adds(op)
  {
    match op {
      case AddLifeTime => StagesOfBit(Lft);
      case AddIncome => StagesOfBit(Inc);
      case AddAverage => StagesOfBit(Avg);
      case AddTwr => StagesOfBit(Twr);
      case AddStd => StagesOfBit(Std);
      case AddBenchmarks => StagesOfBit(Bench);
      case UseBenchmarks(_) => StagesOfBit(Bench);
      case _ => InitializedIsEmpty(Initialized);
    }
  }

  /**
   * A successful call on a non-empty series adds exactly its own stage to the stage set
   * and removes none; on an empty series only the benchmark calls add one.
   */
  lemma ApplyAddsOwnStage(c: Config, empty: bool, op: AddOp)
    requires Apply(c, empty, op).Success?
    ensures StagesOf(Apply(c, empty, op).value.stage) ==
      StagesOf(c.stage) + (if empty && IsMetric(op) then {} else Adds(op))
  {
    ApplyStage(c, empty, op);
    if !(empty && IsMetric(op)) {
      StagesAfterOwnFlag(c.stage, op);
    }
  }

  lemma StagesAfterOwnFlag(s: CalculationStage, op: AddOp)
    ensures StagesOf(s | OwnFlag(op)) == StagesOf(s) + Adds(op)
  {
    StagesOfUnion(s, OwnFlag(op));
    StagesOfOwnFlag(op);
  }

  lemma OrGrows(s: CalculationStage, x: CalculationStage)
    ensures HasFlag(s | x, s)
  {
  }

  lemma SelfGrows(s: CalculationStage)
    ensures HasFlag(s, s)
  {
  }

  /** `_stage` only grows. */
  lemma ApplyGrows(c: Config, empty: bool, op: AddOp)
    requires Apply(c, empty, op).Success?
    ensures Grows(c.stage, Apply(c, empty, op).value.stage)
  {
    ApplyStage(c, empty, op);
    if empty && IsMetric(op) {
      SelfGrows(c.stage);
    } else {
      OrGrows(c.stage, OwnFlag(op));
    }
  }

  // ---------------------------------------------------------------- gating

  /** The stages a metric call requires, as a set. */
  function Required(op: AddOp): set<Stage> {
    match op
    case AddTwr => {Grr, Lft}
    case AddMwr => {Inc, Avg, Lft}
    case AddStd => {Grr}
    case AddSharpe(_) => {Twr, Std, Bench}
    case AddInformationRatio(_) => {Twr, Std, Bench}
    case _ => {}
  }

  lemma TwrMask(s: CalculationStage)
    ensures HasFlag(s, GrrCalcQueued | LftCalcQueued) <==> HasFlag(s, GrrCalcQueued) && HasFlag(s, LftCalcQueued)
  {
  }

  lemma MwrMask(s: CalculationStage)
    ensures HasFlag(s, IncCalcQueued | AvgCalculated | LftCalcQueued) <==>
      HasFlag(s, IncCalcQueued) && HasFlag(s, AvgCalculated) && HasFlag(s, LftCalcQueued)
  {
  }

  lemma RatioMask(s: CalculationStage)
    ensures HasFlag(s, TwrCalcQueued | StdCalcQueued | HasBenchmarks) <==>
      HasFlag(s, TwrCalcQueued) && HasFlag(s, StdCalcQueued) && HasFlag(s, HasBenchmarks)
  {
  }

  lemma TwrPrerequisites(s: CalculationStage)
    ensures HasFlag(s, Prerequisites(AddTwr)) <==> Required(AddTwr) <= StagesOf(s)
  {
    TwrMask(s);
    InStagesOf(s, Grr);
    InStagesOf(s, Lft);
  }

  lemma MwrPrerequisites(s: CalculationStage)
    ensures HasFlag(s, Prerequisites(AddMwr)) <==> Required(AddMwr) <= StagesOf(s)
  {
    MwrMask(s);
    InStagesOf(s, Inc);
    InStagesOf(s, Avg);
    InStagesOf(s, Lft);
  }

  lemma StdPrerequisites(s: CalculationStage)
    ensures HasFlag(s, Prerequisites(AddStd)) <==> Required(AddStd) <= StagesOf(s)
  {
    InStagesOf(s, Grr);
  }

  lemma RatioPrerequisites(s: CalculationStage, op: AddOp)
    requires op.AddSharpe? || op.AddInformationRatio?
    ensures HasFlag(s, Prerequisites(op)) <==> Required(op) <= StagesOf(s)
  {
    RatioMask(s);
    InStagesOf(s, Twr);
    InStagesOf(s, Std);
    InStagesOf(s, Bench);
  }

  /** The prerequisite mask of a call holds exactly when its required stages are present. */
  lemma PrerequisitesAsStages(s: CalculationStage, op: AddOp)
    ensures HasFlag(s, Prerequisites(op)) <==> Required(op) <= StagesOf(s)
  {
    match op {
      case AddTwr => TwrPrerequisites(s);
      case AddMwr => MwrPrerequisites(s);
      case AddStd => StdPrerequisites(s);
      case AddSharpe(_) => RatioPrerequisites(s, op);
      case AddInformationRatio(_) => RatioPrerequisites(s, op);
      case _ => InitializedIsEmpty(s);
    }
  }

  /**
   * On a non-empty series a metric call succeeds exactly when every stage it requires
   * is already in the stage set; otherwise it throws and nothing changes.
   */
  lemma Gating(c: Config, op: AddOp)
    requires IsMetric(op)
    ensures Apply(c, false, op).Success? <==> Required(op) <= StagesOf(c.stage)
    ensures Apply(c, false, op).Failure? ==> Apply(c, false, op).error == PrerequisitesMissing(Prerequisites(op))
  {
    PrerequisitesAsStages(c.stage, op);
  }

  /** Registering a metric whose required stages are present keeps the invariant. */
  lemma RegisterKeepsConsistent(st: set<Stage>, h: Handlers, op: AddOp)
    requires ConsistentStages(st, h, false) && IsMetric(op) && Required(op) <= st
    ensures ConsistentStages(st + Adds(op), Register(h, op), false)
  {
    match op {
      case AddTwr => assert Lft in Required(op);
      case AddMwr => assert Inc in Required(op) && Avg in Required(op) && Lft in Required(op);
      case AddSharpe(_) => assert Twr in Required(op) && Std in Required(op);
      case AddInformationRatio(_) => assert Twr in Required(op) && Std in Required(op);
      case _ =>
    }
  }

  /** A gated metric call on a non-empty series keeps the invariant. */
  lemma MetricPreservesConsistent(c: Config, op: AddOp)
    requires Consistent(c, false) && IsMetric(op) && Apply(c, false, op).Success?
    ensures Consistent(Apply(c, false, op).value, false)
  {
    ApplyAddsOwnStage(c, false, op);
    Gating(c, op);
    RegisterKeepsConsistent(StagesOf(c.stage), c.handlers, op);
  }

  /** Every call keeps the invariant. */
  lemma ApplyPreservesConsistent(c: Config, empty: bool, op: AddOp)
    requires Consistent(c, empty) && Apply(c, empty, op).Success?
    ensures Consistent(Apply(c, empty, op).value, empty)
  {
    match op {
      case AddSharpeDefault =>
        var op' := AddSharpe(c.benchmarks.value.riskFreeRate);
        assert Apply(c, empty, op) == Apply(c, empty, op');
        if !empty { MetricPreservesConsistent(c, op'); }
      case AddBenchmarks =>
        ApplyAddsOwnStage(c, empty, op);
      case UseBenchmarks(_) =>
        ApplyAddsOwnStage(c, empty, op);
      case _ =>
        if !empty { MetricPreservesConsistent(c, op); }
    }
  }

  /** A chain of calls keeps the invariant. */
  lemma {:induction false} ApplyAllPreservesConsistent(c: Config, empty: bool, ops: seq<AddOp>)
    requires Consistent(c, empty) && ApplyAll(c, empty, ops).Success?
    ensures Consistent(ApplyAll(c, empty, ops).value, empty)
    decreases |ops|
  {
    if ops != [] {
      ApplyPreservesConsistent(c, empty, ops[0]);
      ApplyAllPreservesConsistent(Apply(c, empty, ops[0]).value, empty, ops[1..]);
    }
  }

  /** On an empty series every metric call is a no-op that checks nothing. */
  lemma EmptyIsNoOp(c: Config, op: AddOp)
    requires IsMetric(op)
    ensures Apply(c, true, op) == Success(c)
  {
  }

  /** `AddSharpeCalculation()` throws without benchmarks, whatever the series. */
  lemma SharpeDefaultNeedsBenchmarks(c: Config, empty: bool)
    ensures Apply(c, empty, AddSharpeDefault).Failure? <==>
      c.benchmarks.None? || (!empty && !HasFlag(c.stage, TwrCalcQueued | StdCalcQueued | HasBenchmarks))
  {
  }

  /**
   * Benchmarks given to the constructor are not enough for the ratios: the BENCH flag
   * comes only from `UseBenchmarks` or `AddBenchmarksCalculation`.
   */
  lemma ConstructorBenchmarksDoNotStage(b: EfficiencyBenchmarks, ops: seq<AddOp>)
    requires forall i :: 0 <= i < |ops| ==> !ops[i].AddBenchmarks? && !ops[i].UseBenchmarks?
    requires ApplyAll(Initial(Some(b)), false, ops).Success?
    ensures Bench !in StagesOf(ApplyAll(Initial(Some(b)), false, ops).value.stage)
  {
    NoBenchWithout(Initial(Some(b)), ops);
  }

  lemma {:induction false} NoBenchWithout(c: Config, ops: seq<AddOp>)
    requires Bench !in StagesOf(c.stage)
    requires forall i :: 0 <= i < |ops| ==> !ops[i].AddBenchmarks? && !ops[i].UseBenchmarks?
    requires ApplyAll(c, false, ops).Success?
    ensures Bench !in StagesOf(ApplyAll(c, false, ops).value.stage)
    decreases |ops|
  {
    StagesOfBit(Grr);
    if ops != [] {
      ApplyAddsOwnStage(c, false, ops[0]);
      NoBenchWithout(Apply(c, false, ops[0]).value, ops[1..]);
    }
  }

  // ---------------------------------------------------------------- finalisation

  /** The metric fields `Calculate` writes into the result. */
  datatype Outputs = Outputs(
    lifeTime: Option<int>,
    income: Option<Double>,
    average: Option<Double>,
    mwr: Option<Double>,
    twr: Option<Double>,
    std: Option<Double>,
    sharpe: Option<Double>,
    info: Option<Double>)

  /**
   * What each registered handler yields on series `s`, computed straight from the series
   * (no handler's result is read by another); unregistered handlers yield null.
   */
  function Evaluate(s: seq<EfficiencyRecord>, h: Handlers, o: FloatOracles): (out: Outputs)
    requires Closed(h) && (s == [] ==> h == NoHandlers)
    ensures out.lifeTime.Some? <==> h.lifeTime
    ensures out.income.Some? <==> h.income
    ensures out.average.Some? <==> h.average
    ensures out.twr.Some? <==> h.twr
    ensures out.std.Some? <==> h.std
    ensures out.mwr.Some? <==> h.mwr
    ensures out.sharpe.Some? <==> h.sharpe.Some?
    ensures out.info.Some? <==> h.info.Some?
  {
    var twr := if s == [] then NonFinite else Metrics.Twr(s, LifeTime(s), o);
    var std := if s == [] then NonFinite else Metrics.Std(s, o);
    Outputs(
      if h.lifeTime then Some(LifeTime(s)) else None,
      if h.income then Some(Finite(Income(s))) else None,
      if h.average then Some(Finite(AveragePortfolio(s))) else None,
      if h.mwr then Some(Mwr(Finite(Income(s)), Finite(AveragePortfolio(s)), LifeTime(s))) else None,
      if h.twr then Some(twr) else None,
      if h.std then Some(std) else None,
      if h.sharpe.Some? then Some(Ratio(twr, h.sharpe.value, std)) else None,
      if h.info.Some? then Some(Ratio(twr, h.info.value, std)) else None)
  }

  /**
   * The TWR handler does not guard against a life-time of 0 days (one record, or all
   * records on one date): it raises the growth product to the non-finite power 365/0.
   */
  lemma TwrAtZeroLifeTime(s: seq<EfficiencyRecord>, o: FloatOracles)
    requires s != [] && LifeTime(s) == 0
    ensures Evaluate(s, NoHandlers.(lifeTime := true, twr := true), o).twr ==
      Some(Sub(o.pow(Finite(GrowthProduct(s)), NonFinite), Finite(1.0)))
  {
  }

  /**
   * The registered handlers run one after another in the order life-time, income,
   * average, MWR, TWR, STD, Sharpe, information ratio; each handler reads the results
   * of the handlers before it, and the outcome equals evaluating every metric straight
   * from the series.
   */
  method RunHandlers(s: seq<EfficiencyRecord>, h: Handlers, o: FloatOracles) returns (out: Outputs)
    requires Closed(h) && (s == [] ==> h == NoHandlers)
    ensures out == Evaluate(s, h, o)
  {
    ghost var direct := Evaluate(s, h, o);
    var lifeTime := if h.lifeTime then Some(LifeTime(s)) else None;
    var income := if h.income then Some(Finite(Income(s))) else None;
    var average := if h.average then Some(Finite(AveragePortfolio(s))) else None;
    var mwr := if h.mwr then Some(Mwr(income.value, average.value, lifeTime.value)) else None;
    assert mwr == direct.mwr;
    var twr := if h.twr then Some(Metrics.Twr(s, lifeTime.value, o)) else None;
    assert twr == direct.twr;
    var std := if h.std then Some(Metrics.Std(s, o)) else None;
    var sharpe := if h.sharpe.Some? then Some(Ratio(twr.value, h.sharpe.value, std.value)) else None;
    var info := if h.info.Some? then Some(Ratio(twr.value, h.info.value, std.value)) else None;
    out := Outputs(lifeTime, income, average, mwr, twr, std, sharpe, info);
  }

  /** Nothing configured on an empty series: `Calculate` leaves every metric null. */
  lemma EmptySeriesYieldsNothing(h: Handlers, o: FloatOracles)
    requires h == NoHandlers
    ensures Evaluate([], h, o) == Outputs(None, None, None, None, None, None, None, None)
  {
  }

  /** The chain every benchmark index is run through. */
  const IndexChain: seq<AddOp> := [AddLifeTime, AddTwr, AddStd]

  /**
   * On a non-empty series the index chain passes every gate and registers exactly
   * life-time, TWR and STD; on an empty one it registers nothing.
   */
  lemma IndexChainStages(empty: bool)
    ensures ApplyAll(Initial(None), empty, IndexChain).Success?
    ensures ApplyAll(Initial(None), empty, IndexChain).value.handlers ==
      if empty then NoHandlers else NoHandlers.(lifeTime := true, twr := true, std := true)
  {
    var c0 := Initial(None);
    if !empty {
      var c1 := c0.(stage := c0.stage | LftCalcQueued, handlers := c0.handlers.(lifeTime := true));
      assert Apply(c0, false, AddLifeTime) == Success(c1);
      assert HasFlag(c1.stage, GrrCalcQueued | LftCalcQueued);
      var c2 := Apply(c1, false, AddTwr).value;
      assert HasFlag(c2.stage, GrrCalcQueued);
      assert ApplyAll(c2, false, [AddStd]).Success?;
      assert IndexChain[1..] == [AddTwr, AddStd] && IndexChain[1..][1..] == [AddStd];
    } else {
      assert IndexChain[1..] == [AddTwr, AddStd] && IndexChain[1..][1..] == [AddStd];
    }
  }
}
