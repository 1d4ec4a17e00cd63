/**
 * `EfficiencyBenchmarks`' static part: the table of benchmark index names, and the
 * calculation of the benchmarks for a window, which runs every index's close prices
 * through the configurer with life-time, TWR and STD staged.
 */
module Benchmarks {
  import opened Wrappers
  import opened Numerics
  import opened Calendar
  import opened Records
  import opened Growth
  import opened Metrics
  import opened BenchmarkSet
  import opened Staging
  import opened Results
  import opened Configurer

  /** The default index names. */
  const DefaultNames: seq<string> := ["RUPCI", "RUPMI", "RUPAI", "IMOEX", "RUCBTR3A3YNS"]

  /** The static `_benchmarks` table: five name slots, overwritten in place. */
  class BenchmarkTable {
    const names: array<string>

    predicate Valid()
      reads this
    {
      names.Length == 5
    }

    constructor()
      ensures Valid() && fresh(names) && names[..] == DefaultNames
    {
      names := new string[5](i requires 0 <= i < 5 => DefaultNames[i]);
    }

    /**
     * `UseBenchmarks`: more than five names throw and change nothing; otherwise the
     * names overwrite slots 0 .. n - 1 in order and the remaining slots keep their names.
     */
    method UseBenchmarks(benchmarks: seq<string>) returns (outcome: Outcome<Error>)
      requires Valid()
      modifies names
      ensures |benchmarks| > 5 ==> outcome == Fail(TooManyBenchmarks) && names[..] == old(names[..])
      ensures |benchmarks| <= 5 ==>
        outcome == Pass && names[..] == benchmarks + old(names[..])[|benchmarks|..]
    {
      if |benchmarks| > 5 {
        return Fail(TooManyBenchmarks);
      }
      ghost var before := names[..];
      var i := 0;
      while i < |benchmarks|
        invariant 0 <= i <= |benchmarks|
        invariant forall k :: 0 <= k < i ==> names[k] == benchmarks[k]
        invariant forall k :: i <= k < 5 ==> names[k] == before[k]
      {
        names[i] := benchmarks[i];
        i := i + 1;
      }
      assert names[..] == benchmarks + before[|benchmarks|..];
      outcome := Pass;
    }
  }

  /** One row of the exchange's index history. */
  datatype IndexHistoryRow = IndexHistoryRow(secid: string, tradedate: Date, close: real)

  /**
   * The market-data client's answers: the zero-coupon yield for a date and a tenor in
   * years, and the index history rows for a window and a list of index names.
   */
  datatype MarketData = MarketData(
    gcurve: (Date, real) -> real,
    history: (Date, Date, seq<string>) -> seq<IndexHistoryRow>)

  /** The curve anchor: 31 December of the start date's year. */
  function CurveDate(start: Date): (d: Date)
    ensures YearOf(d) == YearOf(start) && YearOf(d + 1) == YearOf(start) + 1
  {
    var y := YearOf(start);
    LastDayOfYear(y)
  }

  /** The curve tenor: the window length in days, in years of 365 days. */
  function Tenor(start: Date, end: Date): (t: real)
    ensures t * 365.0 == (end - start) as real
  {
    (end - start) as real / 365.0
  }

  /**
   * One history row as an efficiency record: its date and close, flow 0, and commission
   * set to 0 unless `setsCommission` is off, when it keeps the record's default.
   */
  function IndexRecord(row: IndexHistoryRow, setsCommission: bool): (r: EfficiencyRecord)
    ensures r.date == row.tradedate && r.portfolio == row.close
    ensures r.flow == 0.0 && r.commission == 0.0 && r.growth == 1.0
  {
    var r := NewRecord().(date := row.tradedate, portfolio := row.close, flow := 0.0);
    if setsCommission then r.(commission := 0.0) else r
  }

  /** The fourth index's records, built without a commission, equal the others'. */
  lemma DefaultCommissionIsZero(row: IndexHistoryRow)
    ensures IndexRecord(row, false) == IndexRecord(row, true)
    ensures IndexRecord(row, false).commission == 0.0 && IndexRecord(row, false).flow == 0.0
  {
  }

  /** The records of the history rows of index `name`, in history order. */
  function IndexRecords(rows: seq<IndexHistoryRow>, name: string, setsCommission: bool): (recs: seq<EfficiencyRecord>)
    ensures |recs| <= |rows|
    decreases |rows|
  {
    if rows == [] then []
    else
      var last := rows[|rows| - 1];
      IndexRecords(rows[..|rows| - 1], name, setsCommission)
        + (if last.secid == name then [IndexRecord(last, setsCommission)] else [])
  }

  /** The rows are filtered in history order: the records of a concatenation concatenate. */
  lemma {:induction false} IndexRecordsOfConcat(a: seq<IndexHistoryRow>, b: seq<IndexHistoryRow>, name: string, setsCommission: bool)
    ensures IndexRecords(a + b, name, setsCommission) ==
      IndexRecords(a, name, setsCommission) + IndexRecords(b, name, setsCommission)
    decreases |b|
  {
    if b == [] {
      assert a + b == a;
    } else {
      var init := b[..|b| - 1];
      IndexRecordsOfConcat(a, init, name, setsCommission);
      assert (a + b)[..|a + b| - 1] == a + init;
    }
  }

  /**
   * An index's series holds a record for every row of that index and only for those;
   * every record is flow-free and commission-free.
   */
  lemma {:induction false} IndexRecordsSelect(rows: seq<IndexHistoryRow>, name: string, setsCommission: bool)
    ensures forall row :: row in rows && row.secid == name ==>
      IndexRecord(row, setsCommission) in IndexRecords(rows, name, setsCommission)
    ensures forall r :: r in IndexRecords(rows, name, setsCommission) ==>
      exists row :: row in rows && row.secid == name && r == IndexRecord(row, setsCommission)
    ensures forall r :: r in IndexRecords(rows, name, setsCommission) ==> r.flow == 0.0 && r.commission == 0.0
    decreases |rows|
  {
    if rows != [] {
      var init := rows[..|rows| - 1];
      IndexRecordsSelect(init, name, setsCommission);
      assert rows == init + [rows[|rows| - 1]];
      forall r | r in IndexRecords(rows, name, setsCommission)
        ensures exists row :: row in rows && row.secid == name && r == IndexRecord(row, setsCommission)
      {
        if r in IndexRecords(init, name, setsCommission) {
          var row :| row in init && row.secid == name && r == IndexRecord(row, setsCommission);
          assert row in rows;
        } else {
          assert rows[|rows| - 1] in rows;
        }
      }
    }
  }

  /** The handlers of an index run: life-time, TWR and STD, or none on an empty series. */
  function IndexHandlers(recs: seq<EfficiencyRecord>): Handlers {
    if recs == [] then NoHandlers else NoHandlers.(lifeTime := true, twr := true, std := true)
  }

  /** The index's TWR and STD, a null one replaced by 0. */
  function IndexTwr(recs: seq<EfficiencyRecord>, o: FloatOracles): Double {
    Evaluate(GrowthRates(recs), IndexHandlers(recs), o).twr.GetOr(Finite(0.0))
  }

  function IndexStd(recs: seq<EfficiencyRecord>, o: FloatOracles): Double {
    Evaluate(GrowthRates(recs), IndexHandlers(recs), o).std.GetOr(Finite(0.0))
  }

  /**
   * An index without history rows gets TWR and STD 0; otherwise its TWR is the
   * annualised growth product over the index's life-time, and its STD the growths'.
   */
  lemma IndexMetrics(recs: seq<EfficiencyRecord>, o: FloatOracles)
    ensures recs == [] ==> IndexTwr(recs, o) == Finite(0.0) && IndexStd(recs, o) == Finite(0.0)
    ensures recs != [] ==>
      var s := GrowthRates(recs);
      IndexTwr(recs, o) == Metrics.Twr(s, LifeTime(s), o) && IndexStd(recs, o) == Metrics.Std(s, o)
  {
  }

  /** The TWR and STD of one benchmark index. */
  datatype IndexResult = IndexResult(twr: Double, std: Double)

  /** What the history rows yield for index `name`. */
  function IndexOutcome(rows: seq<IndexHistoryRow>, name: string, setsCommission: bool, o: FloatOracles): IndexResult {
    var recs := IndexRecords(rows, name, setsCommission);
    IndexResult(IndexTwr(recs, o), IndexStd(recs, o))
  }

  /**
   * Builds the records of index `name` from the history rows, runs them through a fresh
   * configurer with life-time, TWR and STD staged, and maps a null TWR or STD to 0; no
   * stage gate fails.
   */
  method RunIndex(rows: seq<IndexHistoryRow>, name: string, setsCommission: bool, o: FloatOracles)
    returns (result: IndexResult)
    ensures result == IndexOutcome(rows, name, setsCommission, o)
  {
    var recs := IndexRecords(rows, name, setsCommission);
    var c := ConfigureEfficiencyCalculation(EfficiencyQuery(recs, EmptyDetails));
    var empty := c.series == [];
    assert empty <==> recs == [];
    IndexChainStages(empty);
    var c1 := Apply(Initial(None), empty, AddLifeTime);
    assert IndexChain[1..] == [AddTwr, AddStd] && IndexChain[1..][1..] == [AddStd];
    var step := c.AddLifeTimeCalculation();
    assert step == Pass && c.State() == c1.value;
    step := c.AddTwrCalculation();
    assert step == Pass;
    step := c.AddStdCalculation();
    assert step == Pass;
    assert c.handlers == IndexHandlers(recs);
    var eff := c.Calculate(o);
    result := IndexResult(eff.twr.GetOr(Finite(0.0)), eff.std.GetOr(Finite(0.0)));
  }

  /**
   * `CalculateBenchmarks`: names from the table's five slots, the risk-free rate from the
   * curve at 31 December of the start year for the window's tenor, and every index's
   * TWR and STD from its own history rows.
   */
  method CalculateBenchmarks(table: BenchmarkTable, start: Date, end: Date, market: MarketData, o: FloatOracles)
    returns (bench: EfficiencyBenchmarks)
    requires table.Valid()
    ensures bench.nameIndex1 == Some(table.names[0]) && bench.nameIndex2 == Some(table.names[1])
    ensures bench.nameIndex3 == Some(table.names[2]) && bench.nameIndex4 == Some(table.names[3])
    ensures bench.nameIndex5 == Some(table.names[4])
    ensures bench.riskFreeRate == market.gcurve(CurveDate(start), Tenor(start, end))
    ensures var rows := market.history(start, end, table.names[..]);
      && IndexResult(bench.twrIndex1, bench.stdIndex1) == IndexOutcome(rows, table.names[0], true, o)
      && IndexResult(bench.twrIndex2, bench.stdIndex2) == IndexOutcome(rows, table.names[1], true, o)
      && IndexResult(bench.twrIndex3, bench.stdIndex3) == IndexOutcome(rows, table.names[2], true, o)
      && IndexResult(bench.twrIndex4, bench.stdIndex4) == IndexOutcome(rows, table.names[3], false, o)
      && IndexResult(bench.twrIndex5, bench.stdIndex5) == IndexOutcome(rows, table.names[4], true, o)
  {
    var names := table.names[..];
    var curveDate := LastDayOfYear(YearOf(start));
    var tenor := (end - start) as real / 365.0;
    var riskFreeRate := market.gcurve(curveDate, tenor);
    var his := market.history(start, end, names);
    var index1 := RunIndex(his, names[0], true, o);
    var index2 := RunIndex(his, names[1], true, o);
    var index3 := RunIndex(his, names[2], true, o);
    var index4 := RunIndex(his, names[3], false, o);
    var index5 := RunIndex(his, names[4], true, o);
    assert table.names[..] == names;
    bench := EfficiencyBenchmarks(riskFreeRate,
      Some(names[0]), Some(names[1]), Some(names[2]), Some(names[3]), Some(names[4]),
      index1.twr, index2.twr, index3.twr, index4.twr, index5.twr,
      index1.std, index2.std, index3.std, index4.std, index5.std);
  }
}
