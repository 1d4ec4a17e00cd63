/**
 * The efficiency query builder: records the selection criteria, and assembles the daily
 * series from the valuation rows and the flow rows the data layer returns for them.
 */
module QueryBuilder {
  import opened Wrappers
  import opened Calendar
  import opened Records

  /** Integer codes of the data layer's enums used only as filter arguments. */
  type AssetType = int
  type AccountingMethod = int
  type TransType = int

  /** One asset valuation row: the value of one holding on one date. */
  datatype AssetValue = AssetValue(date: Date, fullValue: real)

  /** One cash-flow row, with the two commissions charged on it. */
  datatype AssetFlow = AssetFlow(
    date: Date, fullValue: real, transType: TransType, commission: real, brokerCommission: real)

  /** A filter handed to the data layer's asset or flow query builder. */
  datatype Filter =
    | WithinDates(start: Option<Date>, end: Option<Date>)
    | AssetManagementCompany(amName: Option<string>)
    | FundName(fundName: Option<string>)
    | PensionProperty(pptype: Option<PensionPropertyType>)
    | Strategy(strategy: Option<string>)
    | Contract(contract: Option<string>)
    | IssuerName(issuerName: Option<string>)
    | IssuerId(issuerId: Option<string>)
    | Isins(isins: Option<seq<string>>)
    | AssetClassIs(assetClass: Option<AssetClass>)
    | AssetTypeIs(assetType: Option<AssetType>)
    | RiskTypeIs(riskType: Option<RiskType>)
    | RealPrices
    | FairPrices
    | AccountingMethodIs(accounting: Option<AccountingMethod>)
    | TransTypes(transTypes: Option<seq<TransType>>)

  /**
   * The data layer: the rows its asset and flow queries return under the filters
   * applied so far, and the SQL function giving a transaction type's flow direction.
   */
  datatype DataSource = DataSource(
    assets: seq<Filter> -> seq<AssetValue>,
    flows: seq<Filter> -> seq<AssetFlow>,
    flowDirection: TransType -> real)

  // ---------------------------------------------------------------------------
  // Grouping rows by date

  function AssetDate(a: AssetValue): Date { a.date }
  function AssetFullValue(a: AssetValue): real { a.fullValue }
  function FlowDate(f: AssetFlow): Date { f.date }
  function TotalCommission(f: AssetFlow): real { f.commission + f.brokerCommission }
  /** A flow's value signed by the direction of its transaction type. */
  function SignedFlow(direction: TransType -> real): AssetFlow -> real {
    (f: AssetFlow) => f.fullValue * direction(f.transType)
  }

  /** The distinct keys of some rows. */
  function KeySet<T>(rows: seq<T>, key: T -> Date): set<Date> {
    set i | 0 <= i < |rows| :: key(rows[i])
  }

  /** The sum of `val` over the rows whose key is `d` (0 when there are none). */
  function SumWhere<T>(rows: seq<T>, key: T -> Date, val: T -> real, d: Date): real
    decreases |rows|
  {
    if rows == [] then 0.0
    else
      var last := rows[|rows| - 1];
      SumWhere(rows[..|rows| - 1], key, val, d) + (if key(last) == d then val(last) else 0.0)
  }

  lemma {:induction false} SumWhereAbsent<T>(rows: seq<T>, key: T -> Date, val: T -> real, d: Date)
    requires d !in KeySet(rows, key)
    ensures SumWhere(rows, key, val, d) == 0.0
    decreases |rows|
  {
    if rows != [] {
      var init := rows[..|rows| - 1];
      assert KeySet(init, key) <= KeySet(rows, key) by {
        forall i | 0 <= i < |init| ensures key(init[i]) in KeySet(rows, key) {
          assert init[i] == rows[i];
        }
      }
      SumWhereAbsent(init, key, val, d);
      assert key(rows[|rows| - 1]) in KeySet(rows, key);
    }
  }

  /** `GroupBy(key).Select(g => g.Sum(val))` as a map from each key to its total. */
  function GroupSum<T>(rows: seq<T>, key: T -> Date, val: T -> real): (m: map<Date, real>)
    ensures m.Keys == KeySet(rows, key)
    ensures forall d :: d in m ==> m[d] == SumWhere(rows, key, val, d)
    decreases |rows|
  {
    if rows == [] then map[]
    else
      var init, last := rows[..|rows| - 1], rows[|rows| - 1];
      var m := GroupSum(init, key, val);
      assert KeySet(rows, key) == KeySet(init, key) + {key(last)} by {
        forall i | 0 <= i < |init| ensures key(init[i]) == key(rows[i]) {
        }
        assert key(rows[|rows| - 1]) == key(last);
      }
      assert key(last) !in m ==> SumWhere(init, key, val, key(last)) == 0.0 by {
        if key(last) !in m { SumWhereAbsent(init, key, val, key(last)); }
      }
      m[key(last) := (if key(last) in m then m[key(last)] else 0.0) + val(last)]
  }

  /** A left join's default: the group's total, or 0 when the date has no group. */
  function TotalOn(m: map<Date, real>, d: Date): real {
    if d in m then m[d] else 0.0
  }

  // ---------------------------------------------------------------------------
  // Distinct dates in ascending order

  function InsertDate(sorted: seq<Date>, d: Date): (r: seq<Date>)
    requires StrictlyIncreasing(sorted)
    ensures StrictlyIncreasing(r)
    ensures forall x :: x in r <==> x in sorted || x == d
  {
    if sorted == [] || d < sorted[0] then [d] + sorted
    else if d == sorted[0] then sorted
    else
      var rest := InsertDate(sorted[1..], d);
      var r := [sorted[0]] + rest;
      forall i, j | 0 <= i < j < |r| ensures r[i] < r[j] {
        assert r[j] in rest;
      }
      r
  }

  /** The distinct values of `ds`, ordered ascending. */
  function OrderedDistinct(ds: seq<Date>): (r: seq<Date>)
    ensures StrictlyIncreasing(r)
    ensures forall x :: x in r <==> x in ds
    decreases |ds|
  {
    if ds == [] then []
    else
      var r := InsertDate(OrderedDistinct(ds[..|ds| - 1]), ds[|ds| - 1]);
      assert ds == ds[..|ds| - 1] + [ds[|ds| - 1]];
      r
  }

  /** Ordering a set of dates has one answer: two ascending duplicate-free sequences with the same elements are equal. */
  lemma {:induction false} OrderedIsUnique(a: seq<Date>, b: seq<Date>)
    requires StrictlyIncreasing(a) && StrictlyIncreasing(b)
    requires forall x :: x in a <==> x in b
    ensures a == b
    decreases |a|
  {
    if a != [] { assert a[0] in b; }
    if b != [] { assert b[0] in a; }
    if a != [] && b != [] {
      assert a[0] == b[0] by {
        assert b[0] in a && a[0] in b;
      }
      forall x ensures x in a[1..] <==> x in b[1..] {
        if x in a[1..] {
          assert x in b && x != b[0];
        }
        if x in b[1..] {
          assert x in a && x != a[0];
        }
      }
      OrderedIsUnique(a[1..], b[1..]);
      assert a == [a[0]] + a[1..] && b == [b[0]] + b[1..];
    }
  }

  function Project<T>(rows: seq<T>, key: T -> Date): (ds: seq<Date>)
    ensures forall x :: x in ds <==> x in KeySet(rows, key)
  {
    var ds := seq(|rows|, i requires 0 <= i < |rows| => key(rows[i]));
    assert forall x :: x in KeySet(rows, key) ==> x in ds by {
      forall x | x in KeySet(rows, key) ensures x in ds {
        var i :| 0 <= i < |rows| && key(rows[i]) == x;
        assert ds[i] == x;
      }
    }
    ds
  }

  // ---------------------------------------------------------------------------
  // The daily series

  /**
   * `GenerateQuery`'s series: one record per date found in the valuation rows or the
   * flow rows, ascending by date; each day's portfolio is that day's valuation total,
   * its flow the signed total of its flows and its commission the total of both
   * commissions, each 0 when the day has no such rows. Growth keeps its default.
   */
  function DailySeries(assets: seq<AssetValue>, flows: seq<AssetFlow>, direction: TransType -> real)
    : (r: seq<EfficiencyRecord>)
    ensures StrictlyIncreasing(Dates(r))
    ensures forall d :: d in Dates(r) <==> d in KeySet(assets, AssetDate) || d in KeySet(flows, FlowDate)
    ensures forall i :: 0 <= i < |r| ==>
      && r[i].portfolio == SumWhere(assets, AssetDate, AssetFullValue, r[i].date)
      && r[i].flow == SumWhere(flows, FlowDate, SignedFlow(direction), r[i].date)
      && r[i].commission == SumWhere(flows, FlowDate, TotalCommission, r[i].date)
      && r[i].growth == 1.0
    ensures forall i :: 0 <= i < |r| && r[i].date !in KeySet(assets, AssetDate) ==> r[i].portfolio == 0.0
    ensures forall i :: 0 <= i < |r| && r[i].date !in KeySet(flows, FlowDate) ==>
      r[i].flow == 0.0 && r[i].commission == 0.0
  {
    var dates := OrderedDistinct(Project(assets, AssetDate) + Project(flows, FlowDate));
    var portfolio := GroupSum(assets, AssetDate, AssetFullValue);
    var flow := GroupSum(flows, FlowDate, SignedFlow(direction));
    var commission := GroupSum(flows, FlowDate, TotalCommission);
    var r := seq(|dates|, i requires 0 <= i < |dates| =>
      NewRecord().(date := dates[i],
                   portfolio := TotalOn(portfolio, dates[i]),
                   flow := TotalOn(flow, dates[i]),
                   commission := TotalOn(commission, dates[i])));
    assert Dates(r) == dates;
    forall i | 0 <= i < |r|
      ensures r[i].portfolio == SumWhere(assets, AssetDate, AssetFullValue, r[i].date)
      ensures r[i].flow == SumWhere(flows, FlowDate, SignedFlow(direction), r[i].date)
      ensures r[i].commission == SumWhere(flows, FlowDate, TotalCommission, r[i].date)
    {
      var d := dates[i];
      if d !in portfolio { SumWhereAbsent(assets, AssetDate, AssetFullValue, d); }
      if d !in flow {
        SumWhereAbsent(flows, FlowDate, SignedFlow(direction), d);
        SumWhereAbsent(flows, FlowDate, TotalCommission, d);
      }
    }
    r
  }

  // ---------------------------------------------------------------------------
  // The builder

  class EfficiencyQueryBuilder {
    /** Filters applied to the data layer's asset query, in call order. */
    var assetFilters: seq<Filter>
    /** Filters applied to the data layer's flow query, in call order. */
    var flowFilters: seq<Filter>
    var details: QueryDetails

    /** The connection string only configures the data layer, which is not modelled. */
    constructor (connectionString: Option<string>)
      ensures assetFilters == [] && flowFilters == [] && details == EmptyDetails
    {
      assetFilters, flowFilters := [], [];
      details := EmptyDetails;
    }

    method WithDates(start: Option<Date>, end: Option<Date>) returns (self: EfficiencyQueryBuilder)
      modifies this
      ensures self == this
      ensures assetFilters == old(assetFilters) + [WithinDates(start, end)]
      ensures flowFilters == old(flowFilters) + [WithinDates(start, end)]
      ensures details == old(details).(startDate := start, endDate := end)
    {
      assetFilters := assetFilters + [WithinDates(start, end)];
      flowFilters := flowFilters + [WithinDates(start, end)];
      details := details.(startDate := start, endDate := end);
      self := this;
    }

    method WithAssetManagementCompany(amName: Option<string>) returns (self: EfficiencyQueryBuilder)
      modifies this
      ensures self == this
      ensures assetFilters == old(assetFilters) + [AssetManagementCompany(amName)]
      ensures flowFilters == old(flowFilters) + [AssetManagementCompany(amName)]
      ensures details == old(details).(amName := amName)
    {
      assetFilters := assetFilters + [AssetManagementCompany(amName)];
      flowFilters := flowFilters + [AssetManagementCompany(amName)];
      details := details.(amName := amName);
      self := this;
    }

    method WithFundName(fundName: Option<string>) returns (self: EfficiencyQueryBuilder)
      modifies this
      ensures self == this
      ensures assetFilters == old(assetFilters) + [FundName(fundName)]
      ensures flowFilters == old(flowFilters) + [FundName(fundName)]
      ensures details == old(details).(fundName := fundName)
    {
      assetFilters := assetFilters + [FundName(fundName)];
      flowFilters := flowFilters + [FundName(fundName)];
      details := details.(fundName := fundName);
      self := this;
    }

    method WithPensionPropertyType(pptype: Option<PensionPropertyType>) returns (self: EfficiencyQueryBuilder)
      modifies this
      ensures self == this
      ensures assetFilters == old(assetFilters) + [PensionProperty(pptype)]
      ensures flowFilters == old(flowFilters) + [PensionProperty(pptype)]
      ensures details == old(details).(entityType := pptype)
    {
      assetFilters := assetFilters + [PensionProperty(pptype)];
      flowFilters := flowFilters + [PensionProperty(pptype)];
      details := details.(entityType := pptype);
      self := this;
    }

    method WithStrategy(strategy: Option<string>) returns (self: EfficiencyQueryBuilder)
      modifies this
      ensures self == this
      ensures assetFilters == old(assetFilters) + [Strategy(strategy)]
      ensures flowFilters == old(flowFilters) + [Strategy(strategy)]
      ensures details == old(details).(strategyName := strategy)
    {
      assetFilters := assetFilters + [Strategy(strategy)];
      flowFilters := flowFilters + [Strategy(strategy)];
      details := details.(strategyName := strategy);
      self := this;
    }

    method WithContract(contract: Option<string>) returns (self: EfficiencyQueryBuilder)
      modifies this
      ensures self == this
      ensures assetFilters == old(assetFilters) + [Contract(contract)]
      ensures flowFilters == old(flowFilters) + [Contract(contract)]
      ensures details == old(details).(contract := contract)
    {
      assetFilters := assetFilters + [Contract(contract)];
      flowFilters := flowFilters + [Contract(contract)];
      details := details.(contract := contract);
      self := this;
    }

    method WithIssuerName(name: Option<string>) returns (self: EfficiencyQueryBuilder)
      modifies this
      ensures self == this
      ensures assetFilters == old(assetFilters) + [IssuerName(name)]
      ensures flowFilters == old(flowFilters) + [IssuerName(name)]
      ensures details == old(details)
    {
      assetFilters := assetFilters + [IssuerName(name)];
      flowFilters := flowFilters + [IssuerName(name)];
      self := this;
    }

    method WithIssuerId(issuerId: Option<string>) returns (self: EfficiencyQueryBuilder)
      modifies this
      ensures self == this
      ensures assetFilters == old(assetFilters) + [IssuerId(issuerId)]
      ensures flowFilters == old(flowFilters) + [IssuerId(issuerId)]
      ensures details == old(details)
    {
      assetFilters := assetFilters + [IssuerId(issuerId)];
      flowFilters := flowFilters + [IssuerId(issuerId)];
      self := this;
    }

    method WithIsins(isins: Option<seq<string>>) returns (self: EfficiencyQueryBuilder)
      modifies this
      ensures self == this
      ensures assetFilters == old(assetFilters) + [Isins(isins)]
      ensures flowFilters == old(flowFilters) + [Isins(isins)]
      ensures details == old(details).(isinList := isins)
    {
      assetFilters := assetFilters + [Isins(isins)];
      flowFilters := flowFilters + [Isins(isins)];
      details := details.(isinList := isins);
      self := this;
    }

    method WithAssetClass(assetClass: Option<AssetClass>) returns (self: EfficiencyQueryBuilder)
      modifies this
      ensures self == this
      ensures assetFilters == old(assetFilters) + [AssetClassIs(assetClass)]
      ensures flowFilters == old(flowFilters) + [AssetClassIs(assetClass)]
      ensures details == old(details).(assetClass := assetClass)
    {
      assetFilters := assetFilters + [AssetClassIs(assetClass)];
      flowFilters := flowFilters + [AssetClassIs(assetClass)];
      details := details.(assetClass := assetClass);
      self := this;
    }

    method WithAssetType(assetType: Option<AssetType>) returns (self: EfficiencyQueryBuilder)
      modifies this
      ensures self == this
      ensures assetFilters == old(assetFilters) + [AssetTypeIs(assetType)]
      ensures flowFilters == old(flowFilters) + [AssetTypeIs(assetType)]
      ensures details == old(details)
    {
      assetFilters := assetFilters + [AssetTypeIs(assetType)];
      flowFilters := flowFilters + [AssetTypeIs(assetType)];
      self := this;
    }

    method WithRiskType(risk: Option<RiskType>) returns (self: EfficiencyQueryBuilder)
      modifies this
      ensures self == this
      ensures assetFilters == old(assetFilters) + [RiskTypeIs(risk)]
      ensures flowFilters == old(flowFilters) + [RiskTypeIs(risk)]
      ensures details == old(details).(riskType := risk)
    {
      assetFilters := assetFilters + [RiskTypeIs(risk)];
      flowFilters := flowFilters + [RiskTypeIs(risk)];
      details := details.(riskType := risk);
      self := this;
    }

    method WithRealPricesUsed() returns (self: EfficiencyQueryBuilder)
      modifies this
      ensures self == this
      ensures assetFilters == old(assetFilters) + [RealPrices]
      ensures flowFilters == old(flowFilters) && details == old(details)
    {
      assetFilters := assetFilters + [RealPrices];
      self := this;
    }

    method WithFairPricesUsed() returns (self: EfficiencyQueryBuilder)
      modifies this
      ensures self == this
      ensures assetFilters == old(assetFilters) + [FairPrices]
      ensures flowFilters == old(flowFilters) && details == old(details)
    {
      assetFilters := assetFilters + [FairPrices];
      self := this;
    }

    method WithAccountingMethod(accounting: Option<AccountingMethod>) returns (self: EfficiencyQueryBuilder)
      modifies this
      ensures self == this
      ensures assetFilters == old(assetFilters) + [AccountingMethodIs(accounting)]
      ensures flowFilters == old(flowFilters) && details == old(details)
    {
      assetFilters := assetFilters + [AccountingMethodIs(accounting)];
      self := this;
    }

    method WithTransType(transitionTypes: Option<seq<TransType>>) returns (self: EfficiencyQueryBuilder)
      modifies this
      ensures self == this
      ensures flowFilters == old(flowFilters) + [TransTypes(transitionTypes)]
      ensures assetFilters == old(assetFilters) && details == old(details)
    {
      flowFilters := flowFilters + [TransTypes(transitionTypes)];
      self := this;
    }

    /**
     * The query over the daily series of the rows the data layer returns under the
     * filters applied so far, carrying the recorded details.
     */
    method GenerateQuery(source: DataSource) returns (query: EfficiencyQuery)
      ensures query.details == details
      ensures query.records == DailySeries(source.assets(assetFilters), source.flows(flowFilters), source.flowDirection)
    {
      var assets := source.assets(assetFilters);
      var flows := source.flows(flowFilters);
      query := EfficiencyQuery(DailySeries(assets, flows, source.flowDirection), details);
    }
  }
}
