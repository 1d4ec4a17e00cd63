/**
 * The record of the daily efficiency series, and the query value that carries a
 * series together with the description of how it was selected.
 */
module Records {
  import opened Wrappers
  import opened Calendar

  /** One day of the series. Portfolio, flow and commission are never null in the core. */
  datatype EfficiencyRecord = EfficiencyRecord(
    date: Date,
    portfolio: real,
    flow: real,
    commission: real,
    growth: real)

  /** `new EfficiencyRecord()`: the initialisers' defaults. */
  function NewRecord(): (r: EfficiencyRecord)
    ensures r.portfolio == 0.0 && r.flow == 0.0 && r.commission == 0.0
    ensures r.growth == 1.0   // a growth factor of 1 means "no change"
    ensures r.date == 0       // default(DateTime)
  {
    EfficiencyRecord(0, 0.0, 0.0, 0.0, 1.0)
  }

  /** Integer codes of the data layer's classification enums. */
  type PensionPropertyType = int
  type AssetClass = int
  type RiskType = int

  /** The selection criteria recorded by the query builder: provenance only. */
  datatype QueryDetails = QueryDetails(
    startDate: Option<Date>,
    endDate: Option<Date>,
    amName: Option<string>,
    fundName: Option<string>,
    entityType: Option<PensionPropertyType>,
    strategyName: Option<string>,
    contract: Option<string>,
    assetClass: Option<AssetClass>,
    isinList: Option<seq<string>>,
    riskType: Option<RiskType>)

  const EmptyDetails: QueryDetails :=
    QueryDetails(None, None, None, None, None, None, None, None, None, None)

  /** An efficiency query: the records it enumerates, in order, and its details. */
  datatype EfficiencyQuery = EfficiencyQuery(records: seq<EfficiencyRecord>, details: QueryDetails)

  /** The dates of a series, in series order. */
  function Dates(s: seq<EfficiencyRecord>): (ds: seq<Date>)
    ensures |ds| == |s| && forall i :: 0 <= i < |s| ==> ds[i] == s[i].date
  {
    seq(|s|, i requires 0 <= i < |s| => s[i].date)
  }

  /** Dates strictly increase: ordered ascending and each date at most once. */
  predicate StrictlyIncreasing(ds: seq<Date>) {
    forall i, j :: 0 <= i < j < |ds| ==> ds[i] < ds[j]
  }
}
