/** The values an `EfficiencyBenchmarks` object carries: five named indices and a rate. */
module BenchmarkSet {
  import opened Wrappers
  import opened Numerics

  datatype EfficiencyBenchmarks = EfficiencyBenchmarks(
    riskFreeRate: real,
    nameIndex1: Option<string>, nameIndex2: Option<string>, nameIndex3: Option<string>,
    nameIndex4: Option<string>, nameIndex5: Option<string>,
    twrIndex1: Double, twrIndex2: Double, twrIndex3: Double, twrIndex4: Double, twrIndex5: Double,
    stdIndex1: Double, stdIndex2: Double, stdIndex3: Double, stdIndex4: Double, stdIndex5: Double)

}
