/**
 * The domain records shared by the analyzer and the repositories. Kotlin
 * `Double`s are exact reals here; `Int` and `Long` are unbounded integers.
 */
module Domain {
  import opened Wrappers

  /** A candidate property. Absent costs are `None`. */
  datatype Deal = Deal(
    id: string,
    title: string,
    area: string,
    bedrooms: int,
    sizeSqft: real,
    askingPrice: real,
    expectedRentPerYear: real,
    serviceChargePerYear: Option<real>,
    additionalCostsPerYear: Option<real>,
    createdAtMillis: int
  )

  /** Benchmark figures for one named area. */
  datatype AreaStats = AreaStats(area: string, avgPricePerSqft: real, avgRentPerSqftPerYear: real)

  /** Financing parameters; `termYears` and `purchaseCostsPercent` are carried but never used. */
  datatype Assumptions = Assumptions(
    ltvPercent: real,
    interestRatePercent: real,
    termYears: int,
    purchaseCostsPercent: real
  )

  /** `Assumptions()` with every default argument. */
  const DefaultAssumptions: Assumptions := Assumptions(75.0, 4.5, 25, 4.0)

  datatype Verdict = Undervalued | Fair | Overpriced

  /** The output of one analysis run. */
  datatype DealAnalysis = DealAnalysis(
    pricePerSqft: real,
    grossYieldPercent: real,
    netYieldPercent: real,
    monthlyCashflowEstimate: real,
    verdict: Verdict
  )
}
