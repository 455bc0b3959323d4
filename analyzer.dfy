/**
 * `AnalyzeDealUseCase.analyze`: price per square foot, gross and net yield,
 * an interest-only monthly cashflow, and a verdict on the price per square
 * foot against the area's average.
 */
module Analyzer {
  import opened Wrappers
  import opened Domain

  /** Yearly rent less the recurring costs, an absent cost counting as 0. */
  function NetRentPerYear(deal: Deal): real {
    deal.expectedRentPerYear
      - (deal.serviceChargePerYear.GetOr(0.0) + deal.additionalCostsPerYear.GetOr(0.0))
  }

  /** The `when` over the price ratio. */
  function Classify(ratio: real): Verdict {
    if ratio < 0.9 then Undervalued
    else if ratio <= 1.1 then Fair
    else Overpriced
  }

  function Analyze(deal: Deal, areaStats: Option<AreaStats>, assumptions: Assumptions): (r: DealAnalysis)
    ensures deal.sizeSqft <= 0.0 ==> r.pricePerSqft == 0.0
    ensures deal.sizeSqft > 0.0 ==> r.pricePerSqft * deal.sizeSqft == deal.askingPrice
    ensures deal.askingPrice <= 0.0 ==> r.grossYieldPercent == 0.0 && r.netYieldPercent == 0.0
    ensures deal.askingPrice > 0.0 ==>
      && r.grossYieldPercent * deal.askingPrice == 100.0 * deal.expectedRentPerYear
      && r.netYieldPercent * deal.askingPrice == 100.0 * NetRentPerYear(deal)
    ensures 12.0 * r.monthlyCashflowEstimate
      == NetRentPerYear(deal)
         - deal.askingPrice * assumptions.ltvPercent * assumptions.interestRatePercent / 10000.0
  {
    AnalysisArithmetic(deal, assumptions);
    var pricePerSqft := if deal.sizeSqft > 0.0 then deal.askingPrice / deal.sizeSqft else 0.0;
    var grossYieldPercent :=
      if deal.askingPrice > 0.0 then (deal.expectedRentPerYear / deal.askingPrice) * 100.0 else 0.0;
    var netRentPerYear := NetRentPerYear(deal);
    var netYieldPercent :=
      if deal.askingPrice > 0.0 then (netRentPerYear / deal.askingPrice) * 100.0 else 0.0;
    var loanAmount := deal.askingPrice * (assumptions.ltvPercent / 100.0);
    var yearlyInterest := loanAmount * (assumptions.interestRatePercent / 100.0);
    var monthlyInterest := yearlyInterest / 12.0;
    var monthlyNetRent := netRentPerYear / 12.0;
    var monthlyCashflowEstimate := monthlyNetRent - monthlyInterest;
    var verdict :=
      match areaStats
      case None => Fair
      case Some(stats) =>
        var ratio := if stats.avgPricePerSqft > 0.0 then pricePerSqft / stats.avgPricePerSqft else 1.0;
        Classify(ratio);
    DealAnalysis(pricePerSqft, grossYieldPercent, netYieldPercent, monthlyCashflowEstimate, verdict)
  }

  /** The arithmetic behind `Analyze`'s contract, one step per metric. */
  lemma AnalysisArithmetic(deal: Deal, assumptions: Assumptions)
    ensures deal.sizeSqft > 0.0 ==> (deal.askingPrice / deal.sizeSqft) * deal.sizeSqft == deal.askingPrice
    ensures deal.askingPrice > 0.0 ==>
      && ((deal.expectedRentPerYear / deal.askingPrice) * 100.0) * deal.askingPrice
           == 100.0 * deal.expectedRentPerYear
      && ((NetRentPerYear(deal) / deal.askingPrice) * 100.0) * deal.askingPrice
           == 100.0 * NetRentPerYear(deal)
    ensures 12.0 * (NetRentPerYear(deal) / 12.0
                    - deal.askingPrice * (assumptions.ltvPercent / 100.0)
                      * (assumptions.interestRatePercent / 100.0) / 12.0)
         == NetRentPerYear(deal)
            - deal.askingPrice * assumptions.ltvPercent * assumptions.interestRatePercent / 10000.0
  {
    if deal.askingPrice > 0.0 {
      PercentOf(deal.expectedRentPerYear, deal.askingPrice);
      PercentOf(NetRentPerYear(deal), deal.askingPrice);
    }
    var loan := deal.askingPrice * (assumptions.ltvPercent / 100.0);
    assert loan * (assumptions.interestRatePercent / 100.0)
        == deal.askingPrice * assumptions.ltvPercent * assumptions.interestRatePercent / 10000.0;
  }

  lemma PercentOf(x: real, whole: real)
    requires whole > 0.0
    ensures ((x / whole) * 100.0) * whole == 100.0 * x
  {
    assert (x / whole) * whole == x;
  }

  /** Without a benchmark, or with a non-positive average, the verdict is the neutral FAIR. */
  lemma NoUsableBenchmarkIsFair(deal: Deal, areaStats: Option<AreaStats>, assumptions: Assumptions)
    requires areaStats.None? || areaStats.value.avgPricePerSqft <= 0.0
    ensures Analyze(deal, areaStats, assumptions).verdict == Fair
  {
  }

  /** Multiplying both sides by a positive factor keeps a comparison. */
  lemma ScaleComparison(ratio: real, avg: real, bound: real)
    requires avg > 0.0
    ensures ratio < bound <==> ratio * avg < bound * avg
    ensures ratio <= bound <==> ratio * avg <= bound * avg
  {
    assert bound * avg - ratio * avg == (bound - ratio) * avg;
    if ratio < bound {
      assert (bound - ratio) * avg > 0.0;
    } else {
      assert (ratio - bound) * avg >= 0.0;
    }
  }

  /** The ratio bands, for a ratio that times the average gives the price. */
  lemma RatioBands(ratio: real, pricePerSqft: real, avg: real)
    requires avg > 0.0 && ratio * avg == pricePerSqft
    ensures var v := Classify(ratio);
            && (v == Undervalued <==> pricePerSqft < 0.9 * avg)
            && (v == Fair <==> 0.9 * avg <= pricePerSqft <= 1.1 * avg)
            && (v == Overpriced <==> pricePerSqft > 1.1 * avg)
  {
    ScaleComparison(ratio, avg, 0.9);
    ScaleComparison(ratio, avg, 1.1);
  }

  /** The ratio bands restated as bands of the price against the average. */
  lemma ClassifyBands(pricePerSqft: real, avg: real)
    requires avg > 0.0
    ensures var v := Classify(pricePerSqft / avg);
            && (v == Undervalued <==> pricePerSqft < 0.9 * avg)
            && (v == Fair <==> 0.9 * avg <= pricePerSqft <= 1.1 * avg)
            && (v == Overpriced <==> pricePerSqft > 1.1 * avg)
  {
    RatioBands(pricePerSqft / avg, pricePerSqft, avg);
  }

  /**
   * Against a positive average the verdict is exactly one of three bands of
   * the price per square foot: below 0.9 of the average, within [0.9, 1.1]
   * of it (both ends included), or above 1.1 of it.
   */
  lemma VerdictBands(deal: Deal, stats: AreaStats, assumptions: Assumptions)
    requires stats.avgPricePerSqft > 0.0
    ensures var r := Analyze(deal, Some(stats), assumptions);
            var avg := stats.avgPricePerSqft;
            && (r.verdict == Undervalued <==> r.pricePerSqft < 0.9 * avg)
            && (r.verdict == Fair <==> 0.9 * avg <= r.pricePerSqft <= 1.1 * avg)
            && (r.verdict == Overpriced <==> r.pricePerSqft > 1.1 * avg)
  {
    var r := Analyze(deal, Some(stats), assumptions);
    assert r.verdict == Classify(r.pricePerSqft / stats.avgPricePerSqft);
    ClassifyBands(r.pricePerSqft, stats.avgPricePerSqft);
  }

  /** A deal of unknown size has price 0 per square foot, so any positive average calls it UNDERVALUED. */
  lemma UnknownSizeIsUndervalued(deal: Deal, stats: AreaStats, assumptions: Assumptions)
    requires deal.sizeSqft <= 0.0 && stats.avgPricePerSqft > 0.0
    ensures Analyze(deal, Some(stats), assumptions).verdict == Undervalued
  {
  }

  /** With a positive price and non-negative costs, net yield never exceeds gross yield. */
  lemma NetYieldAtMostGross(deal: Deal, areaStats: Option<AreaStats>, assumptions: Assumptions)
    requires deal.askingPrice > 0.0
    requires deal.serviceChargePerYear.GetOr(0.0) + deal.additionalCostsPerYear.GetOr(0.0) >= 0.0
    ensures var r := Analyze(deal, areaStats, assumptions);
            r.netYieldPercent <= r.grossYieldPercent
  {
  }

  /** Raising either recurring cost, price fixed, never raises the net yield. */
  lemma NetYieldAntitoneInCosts(
    deal: Deal, service1: real, service2: real, extra1: real, extra2: real,
    areaStats: Option<AreaStats>, assumptions: Assumptions)
    requires service1 <= service2 && extra1 <= extra2
    ensures var cheaper := deal.(serviceChargePerYear := Some(service1), additionalCostsPerYear := Some(extra1));
            var dearer := deal.(serviceChargePerYear := Some(service2), additionalCostsPerYear := Some(extra2));
            Analyze(dearer, areaStats, assumptions).netYieldPercent
              <= Analyze(cheaper, areaStats, assumptions).netYieldPercent
  {
    var cheaper := deal.(serviceChargePerYear := Some(service1), additionalCostsPerYear := Some(extra1));
    var dearer := deal.(serviceChargePerYear := Some(service2), additionalCostsPerYear := Some(extra2));
    var p := deal.askingPrice;
    if p > 0.0 {
      var lo := Analyze(dearer, areaStats, assumptions).netYieldPercent;
      var hi := Analyze(cheaper, areaStats, assumptions).netYieldPercent;
      assert NetRentPerYear(dearer) <= NetRentPerYear(cheaper);
      assert lo * p <= hi * p;
    }
  }

  /** An absent cost is analysed exactly as a cost of 0. */
  lemma AbsentCostIsZero(deal: Deal, areaStats: Option<AreaStats>, assumptions: Assumptions)
    ensures Analyze(deal.(serviceChargePerYear := None), areaStats, assumptions)
         == Analyze(deal.(serviceChargePerYear := Some(0.0)), areaStats, assumptions)
    ensures Analyze(deal.(additionalCostsPerYear := None), areaStats, assumptions)
         == Analyze(deal.(additionalCostsPerYear := Some(0.0)), areaStats, assumptions)
  {
  }

  /**
   * The analysis reads only the loan-to-value and interest figures of the
   * assumptions, only the average price of the benchmark, and none of the
   * deal's descriptive fields.
   */
  lemma AnalysisInputsUsed(
    deal1: Deal, deal2: Deal, stats1: Option<AreaStats>, stats2: Option<AreaStats>,
    assumptions1: Assumptions, assumptions2: Assumptions)
    requires && deal1.sizeSqft == deal2.sizeSqft && deal1.askingPrice == deal2.askingPrice
             && deal1.expectedRentPerYear == deal2.expectedRentPerYear
             && deal1.serviceChargePerYear == deal2.serviceChargePerYear
             && deal1.additionalCostsPerYear == deal2.additionalCostsPerYear
    requires stats1.Some? == stats2.Some?
    requires stats1.Some? ==> stats1.value.avgPricePerSqft == stats2.value.avgPricePerSqft
    requires assumptions1.ltvPercent == assumptions2.ltvPercent
    requires assumptions1.interestRatePercent == assumptions2.interestRatePercent
    ensures Analyze(deal1, stats1, assumptions1) == Analyze(deal2, stats2, assumptions2)
  {
  }
}
