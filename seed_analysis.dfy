/**
 * The analyzer run on the two seeded deals against their areas'
 * benchmarks and the default assumptions, and on deals at the verdict
 * thresholds.
 */
module SeedAnalysis {
  import opened Wrappers
  import opened Domain
  import opened Analyzer
  import opened AreaStatsRepository
  import opened DealRepository

  /** Dubai Marina seed: 5500/3 per sq ft, 80/11 % gross, 145/22 % net, 35375/6 a month, ratio 55/54, FAIR. */
  lemma MarinaSeedAnalysis(createdAtMillis: int)
    ensures var deal := MarinaSeed(createdAtMillis);
            Analyze(deal, GetAreaStatsForArea(deal.area), DefaultAssumptions)
              == DealAnalysis(5500.0 / 3.0, 80.0 / 11.0, 145.0 / 22.0, 35375.0 / 6.0, Fair)
  {
    MarinaFoundInAnyCase("Dubai Marina");
    var r := Analyze(MarinaSeed(createdAtMillis), Some(Stats[0]), DefaultAssumptions);
    assert r.pricePerSqft == 5500.0 / 3.0;
    assert r.pricePerSqft / 1800.0 == 55.0 / 54.0;
  }

  lemma JvcFound()
    ensures GetAreaStatsForArea("JVC") == Some(AreaStats("JVC", 950.0, 75.0))
  {
    assert !AreaIs("JVC")(Stats[0]) && !AreaIs("JVC")(Stats[1]) && AreaIs("JVC")(Stats[2]);
  }

  /** JVC seed: 10000/9 per sq ft, 8 % gross, 6.8 % net, 17125/12 a month, ratio about 1.17, OVERPRICED. */
  lemma JvcSeedAnalysis(createdAtMillis: int)
    ensures var deal := JvcSeed(createdAtMillis);
            Analyze(deal, GetAreaStatsForArea(deal.area), DefaultAssumptions)
              == DealAnalysis(10000.0 / 9.0, 8.0, 6.8, 17125.0 / 12.0, Overpriced)
  {
    JvcFound();
    var r := Analyze(JvcSeed(createdAtMillis), Some(Stats[2]), DefaultAssumptions);
    assert r.pricePerSqft == 10000.0 / 9.0;
    assert r.pricePerSqft / 950.0 > 1.1;
  }

  /** A deal priced at 1000 per square foot. */
  function ThousandPerSqft(): Deal {
    Deal("t", "t", "X", 1, 1.0, 1000.0, 0.0, None, None, 0)
  }

  /** The verdict on 1000 per square foot as bands of the average, both FAIR bounds inclusive. */
  lemma ThousandAgainst(avg: real)
    requires avg > 0.0
    ensures var v := Analyze(ThousandPerSqft(), Some(AreaStats("X", avg, 0.0)), DefaultAssumptions).verdict;
            && (v == Undervalued <==> 1000.0 < 0.9 * avg)
            && (v == Fair <==> 0.9 * avg <= 1000.0 <= 1.1 * avg)
            && (v == Overpriced <==> 1000.0 > 1.1 * avg)
  {
    VerdictBands(ThousandPerSqft(), AreaStats("X", avg, 0.0), DefaultAssumptions);
  }

  /**
   * Threshold cases in exact arithmetic: ratios of exactly 0.9 and 1.1 are
   * FAIR; against averages of 1111.12 and 1111.2 the ratio is below 0.9
   * (UNDERVALUED), against 900 and 899 it is above 1.1 (OVERPRICED).
   */
  lemma ThresholdExamples()
    ensures Analyze(ThousandPerSqft(), Some(AreaStats("X", 10000.0 / 9.0, 0.0)), DefaultAssumptions).verdict == Fair
    ensures Analyze(ThousandPerSqft(), Some(AreaStats("X", 10000.0 / 11.0, 0.0)), DefaultAssumptions).verdict == Fair
    ensures Analyze(ThousandPerSqft(), Some(AreaStats("X", 1111.12, 0.0)), DefaultAssumptions).verdict == Undervalued
    ensures Analyze(ThousandPerSqft(), Some(AreaStats("X", 1111.2, 0.0)), DefaultAssumptions).verdict == Undervalued
    ensures Analyze(ThousandPerSqft(), Some(AreaStats("X", 900.0, 0.0)), DefaultAssumptions).verdict == Overpriced
    ensures Analyze(ThousandPerSqft(), Some(AreaStats("X", 899.0, 0.0)), DefaultAssumptions).verdict == Overpriced
  {
    ThousandAgainst(10000.0 / 9.0);
    ThousandAgainst(10000.0 / 11.0);
    ThousandAgainst(1111.12);
    ThousandAgainst(1111.2);
    ThousandAgainst(900.0);
    ThousandAgainst(899.0);
  }
}
