/**
 * `AreaStatsRepositoryImpl`: a fixed benchmark table, read whole or searched
 * for the first entry whose area equals a name ignoring case.
 */
module AreaStatsRepository {
  import opened Wrappers
  import opened Domain
  import opened Text
  import opened Seqs

  /** The immutable table, in declaration order. */
  const Stats: seq<AreaStats> := [
    AreaStats("Dubai Marina", 1800.0, 130.0),
    AreaStats("Downtown Dubai", 2200.0, 150.0),
    AreaStats("JVC", 950.0, 75.0),
    AreaStats("Palm Jumeirah", 2800.0, 170.0)
  ]

  function GetAreaStats(): seq<AreaStats> {
    Stats
  }

  /** The test `firstOrNull` applies to each entry. */
  function AreaIs(area: string): AreaStats -> bool {
    (entry: AreaStats) => EqualsIgnoreCase(entry.area, area)
  }

  /** The first entry of `table` whose area equals `area` ignoring case. */
  function FirstForArea(table: seq<AreaStats>, area: string): Option<AreaStats> {
    FirstOrNone(table, AreaIs(area))
  }

  /**
   * A found entry is the earliest entry of the table whose area equals the
   * query ignoring case; nothing is found exactly when no entry matches.
   */
  function GetAreaStatsForArea(area: string): (r: Option<AreaStats>)
    ensures r.Some? ==>
      exists i :: 0 <= i < |Stats| && Stats[i] == r.value
        && EqualsIgnoreCase(Stats[i].area, area)
        && forall j :: 0 <= j < i ==> !EqualsIgnoreCase(Stats[j].area, area)
    ensures r.None? <==> forall i :: 0 <= i < |Stats| ==> !EqualsIgnoreCase(Stats[i].area, area)
  {
    FirstForAreaIsFirstMatch(Stats, area);
    FirstForArea(Stats, area)
  }

  /**
   * A found entry is the earliest entry of the table whose area matches;
   * nothing is found exactly when no entry matches.
   */
  lemma FirstForAreaIsFirstMatch(table: seq<AreaStats>, area: string)
    ensures var r := FirstForArea(table, area);
            && (r.Some? ==>
                  exists i :: 0 <= i < |table| && table[i] == r.value
                    && EqualsIgnoreCase(table[i].area, area)
                    && forall j :: 0 <= j < i ==> !EqualsIgnoreCase(table[j].area, area))
            && (r.None? <==> forall i :: 0 <= i < |table| ==> !EqualsIgnoreCase(table[i].area, area))
  {
    var k := IndexOfFirst(table, AreaIs(area));
    if k >= 0 {
      assert table[k] == FirstForArea(table, area).value;
    }
  }

  lemma LowerAgrees(a: string, b: string, c: string)
    requires Lower(a) == Lower(b)
    ensures EqualsIgnoreCase(c, a) == EqualsIgnoreCase(c, b)
  {
  }

  /** Two names that differ only in letter case find the same entry. */
  lemma {:induction false} CaseOfQueryIrrelevant(table: seq<AreaStats>, area1: string, area2: string)
    requires EqualsIgnoreCase(area1, area2)
    ensures FirstForArea(table, area1) == FirstForArea(table, area2)
  {
    if table != [] {
      LowerAgrees(area1, area2, table[0].area);
      CaseOfQueryIrrelevant(table[1..], area1, area2);
    }
  }

  /** No two table entries name the same area, even ignoring case. */
  lemma TableAreasDistinct()
    ensures forall i, j :: 0 <= i < j < |Stats| ==> !EqualsIgnoreCase(Stats[i].area, Stats[j].area)
  {
  }

  /** Any spelling of "Dubai Marina" finds the first entry, average 1800.0. */
  lemma MarinaFoundInAnyCase(area: string)
    requires EqualsIgnoreCase(area, "Dubai Marina")
    ensures GetAreaStatsForArea(area) == Some(AreaStats("Dubai Marina", 1800.0, 130.0))
  {
    assert AreaIs(area)(Stats[0]);
  }

  /** A name of a length no table entry has finds nothing; "" is one. */
  lemma UnlistedLengthNotFound(area: string)
    requires |area| !in {3, 12, 13, 14}
    ensures GetAreaStatsForArea(area) == None
  {
    NoMatchNotFound(area);
  }

  lemma NoMatchNotFound(area: string)
    requires !AreaIs(area)(Stats[0]) && !AreaIs(area)(Stats[1])
    requires !AreaIs(area)(Stats[2]) && !AreaIs(area)(Stats[3])
    ensures GetAreaStatsForArea(area) == None
  {
  }

  /** Worked lookups: "dubai marina" and "DUBAI MARINA" both find the 1800.0 entry. */
  lemma MarinaLookupExamples()
    ensures GetAreaStatsForArea("dubai marina") == Some(AreaStats("Dubai Marina", 1800.0, 130.0))
    ensures GetAreaStatsForArea("DUBAI MARINA") == Some(AreaStats("Dubai Marina", 1800.0, 130.0))
  {
    assert Lower("Dubai Marina") == "dubai marina";
    assert Lower("dubai marina") == "dubai marina";
    assert Lower("DUBAI MARINA") == "dubai marina";
    MarinaFoundInAnyCase("dubai marina");
    MarinaFoundInAnyCase("DUBAI MARINA");
  }

  /** Worked lookups: "" and the unlisted "Business Bay" find nothing. */
  lemma UnlistedLookupExamples()
    ensures GetAreaStatsForArea("") == None
    ensures GetAreaStatsForArea("Business Bay") == None
  {
    UnlistedLengthNotFound("");
    var q := "Business Bay";
    assert Lower(q)[0] == 'b';
    assert Lower(Stats[0].area)[0] == 'd';
    NoMatchNotFound(q);
  }
}
