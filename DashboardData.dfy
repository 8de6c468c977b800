/** The fixed aggregate records that `get_data` returns, one per time range,
    and the invariants every one of them keeps. */
module DashboardData {
  import opened Wrappers

  /** A value of the `total_profiles` group: a profile count, or the
      duplicate-record rate kept as display text such as "22%". */
  datatype Metric = Count(n: int) | Text(s: string)

  /** One channel's list `[total, unique, reachPercent]`. */
  datatype ChannelStats = ChannelStats(total: int, unique: int, reachPercent: int)
  {
    /** The list element at index `k`, as the dashboard reads it with `[k]`. */
    function At(k: nat): (v: int)
      requires k < 3
    {
      if k == 0 then total else if k == 1 then unique else reachPercent
    }
  }

  /** The `coreid_reach` group, which feeds the two gauges. */
  datatype CoreIdReach = CoreIdReach(totalProfiles: int, matchedCoreId: int, actualReach: int)

  /** One record returned by `get_data`. `totalProfiles` is the
      `total_profiles` dictionary as its (label, value) items in insertion
      order, the order in which the dashboard iterates it. */
  datatype Dataset = Dataset(
    totalProfiles: seq<(string, Metric)>,
    channelDistribution: map<string, ChannelStats>,
    coreIdReach: CoreIdReach)

  /** The labels of the `total_profiles` group, in insertion order. */
  const TileLabels: seq<string> := ["Total Profiles", "Matched csCoreID", "Matched csHHId", "Duplicate Records"]

  /** The channels, in the fixed order the dashboard lists them. */
  const Channels: seq<string> := ["Address", "Email", "Phone"]

  const OneMonth: Dataset := Dataset(
    [("Total Profiles", Count(180000)), ("Matched csCoreID", Count(140000)),
     ("Matched csHHId", Count(120000)), ("Duplicate Records", Text("22%"))],
    map["Address" := ChannelStats(170000, 160000, 95),
        "Email" := ChannelStats(160000, 150000, 93),
        "Phone" := ChannelStats(150000, 135000, 89)],
    CoreIdReach(180000, 120000, 108000))

  const ThreeMonths: Dataset := Dataset(
    [("Total Profiles", Count(200000)), ("Matched csCoreID", Count(150000)),
     ("Matched csHHId", Count(130000)), ("Duplicate Records", Text("25%"))],
    map["Address" := ChannelStats(185000, 180000, 97),
        "Email" := ChannelStats(175000, 170000, 97),
        "Phone" := ChannelStats(165000, 150000, 91)],
    CoreIdReach(200000, 130000, 117000))

  const SixMonths: Dataset := Dataset(
    [("Total Profiles", Count(220000)), ("Matched csCoreID", Count(160000)),
     ("Matched csHHId", Count(140000)), ("Duplicate Records", Text("28%"))],
    map["Address" := ChannelStats(195000, 190000, 98),
        "Email" := ChannelStats(185000, 180000, 97),
        "Phone" := ChannelStats(175000, 160000, 92)],
    CoreIdReach(220000, 140000, 125000))

  predicate IsDigit(c: char)
  {
    '0' <= c <= '9'
  }

  /** Display text of the form "NN%". */
  predicate IsPercentText(s: string)
  {
    |s| == 3 && IsDigit(s[0]) && IsDigit(s[1]) && s[2] == '%'
  }

  /** The `total_profiles` group has the four labels in order; the first
      three values are counts, the matched ones at most the total, and the
      last is percentage text. */
  predicate TilesWellFormed(tp: seq<(string, Metric)>)
  {
    && |tp| == 4
    && (forall i :: 0 <= i < 4 ==> tp[i].0 == TileLabels[i])
    && tp[0].1.Count? && tp[1].1.Count? && tp[2].1.Count? && tp[3].1.Text?
    && 0 <= tp[1].1.n <= tp[0].1.n
    && 0 <= tp[2].1.n <= tp[0].1.n
    && IsPercentText(tp[3].1.s)
  }

  /** Exactly the three channels are present; for each, the unique count is
      at most the total and the reach percentage lies in 0..100. */
  predicate ChannelsWellFormed(dist: map<string, ChannelStats>)
  {
    && (forall c :: c in Channels ==> c in dist)
    && (forall c :: c in dist ==> c in Channels)
    && forall c :: c in dist ==>
         0 <= dist[c].unique <= dist[c].total && 0 <= dist[c].reachPercent <= 100
  }

  /** 0 < actual reach <= matched CoreID <= total profiles, so neither gauge
      divides by zero. */
  predicate ReachOrdered(r: CoreIdReach)
  {
    0 < r.actualReach <= r.matchedCoreId <= r.totalProfiles
  }

  predicate WellFormed(d: Dataset)
  {
    && TilesWellFormed(d.totalProfiles)
    && ChannelsWellFormed(d.channelDistribution)
    && ReachOrdered(d.coreIdReach)
    // the tile and the gauge count the same population
    && d.totalProfiles[0].1.n == d.coreIdReach.totalProfiles
  }

  /** `get_data`: "1 Month" and "3 Months" select their own record; every
      other selection, including "6 Months", the empty text and a cleared
      dropdown, falls through to the six-month record. */
  function GetData(timeRange: Option<string>): (d: Dataset)
    ensures WellFormed(d)
    ensures d == SixMonths <==> timeRange != Some("1 Month") && timeRange != Some("3 Months")
    ensures timeRange == Some("1 Month") ==> d == OneMonth
    ensures timeRange == Some("3 Months") ==> d == ThreeMonths
  {
    RecordsDistinct();
    if timeRange == Some("1 Month") then
      OneMonthWellFormed();
      OneMonth
    else if timeRange == Some("3 Months") then
      ThreeMonthsWellFormed();
      ThreeMonths
    else
      SixMonthsWellFormed();
      SixMonths
  }

  lemma OneMonthWellFormed()
    ensures WellFormed(OneMonth)
  {
  }

  lemma ThreeMonthsWellFormed()
    ensures WellFormed(ThreeMonths)
  {
  }

  lemma SixMonthsWellFormed()
    ensures WellFormed(SixMonths)
  {
  }

  /** The three records differ, so which one is selected is observable. */
  lemma RecordsDistinct()
    ensures OneMonth != ThreeMonths && ThreeMonths != SixMonths && OneMonth != SixMonths
  {
    assert OneMonth.coreIdReach.totalProfiles == 180000;
    assert ThreeMonths.coreIdReach.totalProfiles == 200000;
  }

  /** The literal contents of the one-month record. */
  lemma OneMonthLiterals()
    ensures GetData(Some("1 Month")).coreIdReach == CoreIdReach(180000, 120000, 108000)
    ensures GetData(Some("1 Month")).channelDistribution["Address"] == ChannelStats(170000, 160000, 95)
    ensures GetData(Some("1 Month")).channelDistribution["Email"] == ChannelStats(160000, 150000, 93)
    ensures GetData(Some("1 Month")).channelDistribution["Phone"] == ChannelStats(150000, 135000, 89)
    ensures GetData(Some("1 Month")).totalProfiles[1] == ("Matched csCoreID", Count(140000))
  {
  }

  /** The empty text and a cleared dropdown get the six-month record. */
  lemma FallbackToSixMonths()
    ensures GetData(Some("")) == SixMonths && GetData(None) == SixMonths
    ensures GetData(Some("6 Months")) == SixMonths
    ensures GetData(Some("1 month")) == SixMonths
  {
  }
}
