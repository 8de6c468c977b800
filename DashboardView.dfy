/** The data that `update_dashboard` derives from the selected record, with
    the rendering (HTML tiles, bar charts, gauges) stripped away. */
module DashboardView {
  import opened Wrappers
  import opened Rounding
  import opened DashboardData

  /** One summary tile: the metric's label and its value. */
  datatype Tile = Tile(metric: string, value: Metric)

  /** Everything the callback hands to its five outputs, as plain data. */
  datatype DerivedView = DerivedView(
    tiles: seq<Tile>,
    channels: seq<string>,
    totals: seq<int>,
    uniqueIdentifiers: seq<int>,
    reachPercentages: seq<int>,
    chartChannel: seq<string>,
    chartCount: seq<int>,
    chartType: seq<string>,
    coreIdMatchRate: int,
    reachRate: int)

  /** One tile per item of the `total_profiles` group, in iteration order. */
  function Tiles(items: seq<(string, Metric)>): (ts: seq<Tile>)
    ensures |ts| == |items|
    ensures forall i :: 0 <= i < |ts| ==> ts[i] == Tile(items[i].0, items[i].1)
  {
    if items == [] then [] else [Tile(items[0].0, items[0].1)] + Tiles(items[1..])
  }

  /** The list comprehension `[dist[c][k] for c in cs]`. */
  function Column(cs: seq<string>, dist: map<string, ChannelStats>, k: nat): (col: seq<int>)
    requires k < 3
    requires forall c :: c in cs ==> c in dist
    ensures |col| == |cs|
    ensures forall i :: 0 <= i < |cs| ==> col[i] == dist[cs[i]].At(k)
  {
    if cs == [] then [] else [dist[cs[0]].At(k)] + Column(cs[1..], dist, k)
  }

  /** Python's list repetition `s * n`: `n` copies of `s` end to end. */
  function Repeat<T>(s: seq<T>, n: nat): (r: seq<T>)
    ensures |r| == n * |s|
    ensures forall i :: 0 <= i < |r| ==> r[i] == s[i % |s|]
  {
    if n == 0 then [] else
      var rest := Repeat(s, n - 1);
      var r := s + rest;
      assert |r| == n * |s| by {
        MulSub(n, 1, |s|);
      }
      assert forall i :: 0 <= i < |r| ==> r[i] == s[i % |s|] by {
        forall i | 0 <= i < |r|
          ensures r[i] == s[i % |s|]
        {
          if i < |s| {
            DivModUnique(i, |s|, 0, i);
          } else {
            assert r[i] == rest[i - |s|];
            ModShift(i, |s|);
          }
        }
      }
      r
  }

  /** Removing one period does not change the remainder. */
  lemma ModShift(i: int, m: int)
    requires 0 < m <= i
    ensures (i - m) % m == i % m
  {
    var q, r := i / m, i % m;
    MulSub(q, 1, m);
    DivModUnique(i - m, m, q - 1, r);
  }

  /** A quotient and a remainder in 0..m-1 are the ones `/` and `%` give. */
  lemma DivModUnique(x: int, m: int, q: int, r: int)
    requires 0 <= r < m
    requires x == q * m + r
    ensures x % m == r
  {
    var q0, r0 := x / m, x % m;
    assert x == q0 * m + r0;
    MulSub(q, q0, m);
    MulLess(q, q0, m);
    MulLess(q0, q, m);
    MulLess(q0 - q, 1, m);
    MulLess(q - q0, 1, m);
  }

  /** What `update_dashboard` needs of a record to finish without an
      exception: every listed channel is a key (no KeyError) and both gauge
      denominators are non-zero (no ZeroDivisionError). */
  predicate Derivable(d: Dataset)
  {
    && (forall c :: c in Channels ==> c in d.channelDistribution)
    && d.coreIdReach.totalProfiles > 0
    && d.coreIdReach.matchedCoreId > 0
  }

  /** The data part of `update_dashboard` applied to one record. */
  function Derive(d: Dataset): (v: DerivedView)
    requires Derivable(d)
    // tiles follow the group's items one for one, in order
    ensures |v.tiles| == |d.totalProfiles|
    ensures forall i :: 0 <= i < |v.tiles| ==>
              v.tiles[i].metric == d.totalProfiles[i].0 && v.tiles[i].value == d.totalProfiles[i].1
    // the channel series are parallel: component 0, 1, 2 of channel i
    ensures v.channels == ["Address", "Email", "Phone"]
    ensures |v.totals| == |v.uniqueIdentifiers| == |v.reachPercentages| == 3
    ensures forall i :: 0 <= i < 3 ==>
              && v.totals[i] == d.channelDistribution[Channels[i]].total
              && v.uniqueIdentifiers[i] == d.channelDistribution[Channels[i]].unique
              && v.reachPercentages[i] == d.channelDistribution[Channels[i]].reachPercent
    // the grouped bar chart: totals first, then uniques, each over the three channels
    ensures |v.chartChannel| == |v.chartCount| == |v.chartType| == 6
    ensures v.chartChannel == v.channels + v.channels
    ensures v.chartCount == v.totals + v.uniqueIdentifiers
    ensures forall i :: 0 <= i < 6 ==>
              v.chartType[i] == (if i < 3 then "Total Identifiers" else "Unique Identifiers")
    // the gauges are correctly rounded percentages
    ensures IsRoundedPercent(d.coreIdReach.matchedCoreId, d.coreIdReach.totalProfiles, v.coreIdMatchRate)
    ensures IsRoundedPercent(d.coreIdReach.actualReach, d.coreIdReach.matchedCoreId, v.reachRate)
  {
    var dist := d.channelDistribution;
    var totals := Column(Channels, dist, 0);
    var uniques := Column(Channels, dist, 1);
    var n := |Channels|;
    var chartChannel := Repeat(Channels, 2);
    assert chartChannel == Channels + Channels by {
      assert Repeat(Channels, 1) == Channels;
    }
    DerivedView(
      Tiles(d.totalProfiles),
      Channels,
      totals,
      uniques,
      Column(Channels, dist, 2),
      chartChannel,
      totals + uniques,
      Repeat(["Total Identifiers"], n) + Repeat(["Unique Identifiers"], n),
      RoundPercent(d.coreIdReach.matchedCoreId, d.coreIdReach.totalProfiles),
      RoundPercent(d.coreIdReach.actualReach, d.coreIdReach.matchedCoreId))
  }

  /** Each row of the grouped bar chart is consistent: its count is its own
      channel's total when its type is "Total Identifiers", and that
      channel's unique count otherwise. */
  lemma ChartRowsConsistent(d: Dataset, i: int)
    requires Derivable(d) && 0 <= i < 6
    ensures Derive(d).chartChannel[i] in d.channelDistribution
    ensures Derive(d).chartCount[i] ==
      if Derive(d).chartType[i] == "Total Identifiers"
      then d.channelDistribution[Derive(d).chartChannel[i]].total
      else d.channelDistribution[Derive(d).chartChannel[i]].unique
  {
    var v := Derive(d);
    var c := if i < 3 then i else i - 3;
    assert v.chartChannel[i] == Channels[c];
    if i >= 3 {
      assert v.chartType[i] != "Total Identifiers";
    }
  }

  /** `update_dashboard(time_range)`: select the record, then derive from it.
      Whatever the selection, the view has the four tiles in their fixed
      order, six bar-chart rows and both gauges within 0..100. */
  function UpdateDashboard(timeRange: Option<string>): (v: DerivedView)
    ensures |v.tiles| == 4
    ensures forall i :: 0 <= i < 4 ==> v.tiles[i].metric == TileLabels[i]
    ensures v.tiles[0].value.Count? && v.tiles[1].value.Count? && v.tiles[2].value.Count?
    ensures v.tiles[3].value.Text?
    ensures |v.chartChannel| == |v.chartCount| == |v.chartType| == 6
    ensures |v.totals| == |v.uniqueIdentifiers| == |v.reachPercentages| == 3
    ensures forall i :: 0 <= i < 3 ==> 0 <= v.uniqueIdentifiers[i] <= v.totals[i]
    ensures forall i :: 0 <= i < 3 ==> 0 <= v.reachPercentages[i] <= 100
    ensures 0 <= v.coreIdMatchRate <= 100 && 0 <= v.reachRate <= 100
  {
    var d := GetData(timeRange);
    DeriveWellFormed(d);
    Derive(d)
  }

  /** A well-formed record can be derived from, and its view keeps the
      record's invariants: tiles in the fixed order, unique counts at most
      the totals, and every percentage in 0..100. */
  lemma DeriveWellFormed(d: Dataset)
    requires WellFormed(d)
    ensures Derivable(d)
    ensures |Derive(d).tiles| == 4
    ensures forall i :: 0 <= i < 4 ==> Derive(d).tiles[i].metric == TileLabels[i]
    ensures Derive(d).tiles[0].value.Count? && Derive(d).tiles[1].value.Count?
    ensures Derive(d).tiles[2].value.Count? && Derive(d).tiles[3].value.Text?
    ensures forall i :: 0 <= i < 3 ==> 0 <= Derive(d).uniqueIdentifiers[i] <= Derive(d).totals[i]
    ensures forall i :: 0 <= i < 3 ==> 0 <= Derive(d).reachPercentages[i] <= 100
    ensures 0 <= Derive(d).coreIdMatchRate <= 100 && 0 <= Derive(d).reachRate <= 100
  {
    var r := d.coreIdReach;
    assert Derivable(d);
    var v := Derive(d);
    RoundPercentBounds(r.matchedCoreId, r.totalProfiles);
    RoundPercentBounds(r.actualReach, r.matchedCoreId);
    forall i | 0 <= i < 3
      ensures 0 <= v.uniqueIdentifiers[i] <= v.totals[i] && 0 <= v.reachPercentages[i] <= 100
    {
      assert Channels[i] in d.channelDistribution;
    }
  }

  /** The gauge values for the shipped records: 67/90, 65/90 and 64/89. */
  lemma ShippedGauges()
    ensures UpdateDashboard(Some("1 Month")).coreIdMatchRate == 67
    ensures UpdateDashboard(Some("1 Month")).reachRate == 90
    ensures UpdateDashboard(Some("3 Months")).coreIdMatchRate == 65
    ensures UpdateDashboard(Some("3 Months")).reachRate == 90
    ensures UpdateDashboard(Some("6 Months")).coreIdMatchRate == 64
    ensures UpdateDashboard(Some("6 Months")).reachRate == 89
  {
    OneMonthGauges();
    ThreeMonthsGauges();
    SixMonthsGauges();
  }

  /** 120000 of 180000 is 66.7 %, shown as 67; 108000 of 120000 is exactly 90 %. */
  lemma OneMonthGauges()
    ensures UpdateDashboard(Some("1 Month")).coreIdMatchRate == 67
    ensures UpdateDashboard(Some("1 Month")).reachRate == 90
  {
    assert GetData(Some("1 Month")) == OneMonth;
    RoundPercentUnique(120000, 180000, 67);
    RoundPercentExact(108000, 120000, 90);
  }

  /** 130000 of 200000 is exactly 65 %; 117000 of 130000 is exactly 90 %. */
  lemma ThreeMonthsGauges()
    ensures UpdateDashboard(Some("3 Months")).coreIdMatchRate == 65
    ensures UpdateDashboard(Some("3 Months")).reachRate == 90
  {
    assert GetData(Some("3 Months")) == ThreeMonths;
    RoundPercentExact(130000, 200000, 65);
    RoundPercentExact(117000, 130000, 90);
  }

  /** 140000 of 220000 is 63.6 %, shown as 64; 125000 of 140000 is 89.3 %, shown as 89. */
  lemma SixMonthsGauges()
    ensures UpdateDashboard(Some("6 Months")).coreIdMatchRate == 64
    ensures UpdateDashboard(Some("6 Months")).reachRate == 89
  {
    assert GetData(Some("6 Months")) == SixMonths;
    RoundPercentUnique(140000, 220000, 64);
    RoundPercentUnique(125000, 140000, 89);
  }

  /** Selecting "1 Month" derives the view from the one-month record. */
  lemma OneMonthSelected()
    ensures UpdateDashboard(Some("1 Month")) == Derive(OneMonth)
  {
    assert GetData(Some("1 Month")) == OneMonth;
  }

  /** The one-month tiles, in order; the gauge reads a matched count
      (120000) other than the "Matched csCoreID" tile's (140000). */
  lemma OneMonthTiles()
    ensures Derive(OneMonth).tiles ==
      [Tile("Total Profiles", Count(180000)), Tile("Matched csCoreID", Count(140000)),
       Tile("Matched csHHId", Count(120000)), Tile("Duplicate Records", Text("22%"))]
    ensures OneMonth.coreIdReach.matchedCoreId == 120000
  {
  }

  /** The one-month channel series for Address, Email and Phone. */
  lemma OneMonthSeries()
    ensures Derive(OneMonth).totals == [170000, 160000, 150000]
    ensures Derive(OneMonth).uniqueIdentifiers == [160000, 150000, 135000]
    ensures Derive(OneMonth).reachPercentages == [95, 93, 89]
  {
  }
}
