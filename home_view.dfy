/**
 * The figures the home screen derives from the store: the growth the
 * one-year projection implies, the three largest wealth categories and
 * assets, the latest edit, the change between the last two net-worth
 * snapshots and the trend of the last twelve.
 */
module HomeScreen {
  import opened Wrappers
  import opened AssetCategories
  import opened FieldValues
  import opened Assets
  import opened SettingsModel
  import opened Sequences
  import opened Calculations

  /** A recorded net worth; `categoryTotals` is keyed by category raw value. */
  datatype NetWorthSnapshot = NetWorthSnapshot(
    id: string,
    date: Date,
    netWorth: real,
    assetCount: int,
    categoryTotals: map<string, real>)

  datatype NetWorthDelta = NetWorthDelta(amount: real, percent: real)

  function Min(a: int, b: int): int {
    if a <= b then a else b
  }

  /** `percentGrowth`: the projected change as a fraction of a positive net worth, and 0 otherwise. */
  function PercentGrowth(current: real, projection: real): (r: real)
    ensures current <= 0.0 ==> r == 0.0
    ensures current > 0.0 ==> current + r * current == projection
  {
    if current <= 0.0 then 0.0 else (projection - current) / current
  }

  /** With a positive net worth the growth is positive, zero or negative as the projection is above, at or below it. */
  lemma GrowthSign(current: real, projection: real)
    requires current > 0.0
    ensures PercentGrowth(current, projection) > 0.0 <==> projection > current
    ensures PercentGrowth(current, projection) == 0.0 <==> projection == current
  {
  }

  /** `percentGrowth` of the store: current net worth against the month-12 point of the projection. */
  method ProjectedGrowth(assets: seq<Asset>, settings: Settings) returns (growth: real)
    ensures growth == PercentGrowth(NetWorth(assets), ProjectedTotal(Counted(assets), settings, 12))
  {
    var current := NetWorth(assets);
    var projection := OneYearProjection(assets, settings);
    growth := PercentGrowth(current, projection);
  }

  /** When no counted asset grows, the home screen shows no growth. */
  lemma FlatProjectionNoGrowth(assets: seq<Asset>, settings: Settings)
    requires forall a :: a in Counted(assets) ==> GrowthRate(a.category, settings) == 0.0
    ensures PercentGrowth(NetWorth(assets), ProjectedTotal(Counted(assets), settings, 12)) == 0.0
  {
    ZeroRatesStayFlat(Counted(assets), settings, 12);
    var x := NetWorth(assets);
    if x > 0.0 {
      assert x - x == 0.0;
    }
  }

  /** Some wealth asset counted in net worth is of category `c`. */
  predicate HasWealth(assets: seq<Asset>, c: AssetCategory) {
    exists a :: a in assets && Matches(a, true, Some(false)) && a.category == c
  }

  /** The value of the wealth assets of category `c` counted in net worth. */
  function WealthTotal(assets: seq<Asset>, c: AssetCategory): real {
    SumBy(OfCategory(Matching(assets, true, Some(false)), c), AssetValue)
  }

  /** `topCategories`: the first three wealth summaries counted in net worth. */
  method TopCategories(assets: seq<Asset>) returns (top: seq<CategorySummary>)
    ensures |top| <= 3
    ensures SortedDesc(top, TotalOf)
    ensures forall i :: 0 <= i < |top| ==> top[i].total == WealthTotal(assets, top[i].category)
    ensures forall i, j :: 0 <= i < j < |top| ==> top[i].category != top[j].category
    ensures forall i :: 0 <= i < |top| ==>
              top[i].percentage == ShareOf(top[i].total, true, Some(false), NetWorth(Matching(assets, true, Some(false))))
    ensures forall c :: Lists(top, c) ==> HasWealth(assets, c)
    ensures forall c :: HasWealth(assets, c) && !Lists(top, c) ==>
              |top| == 3 && forall i :: 0 <= i < |top| ==> top[i].total >= WealthTotal(assets, c)
  {
    var all := CategorySummaries(assets, true, Some(false));
    top := all[..Min(3, |all|)];
    ghost var listed := c => HasWealth(assets, c);
    ghost var total := c => WealthTotal(assets, c);
    assert forall c :: Lists(all, c) <==> listed(c);
    assert forall i :: 0 <= i < |all| ==> all[i].total == total(all[i].category);
    PrefixOfSummaries(all, |top|, listed, total);
    PrefixEntries(all, |top|, NetWorth(Matching(assets, true, Some(false))));
  }

  /**
   * A prefix of summaries sorted by total, whose totals are `total` and
   * which list exactly the categories `listed` holds, lists only such
   * categories, with the same totals, and every such category it leaves
   * out comes after it with a total no larger than any it keeps.
   */
  lemma PrefixOfSummaries(all: seq<CategorySummary>, k: nat, listed: AssetCategory -> bool, total: AssetCategory -> real)
    requires k <= |all| && SortedDesc(all, TotalOf)
    requires forall i :: 0 <= i < |all| ==> all[i].total == total(all[i].category)
    requires forall c :: Lists(all, c) <==> listed(c)
    ensures SortedDesc(all[..k], TotalOf)
    ensures forall i :: 0 <= i < k ==> all[..k][i].total == total(all[..k][i].category)
    ensures forall c :: Lists(all[..k], c) ==> listed(c)
    ensures forall c :: listed(c) && !Lists(all[..k], c) ==>
              k < |all| && forall i :: 0 <= i < k ==> all[..k][i].total >= total(c)
  {
    forall c | listed(c) && !Lists(all[..k], c)
      ensures k < |all| && forall i :: 0 <= i < k ==> all[..k][i].total >= total(c)
    {
      var j :| 0 <= j < |all| && all[j].category == c;
    }
    forall c | Lists(all[..k], c)
      ensures listed(c)
    {
      var i :| 0 <= i < k && all[..k][i].category == c;
      assert all[i].category == c;
    }
  }

  /** A prefix of summaries that name each category once, with the wealth share of a net worth `n`, does the same. */
  lemma PrefixEntries(all: seq<CategorySummary>, k: nat, n: real)
    requires k <= |all|
    requires forall i, j :: 0 <= i < j < |all| ==> all[i].category != all[j].category
    requires forall i :: 0 <= i < |all| ==> all[i].percentage == ShareOf(all[i].total, true, Some(false), n)
    ensures forall i, j :: 0 <= i < j < k ==> all[..k][i].category != all[..k][j].category
    ensures forall i :: 0 <= i < k ==> all[..k][i].percentage == ShareOf(all[..k][i].total, true, Some(false), n)
  {
  }

  /** `topAssets`: the assets by value, largest first, and the first three of them. */
  function TopAssets(assets: seq<Asset>): seq<Asset> {
    SortDesc(assets, AssetValue)[..Min(3, |assets|)]
  }

  /** The top assets are at most three of the store's assets, largest first, and no asset left out is worth more than one kept. */
  lemma TopAssetsMeaning(assets: seq<Asset>)
    ensures |TopAssets(assets)| == Min(3, |assets|)
    ensures SortedDesc(TopAssets(assets), AssetValue)
    ensures multiset(TopAssets(assets)) <= multiset(assets)
    ensures forall a :: a in multiset(assets) - multiset(TopAssets(assets)) ==>
              forall i :: 0 <= i < |TopAssets(assets)| ==> AssetValue(TopAssets(assets)[i]) >= AssetValue(a)
  {
    SortedPrefix(SortDesc(assets, AssetValue), AssetValue, Min(3, |assets|));
  }

  /** A prefix of a sorted list is sorted, is part of the list, and no element it leaves out has a larger key than one it keeps. */
  lemma SortedPrefix<T>(s: seq<T>, key: T -> real, k: nat)
    requires SortedDesc(s, key) && k <= |s|
    ensures SortedDesc(s[..k], key)
    ensures multiset(s[..k]) <= multiset(s)
    ensures forall x :: x in multiset(s) - multiset(s[..k]) ==> forall i :: 0 <= i < k ==> key(s[..k][i]) >= key(x)
  {
    var top, rest := s[..k], s[k..];
    assert s == top + rest;
    assert multiset(s) == multiset(top) + multiset(rest);
    forall x | x in multiset(s) - multiset(top)
      ensures forall i :: 0 <= i < k ==> key(top[i]) >= key(x)
    {
      assert x in multiset(rest);
      var j :| 0 <= j < |rest| && rest[j] == x;
      assert s[k + j] == x;
    }
  }

  /** `lastUpdated`: the latest `updatedAt` of the store's assets. */
  function LastUpdated(assets: seq<Asset>): (r: Option<Date>)
    ensures r.None? <==> assets == []
    ensures r.Some? ==> forall i :: 0 <= i < |assets| ==> assets[i].updatedAt <= r.value
    ensures r.Some? ==> exists i :: 0 <= i < |assets| && assets[i].updatedAt == r.value
  {
    if assets == [] then None
    else
      var t := assets[|assets| - 1].updatedAt;
      match LastUpdated(assets[..|assets| - 1])
      case None => Some(t)
      case Some(m) => Some(if m < t then t else m)
  }

  /** `deltaSinceLast`: how the last snapshot's net worth differs from the one before it. */
  function DeltaSinceLast(snapshots: seq<NetWorthSnapshot>): (r: Option<NetWorthDelta>)
    ensures r.None? <==> |snapshots| < 2
  {
    if |snapshots| < 2 then None
    else
      var last := snapshots[|snapshots| - 1].netWorth;
      var previous := snapshots[|snapshots| - 2].netWorth;
      var amount := last - previous;
      Some(NetWorthDelta(amount, if previous > 0.0 then amount / previous else 0.0))
  }

  /** The delta is the change from the previous snapshot to the last, and its percentage is that change relative to a positive previous net worth. */
  lemma DeltaMeaning(snapshots: seq<NetWorthSnapshot>)
    requires |snapshots| >= 2
    ensures DeltaSinceLast(snapshots).Some?
    ensures snapshots[|snapshots| - 2].netWorth + DeltaSinceLast(snapshots).value.amount == snapshots[|snapshots| - 1].netWorth
    ensures DeltaSinceLast(snapshots).value.percent
            == PercentGrowth(snapshots[|snapshots| - 2].netWorth, snapshots[|snapshots| - 1].netWorth)
  {
  }

  /** Only the last two snapshots matter to the delta. */
  lemma DeltaOfLastTwo(earlier: seq<NetWorthSnapshot>, previous: NetWorthSnapshot, last: NetWorthSnapshot)
    ensures DeltaSinceLast(earlier + [previous, last]) == DeltaSinceLast([previous, last])
  {
    var s := earlier + [previous, last];
    assert s[|s| - 1] == last && s[|s| - 2] == previous;
  }

  /** `trendPoints`: the last twelve snapshots, or all of them when there are fewer. */
  function TrendPoints(snapshots: seq<NetWorthSnapshot>): (r: seq<NetWorthSnapshot>)
    ensures |r| == Min(12, |snapshots|)
    ensures snapshots == snapshots[..|snapshots| - |r|] + r
  {
    snapshots[|snapshots| - Min(12, |snapshots|)..]
  }

  /** Recording one snapshot more appends it to the trend and, once twelve are shown, drops the oldest. */
  lemma TrendAppend(snapshots: seq<NetWorthSnapshot>, x: NetWorthSnapshot)
    ensures TrendPoints(snapshots + [x])
            == (if |TrendPoints(snapshots)| == 12 then TrendPoints(snapshots)[1..] else TrendPoints(snapshots)) + [x]
  {
    var s := snapshots + [x];
    var t := TrendPoints(snapshots);
    var expected := (if |t| == 12 then t[1..] else t) + [x];
    assert |TrendPoints(s)| == |expected|;
    forall i | 0 <= i < |expected|
      ensures TrendPoints(s)[i] == expected[i]
    {
      if i < |expected| - 1 {
        assert expected[i] == snapshots[|snapshots| - |expected| + 1 + i];
      }
    }
  }
}
