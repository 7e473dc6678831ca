/** The leaderboard page: how the stats query and the list query combine into one page
    state, and what each ranked row shows. */
module InfluencerLeaderboard {
  import opened Wrappers
  import opened Text
  import opened ApiTypes
  import InfluencerDetailView

  /** What a query hook reports for one resource at one render. */
  datatype QueryState<T> = QueryState(isLoading: bool, error: Option<ErrorValue>, data: Option<T>)

  /** The three stat cards; a missing stats record leaves the two counts blank. */
  datatype StatsBlock = StatsBlock(totalInfluencers: Option<nat>, totalClaims: Option<nat>, averagePercent: real)

  datatype Row = Row(
    rank: nat,
    rankLabel: string,
    href: string,
    name: string,
    description: string,
    tags: seq<string>,
    percent: real,
    colour: Palette,
    trend: Trend,
    followers: string,
    verifiedClaims: nat)

  datatype Page = Loading | ErrorState | Board(stats: StatsBlock, rows: seq<Row>)

  /** The trust-score colour: green from 90, emerald from 80, yellow below. */
  function TrustColour(percent: real): (p: Palette)
    ensures p == Green <==> percent >= 90.0
    ensures p == Emerald <==> 80.0 <= percent < 90.0
    ensures p == Yellow <==> percent < 80.0
  {
    if percent >= 90.0 then Green else if percent >= 80.0 then Emerald else Yellow
  }

  function BandLevel(p: Palette): nat {
    match p
    case Yellow => 0
    case Emerald => 1
    case Green => 2
    case Red => 0
  }

  /** A higher score never gets a lower band. */
  lemma TrustColourMonotone(p: real, q: real)
    requires p <= q
    ensures BandLevel(TrustColour(p)) <= BandLevel(TrustColour(q))
  {
  }

  /** The follower cell: "M" from one million, "K" from one thousand, else the integer. */
  function FollowerCell(n: nat): (r: string)
    ensures n >= 1000000 <==> |r| >= 1 && r[|r| - 1] == 'M'
    ensures 1000 <= n < 1000000 <==> |r| >= 1 && r[|r| - 1] == 'K'
    ensures n < 1000 <==> AllDigits(r)
    ensures n < 1000 ==> IsDecimalOf(r, n)
    ensures n >= 1000 ==> InfluencerDetailView.DenotesTenths(r[..|r| - 1], n, if n >= 1000000 then 1000000 else 1000)
  {
    if n >= 1000 then
      var unit := if n >= 1000000 then 1000000 else 1000;
      var digits := TenthsToString(Tenths(n, unit));
      InfluencerDetailView.TenthsToStringDenotes(n, unit);
      var r := digits + (if n >= 1000000 then "M" else "K");
      assert r[..|r| - 1] == digits;
      assert !IsDigit(r[|r| - 1]);
      r
    else
      NatToStringIsDecimalOf(n);
      NatToString(n)
  }

  /** The follower cell is the detail page's count format without the trailing "+". */
  lemma FollowerCellIsFormatNumberWithoutPlus(n: nat)
    ensures InfluencerDetailView.FormatNumber(n) == if n >= 1000 then FollowerCell(n) + "+" else FollowerCell(n)
  {
  }

  /** The rendered row for the item at position `index` of the list: rank label "#" and
      the position plus one, a link to the item's detail page, at most three tags, the
      score as a percentage with its band colour, and the follower cell. */
  function RowOf(index: nat, item: InfluencerListItem): (row: Row)
    ensures row.rank == index + 1
    ensures |row.rankLabel| >= 2 && row.rankLabel[0] == '#' && IsDecimalOf(row.rankLabel[1..], index + 1)
    ensures |row.href| > 13 && row.href[..13] == "/influencers/"
    ensures (row.href[13] == '-') <==> item.id < 0
    ensures item.id >= 0 ==> IsDecimalOf(row.href[13..], item.id)
    ensures item.id < 0 ==> IsDecimalOf(row.href[14..], -item.id)
    ensures row.name == item.mainName && row.description == item.description
    ensures row.tags == ShownTags(item.contentTags)
    ensures row.percent == item.trustScore * 100.0 && row.colour == TrustColour(row.percent)
    ensures row.trend == item.trend
    ensures row.followers == FollowerCell(item.totalFollowers)
    ensures row.verifiedClaims == item.verifiedClaims
  {
    var rankText := "#" + NatToString(index + 1);
    assert rankText[1..] == NatToString(index + 1);
    NatToStringIsDecimalOf(index + 1);
    var id := IntToString(item.id);
    var href := "/influencers/" + id;
    assert href[13..] == id;
    Row(
      index + 1,
      rankText,
      href,
      item.mainName,
      item.description,
      ShownTags(item.contentTags),
      item.trustScore * 100.0,
      TrustColour(item.trustScore * 100.0),
      item.trend,
      FollowerCell(item.totalFollowers),
      item.verifiedClaims)
  }

  /** One row per item, in server order; the rank is the position plus one. */
  function Rows(items: seq<InfluencerListItem>): (rows: seq<Row>)
    ensures |rows| == |items|
    ensures forall i :: 0 <= i < |rows| ==> rows[i].rank == i + 1 && rows[i] == RowOf(i, items[i])
  {
    seq(|items|, i requires 0 <= i < |items| => RowOf(i, items[i]))
  }

  /** Ranks run 1..n without gaps, strictly increasing, and each label reads "#rank". */
  lemma RanksAreConsecutive(items: seq<InfluencerListItem>)
    ensures var rows := Rows(items);
      (forall i, j :: 0 <= i < j < |rows| ==> rows[i].rank < rows[j].rank) &&
      (forall i :: 0 <= i < |rows| ==>
        |rows[i].rankLabel| >= 2 && rows[i].rankLabel[0] == '#' &&
        IsDecimalOf(rows[i].rankLabel[1..], i + 1) &&
        rows[i].rankLabel == "#" + NatToString(i + 1))
  {
    var rows := Rows(items);
    forall i | 0 <= i < |rows|
      ensures rows[i].rankLabel == "#" + NatToString(i + 1)
    {
      DecimalOfIsNatToString(rows[i].rankLabel[1..], i + 1);
      assert rows[i].rankLabel == [rows[i].rankLabel[0]] + rows[i].rankLabel[1..];
    }
  }

  /** The average-score card: the average times 100, or 0 when there is no stats record
      or the average is 0. */
  function AveragePercent(stats: Option<LeaderboardStats>): (r: real)
    ensures stats.None? ==> r == 0.0
    ensures stats.Some? ==> r == stats.value.averageTrustScore * 100.0
    ensures stats.Some? && 0.0 <= stats.value.averageTrustScore <= 1.0 ==> 0.0 <= r <= 100.0
  {
    if stats.Some? && stats.value.averageTrustScore != 0.0 then stats.value.averageTrustScore * 100.0 else 0.0
  }

  /** The three stat cards: the two counts when the stats record has arrived (blank
      otherwise) and the average-score percentage. */
  function StatsBlockOf(stats: Option<LeaderboardStats>): (b: StatsBlock)
    ensures b.totalInfluencers.Some? <==> stats.Some?
    ensures b.totalClaims.Some? <==> stats.Some?
    ensures stats.Some? ==> b.totalInfluencers.value == stats.value.totalInfluencers
    ensures stats.Some? ==> b.totalClaims.value == stats.value.totalClaims
    ensures b.averagePercent == AveragePercent(stats)
  {
    StatsBlock(
      if stats.Some? then Some(stats.value.totalInfluencers) else None,
      if stats.Some? then Some(stats.value.totalClaims) else None,
      AveragePercent(stats))
  }

  /** The page state: loading while either query loads; then a list error is fatal; the
      stats error is never consulted, so a failed stats query still shows the board. */
  function ComposePage(stats: QueryState<LeaderboardStats>, list: QueryState<seq<InfluencerListItem>>): (p: Page)
    ensures p.Loading? <==> stats.isLoading || list.isLoading
    ensures p.ErrorState? <==> !stats.isLoading && !list.isLoading && list.error.Some?
    ensures p.Board? <==> !stats.isLoading && !list.isLoading && list.error.None?
    ensures p.Board? ==> p.stats == StatsBlockOf(stats.data) && p.rows == Rows(list.data.GetOr([]))
  {
    if stats.isLoading || list.isLoading then Loading
    else if list.error.Some? then ErrorState
    else Board(StatsBlockOf(stats.data), Rows(list.data.GetOr([])))
  }

  /** Whatever error the stats query reports, the page is the same. */
  lemma StatsErrorIsIgnored(stats: QueryState<LeaderboardStats>, list: QueryState<seq<InfluencerListItem>>, e: Option<ErrorValue>)
    ensures ComposePage(stats.(error := e), list) == ComposePage(stats, list)
  {
  }

  /** A failed stats query next to a loaded list: the board shows one ranked row per item,
      #1 to #n, and blank stat counts with a zero average. */
  lemma StatsFailureStillRanksTheList(e: ErrorValue, items: seq<InfluencerListItem>)
    ensures var p := ComposePage(QueryState(false, Some(e), None), QueryState(false, None, Some(items)));
      p.Board? && |p.rows| == |items| &&
      (forall i :: 0 <= i < |items| ==> p.rows[i].rank == i + 1 && p.rows[i].name == items[i].mainName) &&
      p.stats == StatsBlock(None, None, 0.0)
  {
  }
}
