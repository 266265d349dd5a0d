/**
 * The ranking table: the search box, the sort on a copy of the list, the
 * header-click sort state, the row-click selection, the value formats and the
 * column layout per position.
 */
module PlayerSortedTable {
  import opened Players
  import opened Collections
  import opened Sorting
  import opened PlayerDashboard

  // ----- Search -----

  /** Case-insensitive match of the query against the name or the team; the empty query matches everyone. */
  predicate Matches(p: Player, query: string): (matched: bool)
    ensures query == "" ==> matched
    ensures matched ==> |query| <= |p.name| || |query| <= |p.team|
  {
    query == "" || Contains(Lower(p.name), Lower(query)) || Contains(Lower(p.team), Lower(query))
  }

  /** `filteredPlayers`: the players the search box lets through, in list order. */
  function SearchFilter(players: seq<Player>, query: string): (shown: seq<Player>)
    ensures query == "" ==> shown == players
    ensures forall i :: 0 <= i < |shown| ==> shown[i] in players && Matches(shown[i], query)
    ensures forall i :: 0 <= i < |players| && Matches(players[i], query) ==> players[i] in shown
    ensures forall p :: multiset(shown)[p] == if Matches(p, query) then multiset(players)[p] else 0
    ensures IsSubsequence(shown, players)
  {
    FilterCounts(players, (p: Player) => Matches(p, query));
    if query == "" then
      FilterKeepsAll(players, (p: Player) => Matches(p, query));
      Filter(players, (p: Player) => Matches(p, query))
    else
      Filter(players, (p: Player) => Matches(p, query))
  }

  /** Queries that differ only in the case of ASCII letters let the same players through. */
  lemma SearchIgnoresCase(players: seq<Player>, query: string, query': string)
    requires Lower(query) == Lower(query')
    ensures SearchFilter(players, query) == SearchFilter(players, query')
  {
    assert |query| == |Lower(query)| == |Lower(query')| == |query'|;
    FilterSame(players, (p: Player) => Matches(p, query), (p: Player) => Matches(p, query'));
  }

  // ----- Sorting -----

  /** The comparator's view of a player; a missing metric compares as NaN, which is not modelled. */
  function SortKey(metric: string): Player -> real
  {
    (p: Player) => if metric in p.metrics then p.metrics[metric] else 0.0
  }

  /** Every listed player has the metric. */
  predicate HasMetric(players: seq<Player>, metric: string)
  {
    forall i :: 0 <= i < |players| ==> metric in players[i].metrics
  }

  /** The players are ordered by the metric in the given direction. */
  predicate SortedByMetric(players: seq<Player>, metric: string, dir: Direction)
  {
    forall i, j :: 0 <= i < j < |players| ==>
      metric in players[i].metrics && metric in players[j].metrics &&
      InOrder(dir, players[i].metrics[metric], players[j].metrics[metric])
  }

  /**
   * `sortedPlayers`: sorts a copy of the list (the list passed in is a value and
   * stays as it is) by the metric, lowest first for Asc and highest first for Desc.
   */
  method SortPlayers(players: seq<Player>, metric: string, dir: Direction) returns (sorted: seq<Player>)
    ensures multiset(sorted) == multiset(players)
    ensures HasMetric(players, metric) ==> SortedByMetric(sorted, metric, dir)
  {
    var a := new Player[|players|](i requires 0 <= i < |players| => players[i]);
    assert a[..] == players;
    SortBy(a, SortKey(metric), dir);
    sorted := a[..];
    if HasMetric(players, metric) {
      forall i | 0 <= i < |sorted| ensures metric in sorted[i].metrics {
        assert sorted[i] in multiset(players);
      }
    }
  }

  /** The state behind the header arrows: the sort metric and the direction. */
  datatype SortState = SortState(metric: string, direction: Direction)

  function Flip(dir: Direction): (flipped: Direction)
    ensures flipped != dir
  {
    if dir == Asc then Desc else Asc
  }

  /**
   * `toggleSort`: a click on the current metric's header flips the direction;
   * a click on another header sorts by that metric, highest first.
   */
  function NextSort(state: SortState, metric: string): (next: SortState)
    ensures next.metric == metric
    ensures next.direction == if metric == state.metric then Flip(state.direction) else Desc
  {
    if state.metric == metric then state.(direction := Flip(state.direction))
    else SortState(metric, Desc)
  }

  /**
   * Two clicks on the same header restore the previous order exactly when it
   * was already sorted by that metric; from another metric they end lowest first.
   */
  lemma ToggleSortTwice(state: SortState, metric: string)
    ensures NextSort(NextSort(state, metric), metric) == state <==> state.metric == metric
    ensures state.metric != metric ==> NextSort(NextSort(state, metric), metric) == SortState(metric, Asc)
  {
  }

  // ----- Formatting -----

  /** The display categories of a metric value (the digits themselves are not modelled). */
  datatype Formatted = NotAvailable | Percent(value: real) | Whole(n: int) | TwoDecimals(value: real)

  const PercentMetrics: set<string> := {
    "catchRate", "targetShare", "shortCompletionPct", "intermediateCompletionPct", "longCompletionPct", "rushTdPct" }

  /** Metrics shown as whole numbers: red-zone targets and any key naming touchdowns or receptions. */
  predicate IsCountMetric(metric: string)
  {
    metric == "redZoneTargets" || Contains(metric, "Touchdowns") || Contains(metric, "Receptions")
  }

  /** `formatMetricValue`: the category a value is shown in, checked in this order. */
  function FormatMetricValue(value: Option<real>, metric: string): (f: Formatted)
    ensures f == NotAvailable <==> value == None
    ensures value.Some? && metric in PercentMetrics ==> f == Percent(value.value)
    ensures value.Some? && metric !in PercentMetrics && IsCountMetric(metric) ==>
              f.Whole? && value.value - 0.5 < f.n as real <= value.value + 0.5
    ensures value.Some? && metric !in PercentMetrics && !IsCountMetric(metric) ==> f == TwoDecimals(value.value)
  {
    match value
    case None => NotAvailable
    case Some(v) =>
      if metric in PercentMetrics then Percent(v)
      else if IsCountMetric(metric) then Whole(Round(v))
      else TwoDecimals(v)
  }

  /** The count test is case-sensitive: the running backs' "receptions" axis is shown with two decimals. */
  lemma LowercaseReceptionsNotCounted(v: real)
    ensures FormatMetricValue(Some(v), "receptions") == TwoDecimals(v)
  {
    var key := "receptions";
    assert !Contains(key, "Receptions") by {
      NoLongerMatch(key, "Receptions");
    }
    assert !Contains(key, "Touchdowns") by {
      NoLongerMatch(key, "Touchdowns");
    }
  }

  /** A string of the same length as the pattern contains it only by being it. */
  lemma NoLongerMatch(s: string, sub: string)
    requires |s| == |sub| && s != sub
    ensures !Contains(s, sub)
  {
    if |s| > 0 {
      assert !IsPrefix(sub, s[1..]);
    }
  }

  // ----- Columns -----

  /** A metric column: the key it shows and the header text. */
  datatype Column = Column(key: string, title: string)

  /** `getColumnHeaders`: the quarterback columns, or the receiver columns for every other position. */
  function ColumnHeaders(position: string): (columns: seq<Column>)
    ensures |columns| == if position == QB then 6 else 3
  {
    if position == QB then
      [ Column("avgDepthOfTarget", "Avg. DepthTarget"),
        Column("shortCompletionPct", "Short %"),
        Column("intermediateCompletionPct", "Mid %"),
        Column("longCompletionPct", "Long %"),
        Column("rushYardsPerAttempt", "Rush YPA"),
        Column("rushTdPct", "Rush TD") ]
    else
      [ Column("catchRate", "Catch %"),
        Column("yardsPerRoute", "YPR"),
        Column("targetShare", "Target %") ]
  }

  /** `getSortOptions`: seven entries led by the overall rating, the receiver list for every position but QB. */
  function SortOptions(position: string): (options: seq<MetricOption>)
    ensures |options| == 7
    ensures options[0] == MetricOption("overallRating", "Overall Rating")
  {
    if position == QB then
      [ MetricOption("overallRating", "Overall Rating"),
        MetricOption("avgDepthOfTarget", "Avg. Depth of Target"),
        MetricOption("shortCompletionPct", "Short Completion %"),
        MetricOption("intermediateCompletionPct", "Intermediate Completion %"),
        MetricOption("longCompletionPct", "Long Completion %"),
        MetricOption("rushYardsPerAttempt", "Rush Yards Per Attempt"),
        MetricOption("rushTdPct", "Rush TD %") ]
    else
      [ MetricOption("overallRating", "Overall Rating"),
        MetricOption("manSeparation", "Man Separation"),
        MetricOption("zoneSeparation", "Zone Separation"),
        MetricOption("catchRate", "Catch Rate"),
        MetricOption("yardsPerRoute", "Yards Per Route"),
        MetricOption("targetShare", "Target Share"),
        MetricOption("redZoneTargets", "Red Zone Targets") ]
  }

  /**
   * For QB and WR the sort menu lists the axis pickers' metrics in the same
   * order, except that the overall rating moves from last to first.
   */
  lemma SortOptionsMatchPickers(position: string)
    requires position == QB || position == WR
    ensures SortOptions(position)[0].value == AvailableMetrics(position)[6].value
    ensures forall i :: 0 <= i < 6 ==> SortOptions(position)[i + 1].value == AvailableMetrics(position)[i].value
  {
  }

  /** The header of an axis column: the key's first letter upper-cased, then its next two characters. */
  function Abbrev(metric: string): (text: string)
    ensures |text| == if |metric| < 3 then |metric| else 3
    ensures |metric| > 0 ==> text[0] == UpperChar(metric[0]) && text[1..] == metric[1..|text|]
  {
    if |metric| == 0 then "" else [UpperChar(metric[0])] + metric[1..if |metric| < 3 then |metric| else 3]
  }

  /** A header cell: the metric a click sorts by and the text shown. */
  datatype Header = Header(sortKey: string, text: string)

  /** The table's own columns that the two axis columns do not already show, in table order. */
  function ExtraColumns(position: string, xMetric: string, yMetric: string): (extra: seq<Column>)
    ensures forall i :: 0 <= i < |extra| ==> extra[i].key != xMetric && extra[i].key != yMetric
    ensures forall i :: 0 <= i < |ColumnHeaders(position)| ==>
              var c := ColumnHeaders(position)[i];
              c.key != xMetric && c.key != yMetric ==> c in extra
    ensures IsSubsequence(extra, ColumnHeaders(position))
  {
    Filter(ColumnHeaders(position), (c: Column) => c.key != xMetric && c.key != yMetric)
  }

  function ColumnTitles(columns: seq<Column>): seq<Header>
  {
    seq(|columns|, i requires 0 <= i < |columns| => Header(columns[i].key, columns[i].title))
  }

  /**
   * The header row after Rank, Player and Team: the six fixed quarterback
   * columns, or the two axis columns followed by the remaining table columns;
   * Rating last.
   */
  function HeaderRow(position: string, xMetric: string, yMetric: string): (row: seq<Header>)
    ensures |row| >= 2 && row[|row| - 1] == Header("overallRating", "Rating")
    ensures position != QB ==>
              && row[0] == Header(xMetric, Abbrev(xMetric))
              && row[1] == Header(yMetric, Abbrev(yMetric))
              && row[2..|row| - 1] == ColumnTitles(ExtraColumns(position, xMetric, yMetric))
  {
    if position == QB then ColumnTitles(ColumnHeaders(QB)) + [Header("overallRating", "Rating")]
    else
      [Header(xMetric, Abbrev(xMetric)), Header(yMetric, Abbrev(yMetric))]
        + ColumnTitles(ExtraColumns(position, xMetric, yMetric))
        + [Header("overallRating", "Rating")]
  }

  /** The cells under `columns`: one per column, N/A exactly where the player lacks that column's metric. */
  function FormatColumns(p: Player, columns: seq<Column>): (cells: seq<Formatted>)
    ensures |cells| == |columns|
    ensures forall i :: 0 <= i < |cells| ==> (cells[i] == NotAvailable <==> columns[i].key !in p.metrics)
  {
    seq(|columns|, i requires 0 <= i < |columns| => FormatMetricValue(MetricOf(p, columns[i].key), columns[i].key))
  }

  /** The metric cells of one player's row, written out column by column as the body of the table does. */
  function CellRow(p: Player, position: string, xMetric: string, yMetric: string): (cells: seq<Formatted>)
    ensures |cells| == if position == QB then 7 else |ExtraColumns(position, xMetric, yMetric)| + 3
    ensures cells[|cells| - 1] == NotAvailable <==> "overallRating" !in p.metrics
    ensures position != QB ==>
              && (cells[0] == NotAvailable <==> xMetric !in p.metrics)
              && (cells[1] == NotAvailable <==> yMetric !in p.metrics)
  {
    if position == QB then
      [ FormatMetricValue(MetricOf(p, "avgDepthOfTarget"), "avgDepthOfTarget"),
        FormatMetricValue(MetricOf(p, "shortCompletionPct"), "shortCompletionPct"),
        FormatMetricValue(MetricOf(p, "intermediateCompletionPct"), "intermediateCompletionPct"),
        FormatMetricValue(MetricOf(p, "longCompletionPct"), "longCompletionPct"),
        FormatMetricValue(MetricOf(p, "rushYardsPerAttempt"), "rushYardsPerAttempt"),
        FormatMetricValue(MetricOf(p, "rushTdPct"), "rushTdPct"),
        FormatMetricValue(MetricOf(p, "overallRating"), "overallRating") ]
    else
      [FormatMetricValue(MetricOf(p, xMetric), xMetric), FormatMetricValue(MetricOf(p, yMetric), yMetric)]
        + FormatColumns(p, ExtraColumns(position, xMetric, yMetric))
        + [FormatMetricValue(MetricOf(p, "overallRating"), "overallRating")]
  }

  /** Every cell sits under the header that sorts by the metric the cell shows. */
  lemma RowsAlign(p: Player, position: string, xMetric: string, yMetric: string)
    ensures |CellRow(p, position, xMetric, yMetric)| == |HeaderRow(position, xMetric, yMetric)|
    ensures forall i :: 0 <= i < |CellRow(p, position, xMetric, yMetric)| ==>
              var key := HeaderRow(position, xMetric, yMetric)[i].sortKey;
              CellRow(p, position, xMetric, yMetric)[i] == FormatMetricValue(MetricOf(p, key), key)
  {
    if position == QB {
      QbRowsAlign(p, xMetric, yMetric);
    } else {
      AxisRowsAlign(p, position, xMetric, yMetric);
    }
  }

  lemma QbRowsAlign(p: Player, xMetric: string, yMetric: string)
    ensures |CellRow(p, QB, xMetric, yMetric)| == |HeaderRow(QB, xMetric, yMetric)| == 7
    ensures forall i :: 0 <= i < 7 ==>
              var key := HeaderRow(QB, xMetric, yMetric)[i].sortKey;
              CellRow(p, QB, xMetric, yMetric)[i] == FormatMetricValue(MetricOf(p, key), key)
  {
    var row := HeaderRow(QB, xMetric, yMetric);
    var columns := ColumnHeaders(QB);
    assert row == ColumnTitles(columns) + [Header("overallRating", "Rating")];
    forall i | 0 <= i < 6 ensures row[i].sortKey == columns[i].key {
      assert row[i] == ColumnTitles(columns)[i];
    }
  }

  lemma AxisRowsAlign(p: Player, position: string, xMetric: string, yMetric: string)
    requires position != QB
    ensures |CellRow(p, position, xMetric, yMetric)| == |HeaderRow(position, xMetric, yMetric)|
    ensures forall i :: 0 <= i < |CellRow(p, position, xMetric, yMetric)| ==>
              var key := HeaderRow(position, xMetric, yMetric)[i].sortKey;
              CellRow(p, position, xMetric, yMetric)[i] == FormatMetricValue(MetricOf(p, key), key)
  {
    var row := HeaderRow(position, xMetric, yMetric);
    var cells := CellRow(p, position, xMetric, yMetric);
    var extra := ExtraColumns(position, xMetric, yMetric);
    var titles := ColumnTitles(extra);
    var values := FormatColumns(p, extra);
    assert |cells| == |values| + 3;
    forall i | 0 <= i < |cells| ensures cells[i] == FormatMetricValue(MetricOf(p, row[i].sortKey), row[i].sortKey) {
      if 2 <= i < |cells| - 1 {
        assert row[i] == row[2..|row| - 1][i - 2] == titles[i - 2];
        assert cells[i] == values[i - 2];
      }
    }
  }

  function SortKeys(row: seq<Header>): seq<string>
  {
    seq(|row|, i requires 0 <= i < |row| => row[i].sortKey)
  }

  /** Outside QB the table's own columns are the three receiver columns, none of them the rating. */
  lemma ReceiverColumns(position: string)
    requires position != QB
    ensures ColumnHeaders(position) == ColumnHeaders(WR)
    ensures SortOptions(position) == SortOptions(WR)
    ensures forall i :: 0 <= i < |ColumnHeaders(position)| ==> ColumnHeaders(position)[i].key != "overallRating"
  {
  }

  /**
   * Outside the quarterback layout no metric gets two columns exactly when the
   * two axes differ and neither is the overall rating.
   */
  lemma NonQbColumnsDistinct(position: string, xMetric: string, yMetric: string)
    requires position != QB
    ensures NoDuplicates(SortKeys(HeaderRow(position, xMetric, yMetric)))
        <==> xMetric != yMetric && xMetric != "overallRating" && yMetric != "overallRating"
  {
    var keys := SortKeys(HeaderRow(position, xMetric, yMetric));
    var extra := ExtraColumns(position, xMetric, yMetric);
    var middle := SortKeys(ColumnTitles(extra));
    HeaderKeys(position, xMetric, yMetric);
    if xMetric != yMetric && xMetric != "overallRating" && yMetric != "overallRating" {
      forall k | 0 <= k < |middle|
        ensures middle[k] != xMetric && middle[k] != yMetric && middle[k] != "overallRating"
      {
        ExtraKeys(position, xMetric, yMetric, k);
      }
      forall a, b | 0 <= a < b < |middle| ensures middle[a] != middle[b] {
        ExtraKeysDistinct(position, xMetric, yMetric, a, b);
      }
      DistinctFromParts(keys, middle, xMetric, yMetric, "overallRating");
    } else {
      var last := |keys| - 1;
      assert keys[0] == xMetric && keys[1] == yMetric && keys[last] == "overallRating";
      if xMetric == yMetric {
        assert keys[0] == keys[1];
      } else if xMetric == "overallRating" {
        assert keys[0] == keys[last];
      } else {
        assert keys[1] == keys[last];
      }
    }
  }

  /** The sort keys of the header row outside QB: the two axes, the remaining table columns, the rating. */
  lemma HeaderKeys(position: string, xMetric: string, yMetric: string)
    requires position != QB
    ensures SortKeys(HeaderRow(position, xMetric, yMetric))
         == [xMetric, yMetric] + SortKeys(ColumnTitles(ExtraColumns(position, xMetric, yMetric))) + ["overallRating"]
  {
    var row := HeaderRow(position, xMetric, yMetric);
    var titles := ColumnTitles(ExtraColumns(position, xMetric, yMetric));
    assert row == [row[0], row[1]] + titles + [row[|row| - 1]];
  }

  /** Keys made of two distinct axes, distinct middle keys different from both, and a last key different from all. */
  lemma DistinctFromParts(keys: seq<string>, middle: seq<string>, x: string, y: string, r: string)
    requires keys == [x, y] + middle + [r]
    requires x != y && x != r && y != r
    requires NoDuplicates(middle)
    requires forall k :: 0 <= k < |middle| ==> middle[k] != x && middle[k] != y && middle[k] != r
    ensures NoDuplicates(keys)
  {
    forall i, j | 0 <= i < j < |keys| ensures keys[i] != keys[j] {
      if 2 <= i && j < |keys| - 1 {
        assert keys[i] == middle[i - 2] && keys[j] == middle[j - 2];
      } else if i < 2 && 2 <= j < |keys| - 1 {
        assert keys[j] == middle[j - 2];
      } else if 2 <= i {
        assert keys[i] == middle[i - 2];
      }
    }
  }

  /** No remaining table column outside QB is the rating. */
  lemma ExtraKeys(position: string, xMetric: string, yMetric: string, k: nat)
    requires position != QB
    requires k < |ExtraColumns(position, xMetric, yMetric)|
    ensures ExtraColumns(position, xMetric, yMetric)[k].key != "overallRating"
    ensures SortKeys(ColumnTitles(ExtraColumns(position, xMetric, yMetric)))[k] == ExtraColumns(position, xMetric, yMetric)[k].key
  {
    ReceiverColumns(position);
    SubsequenceMember(ExtraColumns(position, xMetric, yMetric), ColumnHeaders(position), k);
  }

  /** The receiver columns have distinct keys, and so has any part of them kept in order. */
  lemma ExtraKeysDistinct(position: string, xMetric: string, yMetric: string, i: nat, j: nat)
    requires position != QB
    requires i < j < |ExtraColumns(position, xMetric, yMetric)|
    ensures ExtraColumns(position, xMetric, yMetric)[i].key != ExtraColumns(position, xMetric, yMetric)[j].key
    ensures SortKeys(ColumnTitles(ExtraColumns(position, xMetric, yMetric)))[i]
         != SortKeys(ColumnTitles(ExtraColumns(position, xMetric, yMetric)))[j]
  {
    ReceiverColumns(position);
    SubsequenceKeepsOrder(ExtraColumns(position, xMetric, yMetric), ColumnHeaders(position), i, j);
  }

  /** Two positions of a subsequence come from two increasing positions of the whole. */
  lemma {:induction false} SubsequenceKeepsOrder(r: seq<Column>, s: seq<Column>, i: nat, j: nat)
    requires IsSubsequence(r, s) && i < j < |r|
    ensures exists p, q :: 0 <= p < q < |s| && s[p] == r[i] && s[q] == r[j]
    decreases |s|
  {
    if r[0] == s[0] && IsSubsequence(r[1..], s[1..]) {
      if i == 0 {
        SubsequenceMember(r[1..], s[1..], j - 1);
        var q :| 0 <= q < |s[1..]| && s[1..][q] == r[j];
        assert s[0] == r[0] && s[q + 1] == r[j];
      } else {
        SubsequenceKeepsOrder(r[1..], s[1..], i - 1, j - 1);
        var p, q :| 0 <= p < q < |s[1..]| && s[1..][p] == r[i] && s[1..][q] == r[j];
        assert s[p + 1] == r[i] && s[q + 1] == r[j];
      }
    } else {
      SubsequenceKeepsOrder(r, s[1..], i, j);
      var p, q :| 0 <= p < q < |s[1..]| && s[1..][p] == r[i] && s[1..][q] == r[j];
      assert s[p + 1] == r[i] && s[q + 1] == r[j];
    }
  }

  lemma {:induction false} SubsequenceMember(r: seq<Column>, s: seq<Column>, j: nat)
    requires IsSubsequence(r, s) && j < |r|
    ensures exists q :: 0 <= q < |s| && s[q] == r[j]
    decreases |s|
  {
    if r[0] == s[0] && IsSubsequence(r[1..], s[1..]) {
      if j > 0 {
        SubsequenceMember(r[1..], s[1..], j - 1);
        var q :| 0 <= q < |s[1..]| && s[1..][q] == r[j];
        assert s[q + 1] == r[j];
      }
    } else {
      SubsequenceMember(r, s[1..], j);
      var q :| 0 <= q < |s[1..]| && s[1..][q] == r[j];
      assert s[q + 1] == r[j];
    }
  }

  // ----- The table's state -----

  /** The table's own state: the sort metric and direction and the search text. */
  class RankingTable {
    var sortMetric: string
    var sortDirection: Direction
    var searchQuery: string

    /** The table opens sorted by overall rating, highest first, with an empty search. */
    constructor ()
      ensures sortMetric == "overallRating" && sortDirection == Desc && searchQuery == ""
    {
      sortMetric := "overallRating";
      sortDirection := Desc;
      searchQuery := "";
    }

    function State(): SortState
      reads this
    {
      SortState(sortMetric, sortDirection)
    }

    /** A click on a column header. */
    method ToggleSort(metric: string)
      modifies this
      ensures State() == NextSort(old(State()), metric)
      ensures searchQuery == old(searchQuery)
    {
      if sortMetric == metric {
        sortDirection := if sortDirection == Asc then Desc else Asc;
      } else {
        sortMetric := metric;
        sortDirection := Desc;
      }
    }

    /** The sort menu sets the metric and keeps the direction. */
    method SetSortMetric(metric: string)
      modifies this
      ensures sortMetric == metric
      ensures sortDirection == old(sortDirection) && searchQuery == old(searchQuery)
    {
      sortMetric := metric;
    }

    method SetSearchQuery(query: string)
      modifies this
      ensures searchQuery == query
      ensures State() == old(State())
    {
      searchQuery := query;
    }

    /** A click on a row toggles that player's selection on the dashboard. */
    method HandlePlayerSelect(dashboard: Dashboard, id: PlayerId)
      modifies dashboard
      ensures dashboard.selectedPlayer == ToggleSelection(old(dashboard.selectedPlayer), id)
      ensures dashboard.position == old(dashboard.position)
      ensures dashboard.xMetric == old(dashboard.xMetric) && dashboard.yMetric == old(dashboard.yMetric)
    {
      dashboard.SetSelectedPlayer(ToggleSelection(dashboard.selectedPlayer, id));
    }

    /** The rows in display order: the players the search lets through, sorted by the current state. */
    method Rows(players: seq<Player>) returns (rows: seq<Player>)
      ensures multiset(rows) == multiset(SearchFilter(players, searchQuery))
      ensures HasMetric(SearchFilter(players, searchQuery), sortMetric) ==> SortedByMetric(rows, sortMetric, sortDirection)
    {
      rows := SortPlayers(SearchFilter(players, searchQuery), sortMetric, sortDirection);
    }
  }
}
