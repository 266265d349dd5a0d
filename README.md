# NFL player dashboard — a Dafny model of its decision logic

The dashboard shows the players of one position (QB, WR, RB, TE). It has
three parts:

- a quadrant chart that plots two chosen metrics against each other, with
  reference lines at the medians;
- a ranking table that can be searched and sorted;
- a shared selection of one player.

This project models the logic behind those views and proves properties of
it. Rendering is not modelled.

- `collections.dfy` (`Collections`): the array filter, `String.includes`, ASCII
  `toLowerCase`/`toUpperCase`, and `Math.round`.
- `players.dfy` (`Players`): the player record. Metrics are a map from key to
  value, and a missing key is `undefined`. Also the click-to-toggle selection
  rule that the chart and the table share.
- `sorting.dfy` (`Sorting`): `Array.prototype.sort` with the comparators
  `a - b` / `b - a`, as an in-place insertion sort on an array. It is
  proved sorted and a permutation.
- `player_dashboard.dfy` (`PlayerDashboard`): the page state as a class
  (position, axes, selection), the position change with its per-position
  default axes, the metric display names, the metric pickers and the position
  filter.
- `quadrant_median.dfy` (`QuadrantMedian`): the median reference lines. The
  median is the value at index floor(n/2) of the sorted values, specified
  through order statistics.
- `overlap_index.dfy` (`OverlapIndex`): the map from rounded coordinates to
  the ids drawn there, built by a loop.
- `player_quadrant_chart.dfy` (`PlayerQuadrantChart`):
  - the quadrant names and the initials of a name;
  - `ComputeMarker`, a pure function from a player and the chart state to
    everything drawn for that player (radius, colours, main label and its
    collision offset, hover label), given the position key the marker is
    looked up under;
  - the chart's own state as a class with its event handlers.
- `player_sorted_table.dfy` (`PlayerSortedTable`): the table.
  - The search filter.
  - Sorting a copy of the list.
  - The header-click sort state, both as a function and as a class method.
  - The row-click selection.
  - The value-format categories.
  - The column layouts, with a proof that every cell sits under the header
    that sorts by its metric.

Notes on the code's behaviour:

- **Median.** The median is the element at index floor(n/2) of the ascending
  sort. For an even count this is the upper of the two middle values.
- **Elite flag.** A player's elite flag is read from the player record. It is
  not derived from the medians.
- **Undefined metrics in the median.** JavaScript's sort moves `undefined`
  entries to the end, so the median is undefined exactly when index floor(n/2)
  falls among the players that lack the metric. `QuadrantMedian.AxisMedian`
  models this.

## Model

| member | source | states |
|---|---|---|
| Collections.Filter | components/player-sorted-table.tsx:19-24 | the result holds only kept elements of the input, holds every kept element, and is a subsequence of the input |
| Collections.FilterCounts | components/player-sorted-table.tsx:19-24 | every kept value occurs in the result exactly as often as in the input, every other value not at all |
| Collections.FilterAppend | components/player-dashboard.tsx:17 | filtering a concatenation is the concatenation of the filtered parts, so list order is kept |
| Collections.FilterKeepsAll | components/player-sorted-table.tsx:21 | a test that accepts every element gives back the whole list |
| Collections.FilterSame | components/player-sorted-table.tsx:19-24 | two tests that agree on every element keep the same elements |
| Collections.Contains | components/player-sorted-table.tsx:22-23 | the empty pattern is always found, and a found pattern is no longer than the text |
| Collections.ContainsAt | components/player-sorted-table.tsx:22-23 | `includes` finds the pattern exactly when it occurs at some index of the text |
| Collections.LowerChar | components/player-sorted-table.tsx:22-23 | the result is no upper-case ASCII letter; only an upper-case letter changes, and it becomes its own lower-case letter (code point plus 32) |
| Collections.UpperChar | components/player-sorted-table.tsx:232 | the result is no lower-case ASCII letter; only a lower-case letter changes, into the upper-case letter that lower-cases back to it |
| Collections.Lower | components/player-sorted-table.tsx:22-23 | same length; each upper-case ASCII letter becomes its own lower-case letter and every other character is unchanged |
| Collections.Round | components/player-quadrant-chart.tsx:103 | `Math.round` is within one half of its argument, with a half rounded up |
| Players.MetricOf | components/player-sorted-table.tsx:30-31 | `player[key]` is defined exactly when the record has the key, and then it is the stored value |
| Players.ToggleSelection | components/player-quadrant-chart.tsx:89-91 | the result is no selection exactly when the clicked player was selected; otherwise it is the clicked player |
| Players.ToggleTwice | components/player-sorted-table.tsx:52-54 | two clicks on one player restore the selection exactly when nobody or that player was selected, and end with no selection exactly when another player was selected |
| Sorting.SortBy | components/player-quadrant-chart.tsx:43-44 | after the call the array is ordered by the comparator's key in the given direction and holds the same multiset of elements |
| Sorting.Insert | components/player-sorted-table.tsx:29-38 | inserting one element into a sorted prefix yields a longer sorted prefix with the same elements, leaves everything after it in place and keeps the multiset |
| Sorting.SinkLeft | components/player-sorted-table.tsx:29-38 | moving one element left into a sorted prefix yields a longer sorted prefix, does not touch the elements after it and keeps the multiset |
| Sorting.PrefixMultiset | components/player-sorted-table.tsx:29-38 | two arrangements with the same elements that agree from an index on have the same elements before it |
| Sorting.Swap | components/player-sorted-table.tsx:29 | exchanging two elements changes only those two positions and keeps the multiset |
| PlayerDashboard.MetricName | components/player-dashboard.tsx:20-42 | a known key gets its (non-empty) table entry; an unknown key is returned unchanged |
| PlayerDashboard.AvailableMetrics | components/player-dashboard.tsx:68-93 | QB and WR get seven options, every other position one; the last option is always the overall rating |
| PlayerDashboard.DefaultAxes | components/player-dashboard.tsx:49-61 | the four known positions get two different axes; any other position keeps the previous axes |
| PlayerDashboard.PlayersAt | components/player-dashboard.tsx:17 | exactly the players of the position are kept, each as often as in the dataset, in dataset order |
| PlayerDashboard.Dashboard.constructor | components/player-dashboard.tsx:11-14 | the page opens on WR with the man/zone separation axes (the WR defaults) and nobody selected |
| PlayerDashboard.Dashboard.HandlePositionChange | components/player-dashboard.tsx:45-65 | the new position is set, the axes become its defaults (or stay for another position) and the selection is cleared |
| PlayerDashboard.Dashboard.SetXMetric | components/player-dashboard.tsx:112 | the x picker changes the x metric only |
| PlayerDashboard.Dashboard.SetYMetric | components/player-dashboard.tsx:125 | the y picker changes the y metric only |
| PlayerDashboard.Dashboard.SetSelectedPlayer | components/player-dashboard.tsx:14 | the selection setter changes the selection only |
| PlayerDashboard.DefaultAxesAreOffered | components/player-dashboard.tsx:49-54 | after switching to QB or WR both default axes are among the metrics the pickers offer |
| PlayerDashboard.DefaultAxesNotOffered | components/player-dashboard.tsx:55-61 | after switching to RB or TE the pickers offer only the overall rating, and neither default axis is among the offered metrics |
| PlayerDashboard.AvailableMetricsAreNamed | components/player-dashboard.tsx:68-93 | every offered metric has a display name of its own |
| PlayerDashboard.UnnamedDefaultAxes | components/player-dashboard.tsx:55-57 | the RB default axes have no display name and are shown as their raw keys |
| QuadrantMedian.CountBelow | components/player-quadrant-chart.tsx:43 | the number of values below a bound is at most the number of values |
| QuadrantMedian.AxisValues | components/player-quadrant-chart.tsx:41-42 | one entry per player, its `MetricOf` for the metric: undefined exactly where the player lacks the metric |
| QuadrantMedian.Defined | components/player-quadrant-chart.tsx:43 | the defined entries are no more than all entries |
| QuadrantMedian.AxisMedian | components/player-quadrant-chart.tsx:41-44 | the median is defined exactly when index floor(n/2) falls among the defined values, and then it is their order statistic at that index |
| QuadrantMedian.AllDefined | components/player-quadrant-chart.tsx:41-44 | when every player has the metric, the defined values are all the values and the median is defined exactly for a non-empty list |
| QuadrantMedian.SortedIsOrderStatistic | components/player-quadrant-chart.tsx:43 | index k of an ascending permutation of the values is their order statistic k |
| QuadrantMedian.CountsOfPermutation | components/player-quadrant-chart.tsx:41-43 | reordering the values changes neither count, so the median does not depend on the players' order |
| QuadrantMedian.EvenCountTakesUpperMiddle | components/player-quadrant-chart.tsx:43-44 | for any even count the value at index n/2 of the ascending order is the median, and the lower middle value is the median only when it equals the upper one |
| QuadrantMedian.TwoValuesMedian | components/player-quadrant-chart.tsx:43-44 | of the values 1 and 2 the median is 2, not 1 |
| QuadrantMedian.OrderStatisticUnique | components/player-quadrant-chart.tsx:43 | the order statistic at an index is unique, so the median is well defined |
| OverlapIndex.Hundredths | components/player-quadrant-chart.tsx:103 | the key component is the value in hundredths, rounded to the nearest with a half rounded up |
| OverlapIndex.RoundedMetric | components/player-quadrant-chart.tsx:100-103 | a coordinate in hundredths is undefined exactly when the player lacks the metric, and otherwise within one half of the value times 100 |
| OverlapIndex.KeyOf | components/player-quadrant-chart.tsx:103 | the x component of the key is defined exactly when the player has the x metric, and likewise for y; each defined component is that metric's `RoundedMetric` |
| OverlapIndex.GroupIds | components/player-quadrant-chart.tsx:105-108 | a group lists at most one id per player; `GroupIdsSound` and `GroupOfPlayer` say which |
| OverlapIndex.BuildOverlapIndex | components/player-quadrant-chart.tsx:96-112 | the keys of the map are exactly the players' distinct keys, and each key's list is the ids of the players with that key, in player order |
| OverlapIndex.IndexStep | components/player-quadrant-chart.tsx:105-108 | one pass step (an empty list for a new key, then the id appended to its key's list) keeps the map equal to the keys and groups of the players seen so far |
| OverlapIndex.DistinctKeysOfPlayers | components/player-quadrant-chart.tsx:105-107 | a key is in the index exactly when some player has it |
| OverlapIndex.DistinctKeysUnique | components/player-quadrant-chart.tsx:105-107 | no key is listed twice |
| OverlapIndex.GroupOfUnusedKey | components/player-quadrant-chart.tsx:105-107 | a key no player has names no ids |
| OverlapIndex.GroupIdsAppend | components/player-quadrant-chart.tsx:108 | groups keep player-array order: earlier players come first |
| OverlapIndex.GroupIdsSound | components/player-quadrant-chart.tsx:108 | every id in a group belongs to a player with that group's key |
| OverlapIndex.GroupOfPlayer | components/player-quadrant-chart.tsx:99-109 | with distinct ids, a player's id is in a group exactly when the group's key is the player's own key |
| OverlapIndex.GroupsCoverPlayers | components/player-quadrant-chart.tsx:96-112 | the group sizes add up to the number of players |
| PlayerQuadrantChart.GetQuadrantLabels | components/player-quadrant-chart.tsx:47-81 | the generic names are returned exactly when the position and axes are not one of the three named pairs; every name is non-empty |
| PlayerQuadrantChart.Split | components/player-quadrant-chart.tsx:325-326 | splitting at spaces yields at least one piece and no piece holds a space |
| PlayerQuadrantChart.SplitJoin | components/player-quadrant-chart.tsx:325 | joining the pieces with spaces gives back the name |
| PlayerQuadrantChart.JoinWithSpaces | components/player-quadrant-chart.tsx:325 | the inverse of `split(" ")`: joining words that hold no space with single spaces and splitting the result gives back the words |
| PlayerQuadrantChart.FirstLetters | components/player-quadrant-chart.tsx:326-327 | at most one letter per piece; when no piece is empty, exactly one per piece, its first |
| PlayerQuadrantChart.InitialsOf | components/player-quadrant-chart.tsx:324-329 | the initials are exactly the letters that start a word (first character or right after a space); they are no longer than the name and hold no space |
| PlayerQuadrantChart.WordStartsAppend | components/player-quadrant-chart.tsx:326-328 | the word starts of two joined strings are those of each, the second starting a word when the first ends in a space |
| PlayerQuadrantChart.TwoWordInitials | components/player-quadrant-chart.tsx:324-329 | a first and a last name joined by one space (as in "Justin Jefferson") give the first letter of each |
| PlayerQuadrantChart.OneWordInitials | components/player-quadrant-chart.tsx:324-329 | "Prime" gives "P" |
| PlayerQuadrantChart.ModeShowsName | components/player-quadrant-chart.tsx:369-387 | the all and initials modes show every name, the selected and hover modes none, the elite mode exactly the elite players' |
| PlayerQuadrantChart.NameWanted | components/player-quadrant-chart.tsx:365-387 | the selected player's name is always wanted; with names off it is the only one |
| PlayerQuadrantChart.HoverTracked | components/player-quadrant-chart.tsx:423-429 | pointing is tracked always in the hover mode, in the initials mode exactly for a non-selected player, and in no other mode |
| PlayerQuadrantChart.IndexOf | components/player-quadrant-chart.tsx:395 | the result is the first position of the id, or -1 exactly when the id is absent |
| PlayerQuadrantChart.ShapeKey | components/player-quadrant-chart.tsx:361 | the looked-up position key is the player's overlap-index key when the shape props carry both data keys, and a missing data key gives a NaN component |
| PlayerQuadrantChart.ComputeMarker | components/player-quadrant-chart.tsx:346-481 | radius (`Radius`) and colours (`Fill`, `Stroke`) follow selected, then elite-highlighted, then default. The main label shows for the selected player, or by mode when names are on, except a hovered non-selected player in initials mode; its text, weight and size follow the same rules. It sits at the anchor above the marker, fanned out by index (`ShiftX`) inside the overlap group filed under the looked-up position key (`GroupAt`). The hover label shows exactly for a hovered player in the hover mode, or in initials mode when not selected; it carries the full name, bold, 10 px above the marker at the anchor's x |
| PlayerQuadrantChart.MarkerTier | components/player-quadrant-chart.tsx:353 | the selected look exactly for the selected player, the elite look exactly for a non-selected elite player with the highlight on |
| PlayerQuadrantChart.LabelAnchor | components/player-quadrant-chart.tsx:389-401 | a label never sits lower than 3 px above the marker, and it is not moved unless it is shown, its group has several players and its index is above 0 |
| PlayerQuadrantChart.ShiftsDistinct | components/player-quadrant-chart.tsx:396-399 | shifted labels of one group never share a horizontal offset, and no shift is zero |
| PlayerQuadrantChart.SelectedOnlyShowsSelection | components/player-quadrant-chart.tsx:367-376 | in selected-only mode a main label shows exactly for the selected player, with the full name, and no hover label shows |
| PlayerQuadrantChart.CoLocatedLabelsFanOut | components/player-quadrant-chart.tsx:389-401 | when the shape props carry the axis metrics as their data keys, the first of two players on one spot keeps the plain anchor and the second's label moves 10 px left and 3 px up |
| PlayerQuadrantChart.UnsetShapeKeysNeverFanOut | components/player-quadrant-chart.tsx:361-362 | when the shape props carry no data keys, the label of a player with the x metric keeps the plain anchor whoever shares its spot |
| PlayerQuadrantChart.NoHoverLabelWithoutHover | components/player-quadrant-chart.tsx:464 | with nobody hovered no marker shows a hover label |
| PlayerQuadrantChart.Enter | components/player-quadrant-chart.tsx:421-426 | entering a marker either sets the hover to that player or leaves it; it is that player afterwards exactly when the gate is open or it already was |
| PlayerQuadrantChart.LeaveAsWritten | components/player-quadrant-chart.tsx:427-432 | the as-written leave either clears the hover or leaves it; it stays exactly when nobody was hovered or the gate is closed |
| PlayerQuadrantChart.LeaveAgreesWhenTracked | components/player-quadrant-chart.tsx:427-432 | whenever the enter gate is open, the gated leave clears the hover |
| PlayerQuadrantChart.StaleHoverAfterSelectedLeave | components/player-quadrant-chart.tsx:427-432 | with the gated leave, hover, select, leave and deselect in initials mode leave a hover label up and the initials hidden; with the ungated leave neither happens |
| PlayerQuadrantChart.QuadrantChart.constructor | components/player-quadrant-chart.tsx:33-38 | names on, label size 12, elite highlight on, icon size 6, all names, nobody hovered, within the slider ranges |
| PlayerQuadrantChart.QuadrantChart.Marker | components/player-quadrant-chart.tsx:262-276 | looked up under the axis metrics; with the sliders in range the radius stays within 3..20.04 and the label size within 8..17, and only the hovered player carries a hover label |
| PlayerQuadrantChart.QuadrantChart.SetShowLabels | components/player-quadrant-chart.tsx:178 | the switch changes only whether names show |
| PlayerQuadrantChart.QuadrantChart.SetHighlightElite | components/player-quadrant-chart.tsx:158 | the switch changes only the elite highlight |
| PlayerQuadrantChart.QuadrantChart.SetLabelMode | components/player-quadrant-chart.tsx:206 | the select changes only the label mode |
| PlayerQuadrantChart.QuadrantChart.SetLabelSize | components/player-quadrant-chart.tsx:188-195 | the slider sets the label size within 8..16 and changes nothing else |
| PlayerQuadrantChart.QuadrantChart.SetIconSize | components/player-quadrant-chart.tsx:166-173 | the slider sets the icon size within 3..12 and changes nothing else |
| PlayerQuadrantChart.QuadrantChart.HandleDotClick | components/player-quadrant-chart.tsx:86-93 | a click on a marker with a truthy id toggles that player's selection; position and axes stay |
| PlayerQuadrantChart.QuadrantChart.HandleBackgroundClick | components/player-quadrant-chart.tsx:220 | a click on the chart background clears the selection |
| PlayerQuadrantChart.QuadrantChart.HandlePlayerHover | components/player-quadrant-chart.tsx:141-143 | the hover becomes the player while hovering and nobody otherwise |
| PlayerQuadrantChart.QuadrantChart.MouseEnter | components/player-quadrant-chart.tsx:421-426 | entering a marker sets the hover only in the hover mode, or in initials mode for a non-selected player |
| PlayerQuadrantChart.QuadrantChart.MouseLeave | components/player-quadrant-chart.tsx:427-432 | leaving a marker clears the hover (corrected; see Findings) |
| PlayerSortedTable.Matches | components/player-sorted-table.tsx:20-23 | the empty query matches everyone; a match needs a name or team at least as long as the query |
| PlayerSortedTable.SearchFilter | components/player-sorted-table.tsx:18-25 | an empty query keeps every player; otherwise exactly the players whose lower-cased name or team contains the lower-cased query are kept, each as often as in the list, in list order |
| PlayerSortedTable.SearchIgnoresCase | components/player-sorted-table.tsx:22-23 | queries equal up to ASCII case let the same players through |
| PlayerSortedTable.SortPlayers | components/player-sorted-table.tsx:28-39 | the result is a permutation of the list, ordered by the metric (`SortKey`) ascending or descending when every player has the metric |
| PlayerSortedTable.Flip | components/player-sorted-table.tsx:44 | the direction always changes |
| PlayerSortedTable.NextSort | components/player-sorted-table.tsx:42-49 | the metric becomes the clicked one; the direction flips on the current metric and resets to descending on another |
| PlayerSortedTable.ToggleSortTwice | components/player-sorted-table.tsx:42-49 | two clicks on one header restore the state exactly when it already sorted by that metric; from another metric they end ascending |
| PlayerSortedTable.FormatMetricValue | components/player-sorted-table.tsx:57-77 | a missing value, and only that, shows "N/A"; the six percent metrics (`PercentMetrics`) show as percent; red-zone targets and touchdown/reception keys (`IsCountMetric`) show a whole number within one half of the value; the rest show two decimals |
| PlayerSortedTable.LowercaseReceptionsNotCounted | components/player-sorted-table.tsx:72 | the count test is case-sensitive, so the RB axis "receptions" shows two decimals |
| PlayerSortedTable.ColumnHeaders | components/player-sorted-table.tsx:80-98 | QB gets six columns, every other position the three receiver columns |
| PlayerSortedTable.SortOptions | components/player-sorted-table.tsx:103-125 | seven sort options, always led by the overall rating |
| PlayerSortedTable.SortOptionsMatchPickers | components/player-sorted-table.tsx:103-125 | for QB and WR the sort menu lists the dashboard's axis-picker metrics in the same order, with the overall rating moved from last to first |
| PlayerSortedTable.Abbrev | components/player-sorted-table.tsx:232 | an axis header is the key's first character upper-cased followed by its next two characters |
| PlayerSortedTable.ExtraColumns | components/player-sorted-table.tsx:244-257 | the remaining columns exclude both axis keys, keep every other table column, and keep the table's order |
| PlayerSortedTable.HeaderRow | components/player-sorted-table.tsx:177-266 | outside QB the header row is the x axis, the y axis, then the remaining table columns; Rating is always last |
| PlayerSortedTable.FormatColumns | components/player-sorted-table.tsx:306-312 | one cell per column, "N/A" exactly where the player lacks that column's metric |
| PlayerSortedTable.CellRow | components/player-sorted-table.tsx:281-317 | seven cells for QB, otherwise the two axes, the remaining columns and the rating; the rating cell and the axis cells are "N/A" exactly where the player lacks that metric |
| PlayerSortedTable.RowsAlign | components/player-sorted-table.tsx:281-317 | each row has as many cells as there are headers, and every cell shows the metric its header sorts by |
| PlayerSortedTable.QbRowsAlign | components/player-sorted-table.tsx:177-227 | in the QB layout the seven cells line up with the seven headers |
| PlayerSortedTable.AxisRowsAlign | components/player-sorted-table.tsx:300-314 | in the other layout the cells line up with the axis and remaining-column headers |
| PlayerSortedTable.ReceiverColumns | components/player-sorted-table.tsx:90-125 | every position but QB gets the receiver columns and the receiver sort options, and no column is the rating |
| PlayerSortedTable.NonQbColumnsDistinct | components/player-sorted-table.tsx:228-266 | outside QB no metric gets two columns exactly when the axes differ and neither is the overall rating |
| PlayerSortedTable.HeaderKeys | components/player-sorted-table.tsx:228-266 | outside QB the header row sorts by the x axis, the y axis, the remaining table columns and the rating, in that order |
| PlayerSortedTable.ExtraKeys | components/player-sorted-table.tsx:244-257 | no remaining table column outside QB sorts by the rating |
| PlayerSortedTable.ExtraKeysDistinct | components/player-sorted-table.tsx:244-257 | two remaining table columns outside QB never share a key |
| PlayerSortedTable.RankingTable.constructor | components/player-sorted-table.tsx:13-15 | the table opens sorted by overall rating, highest first, with an empty search |
| PlayerSortedTable.RankingTable.ToggleSort | components/player-sorted-table.tsx:42-49 | a header click moves the sort state by `NextSort` and keeps the search |
| PlayerSortedTable.RankingTable.SetSortMetric | components/player-sorted-table.tsx:151 | the sort menu sets the metric and keeps the direction |
| PlayerSortedTable.RankingTable.SetSearchQuery | components/player-sorted-table.tsx:147 | typing changes only the search text |
| PlayerSortedTable.RankingTable.HandlePlayerSelect | components/player-sorted-table.tsx:52-54 | a row click toggles that player's selection on the dashboard |
| PlayerSortedTable.RankingTable.Rows | components/player-sorted-table.tsx:18-39 | the rows are a permutation of the searched players, sorted by the current state when every shown player has the metric |

## Left out

- Rendering is not modelled: JSX, recharts (axes, domains, reference lines, tooltips, the scatter wiring), the theme provider and dark-mode detection. These are declarative UI over a library and the DOM.
- The digits of number formatting are not modelled (`toFixed`, `formatTickValue`). `PlayerSortedTable.FormatMetricValue` returns only the category and the value.
- Floating point is not modelled. Metric values are exact reals. `Math.round(x * 100) / 100` is modelled as an integer count of hundredths, and the string key of the overlap map as a pair of them. A missing metric (NaN in the source) is one key component of its own, because every NaN prints the same.
- PlayerSortedTable.SortPlayers: the order is stated only when every player has the sort metric. A missing value makes the comparator return NaN, and then the engine's order is not specified. The result is a permutation in every case.
- PlayerSortedTable.RankingTable.Rows: the same limit as `SortPlayers`, applied to the players the search lets through.
- The engine's own sort algorithm is not modelled. `Sorting.SortBy` is an insertion sort; any correct sort gives the same order on distinct keys. The order of players with equal values, which the engine's stable sort keeps as in the input and the Rank column shows, is not stated.
- Case conversion covers ASCII letters only. Unicode case mapping is not modelled.
- PlayerDashboard.MetricName: the `||` fallback for inherited object keys such as `toString` is not modelled. Those keys are treated as unknown.
- Event propagation (`stopPropagation`) is not modelled; a marker click is a separate handler from the background click. React memoisation (`useMemo`, `useCallback`) is not modelled either: values are recomputed.
- The chart hides the label-size slider and the name-mode select while names are off. The model's setters do not check this.
- The player dataset module, the radar chart and the position selector's option list are not part of this model.
- The elite flag is an input field of the player record, because the code reads it from the record.
- PlayerQuadrantChart.ComputeMarker: takes the position key it looks the marker up under as a parameter. The code builds that key from `payload[props.xKey]` and `payload[props.yKey]`, and the scatter at lines 258-277 sets neither prop, so whether the chart library supplies them is outside this model. `ShapeKey` gives both cases.
- PlayerQuadrantChart.CoLocatedLabelsFanOut: holds when the chart library's shape props carry the axis metrics as `xKey`/`yKey`, which is what `QuadrantChart.Marker` assumes; without them `UnsetShapeKeysNeverFanOut` applies (see Findings).
- The label mode is an enumeration of the five modes the select offers. A string outside them, for which only the selected player's name would show, cannot occur.

## Findings

| source | as written | input that shows it | evidently intended | confidence | as-written member | corrected member |
|---|---|---|---|---|---|---|
| components/player-quadrant-chart.tsx:361 | `renderShape` looks a marker's overlap group up under `payload[props.xKey]` and `payload[props.yKey]`, while the index is built from the axis metrics (lines 100-103) and the scatter (lines 258-277) passes no `xKey` or `yKey` | two players with both axis metrics at the same rounded spot, all names shown, drawn with shape props that carry no data keys: the key is "NaN,NaN", neither player is in that group, and both labels keep the plain anchor 3 px above their markers, on top of each other | the lookup uses the same keys as the index (`player[xMetric]`, `player[yMetric]`), so co-located labels fan out | not executed; depends on whether the chart library puts the axis data keys on its shape props | PlayerQuadrantChart.UnsetShapeKeysNeverFanOut | PlayerQuadrantChart.CoLocatedLabelsFanOut |
| components/player-quadrant-chart.tsx:427-432 | the mouse-leave handler clears the hover only when the same gate as mouse-enter holds (hover mode, or initials mode with the player not selected) | initials mode: point at player P (hover P), click P (now selected), move the pointer away (gate closed, hover stays P), click the background (deselected): P's full-name hover label stays up and its initials stay hidden although the pointer is elsewhere | leaving a marker always clears the hover, as the handler's own comment says | not executed | PlayerQuadrantChart.StaleHoverAfterSelectedLeave | PlayerQuadrantChart.QuadrantChart.MouseLeave |
