/**
 * The page shell: which position is shown, which two metrics are on the axes,
 * which player is selected, the metric catalogue per position and the display
 * names of the metrics.
 */
module PlayerDashboard {
  import opened Players
  import opened Collections

  const QB := "QB"
  const WR := "WR"
  const RB := "RB"
  const TE := "TE"

  /** An entry of an axis picker: the metric key and the text shown for it. */
  datatype MetricOption = MetricOption(value: string, title: string)

  /** The display names of the thirteen known metrics. */
  const MetricNames: map<string, string> := map[
    "manSeparation" := "Separation vs. Man Coverage",
    "zoneSeparation" := "Separation vs. Zone Coverage",
    "catchRate" := "Catch Rate",
    "yardsPerRoute" := "Yards Per Route Run",
    "targetShare" := "Target Share %",
    "redZoneTargets" := "Red Zone Targets",
    "avgDepthOfTarget" := "Avg. Depth of Target",
    "shortCompletionPct" := "Short Completion %",
    "intermediateCompletionPct" := "Intermediate Completion %",
    "longCompletionPct" := "Long Completion %",
    "rushYardsPerAttempt" := "Rush Yards Per Attempt",
    "rushTdPct" := "Rush TD %",
    "overallRating" := "Overall Rating"
  ]

  /** The display name of a metric; an unknown key is shown as itself. */
  function MetricName(metric: string): (name: string)
    ensures metric in MetricNames ==> name == MetricNames[metric] && name != ""
    ensures metric !in MetricNames ==> name == metric
  {
    if metric in MetricNames && MetricNames[metric] != "" then MetricNames[metric] else metric
  }

  /** The metrics offered on both axis pickers for a position. */
  function AvailableMetrics(position: string): (options: seq<MetricOption>)
    ensures |options| == (if position == QB || position == WR then 7 else 1)
    ensures options[|options| - 1] == MetricOption("overallRating", "Overall Rating")
  {
    if position == QB then
      [ MetricOption("avgDepthOfTarget", "Avg. Depth of Target"),
        MetricOption("shortCompletionPct", "Short Completion %"),
        MetricOption("intermediateCompletionPct", "Intermediate Completion %"),
        MetricOption("longCompletionPct", "Long Completion %"),
        MetricOption("rushYardsPerAttempt", "Rush Yards Per Attempt"),
        MetricOption("rushTdPct", "Rush TD %"),
        MetricOption("overallRating", "Overall Rating") ]
    else if position == WR then
      [ MetricOption("manSeparation", "Man Separation"),
        MetricOption("zoneSeparation", "Zone Separation"),
        MetricOption("catchRate", "Catch Rate"),
        MetricOption("yardsPerRoute", "Yards Per Route"),
        MetricOption("targetShare", "Target Share %"),
        MetricOption("redZoneTargets", "Red Zone Targets"),
        MetricOption("overallRating", "Overall Rating") ]
    else
      [ MetricOption("overallRating", "Overall Rating") ]
  }

  /** The metric keys offered for a position. */
  function AvailableKeys(position: string): set<string>
  {
    set o | o in AvailableMetrics(position) :: o.value
  }

  /** The positions that come with their own default axes. */
  predicate HasDefaultAxes(position: string)
  {
    position == QB || position == WR || position == RB || position == TE
  }

  /**
   * The axes after switching to `position`, given the axes shown before:
   * the position's own pair, or the previous pair for any other position.
   */
  function DefaultAxes(position: string, x: string, y: string): (axes: (string, string))
    ensures !HasDefaultAxes(position) ==> axes == (x, y)
    ensures HasDefaultAxes(position) ==> axes.0 != axes.1
  {
    if position == QB then ("avgDepthOfTarget", "shortCompletionPct")
    else if position == WR then ("manSeparation", "zoneSeparation")
    else if position == RB then ("yardsPerCarry", "receptions")
    else if position == TE then ("catchRate", "redZoneTargets")
    else (x, y)
  }

  /** The players of one position, in dataset order. */
  function PlayersAt(data: seq<Player>, position: string): (shown: seq<Player>)
    ensures forall i :: 0 <= i < |shown| ==> shown[i] in data && shown[i].position == position
    ensures forall i :: 0 <= i < |data| && data[i].position == position ==> data[i] in shown
    ensures forall p :: multiset(shown)[p] == if p.position == position then multiset(data)[p] else 0
    ensures IsSubsequence(shown, data)
  {
    FilterCounts(data, (p: Player) => p.position == position);
    Filter(data, (p: Player) => p.position == position)
  }

  /** The dashboard's own state; the chart and the table request changes to the selection. */
  class Dashboard {
    var position: string
    var xMetric: string
    var yMetric: string
    var selectedPlayer: Option<PlayerId>

    /** The first render shows the wide receivers on man/zone separation, nobody selected. */
    constructor ()
      ensures position == WR && selectedPlayer == None
      ensures (xMetric, yMetric) == ("manSeparation", "zoneSeparation")
      ensures (xMetric, yMetric) == DefaultAxes(WR, xMetric, yMetric)
    {
      var initial := WR;
      position := initial;
      xMetric := if initial == QB then "avgDepthOfTarget" else "manSeparation";
      yMetric := if initial == QB then "shortCompletionPct" else "zoneSeparation";
      selectedPlayer := None;
    }

    /** Switching position: new position, that position's default axes, selection cleared. */
    method HandlePositionChange(newPosition: string)
      modifies this
      ensures position == newPosition
      ensures (xMetric, yMetric) == DefaultAxes(newPosition, old(xMetric), old(yMetric))
      ensures selectedPlayer == None
    {
      position := newPosition;
      if newPosition == QB {
        xMetric, yMetric := "avgDepthOfTarget", "shortCompletionPct";
      } else if newPosition == WR {
        xMetric, yMetric := "manSeparation", "zoneSeparation";
      } else if newPosition == RB {
        xMetric, yMetric := "yardsPerCarry", "receptions";
      } else if newPosition == TE {
        xMetric, yMetric := "catchRate", "redZoneTargets";
      }
      selectedPlayer := None;
    }

    /** The x-axis picker changes only the x metric. */
    method SetXMetric(metric: string)
      modifies this
      ensures xMetric == metric
      ensures position == old(position) && yMetric == old(yMetric) && selectedPlayer == old(selectedPlayer)
    {
      xMetric := metric;
    }

    /** The y-axis picker changes only the y metric. */
    method SetYMetric(metric: string)
      modifies this
      ensures yMetric == metric
      ensures position == old(position) && xMetric == old(xMetric) && selectedPlayer == old(selectedPlayer)
    {
      yMetric := metric;
    }

    /** The selection setter handed to the chart and the table. */
    method SetSelectedPlayer(selection: Option<PlayerId>)
      modifies this
      ensures selectedPlayer == selection
      ensures position == old(position) && xMetric == old(xMetric) && yMetric == old(yMetric)
    {
      selectedPlayer := selection;
    }
  }

  /** After switching to QB or WR, both axes are metrics that the pickers offer. */
  lemma DefaultAxesAreOffered(position: string, x: string, y: string)
    requires position == QB || position == WR
    ensures DefaultAxes(position, x, y).0 in AvailableKeys(position)
    ensures DefaultAxes(position, x, y).1 in AvailableKeys(position)
  {
    var options := AvailableMetrics(position);
    assert options[0] in options && options[1] in options;
  }

  /**
   * After switching to RB or TE, neither axis is among the metrics the pickers
   * offer for that position (they offer only the overall rating).
   */
  lemma DefaultAxesNotOffered(position: string, x: string, y: string)
    requires position == RB || position == TE
    ensures AvailableKeys(position) == {"overallRating"}
    ensures DefaultAxes(position, x, y).0 !in AvailableKeys(position)
    ensures DefaultAxes(position, x, y).1 !in AvailableKeys(position)
  {
    var options := AvailableMetrics(position);
    assert options == [MetricOption("overallRating", "Overall Rating")];
  }

  /** Every metric a picker offers has its own display name, so none falls back to its key. */
  lemma AvailableMetricsAreNamed(position: string, option: MetricOption)
    requires option in AvailableMetrics(position)
    ensures option.value in MetricNames
    ensures MetricName(option.value) != option.value
  {
  }

  /** The running-back default axes have no display name and are shown as their raw keys. */
  lemma UnnamedDefaultAxes()
    ensures MetricName("yardsPerCarry") == "yardsPerCarry"
    ensures MetricName("receptions") == "receptions"
  {
  }
}
