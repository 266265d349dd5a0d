/**
 * The quadrant chart: the quadrant names, the initials of a name, the marker
 * (radius, colour tier, main label, hover label) drawn for each player, and
 * the chart's own interaction state (label controls and the hovered player).
 */
module PlayerQuadrantChart {
  import opened Players
  import opened Collections
  import opened OverlapIndex
  import opened PlayerDashboard

  // ----- Quadrant names -----

  datatype QuadrantLabels = QuadrantLabels(topLeft: string, topRight: string, bottomLeft: string, bottomRight: string)

  const GenericLabels := QuadrantLabels("High Y, Low X", "High Y, High X", "Low Y, Low X", "Low Y, High X")

  /** The position and axis pairs that have quadrant names of their own. */
  predicate HasNamedQuadrants(position: string, xMetric: string, yMetric: string)
  {
    || (position == QB && xMetric == "avgDepthOfTarget" && yMetric == "shortCompletionPct")
    || (position == QB && xMetric == "rushYardsPerAttempt" && yMetric == "rushTdPct")
    || (position == WR && xMetric == "manSeparation" && yMetric == "zoneSeparation")
  }

  /** The names of the four quadrants; every other combination falls back to the generic names. */
  function GetQuadrantLabels(position: string, xMetric: string, yMetric: string): (labels: QuadrantLabels)
    ensures labels == GenericLabels <==> !HasNamedQuadrants(position, xMetric, yMetric)
    ensures labels.topLeft != "" && labels.topRight != "" && labels.bottomLeft != "" && labels.bottomRight != ""
  {
    if position == QB then
      if xMetric == "avgDepthOfTarget" && yMetric == "shortCompletionPct" then
        QuadrantLabels("Short Game Specialists", "Balanced Passers", "Limited Passers", "Deep Ball Specialists")
      else if xMetric == "rushYardsPerAttempt" && yMetric == "rushTdPct" then
        QuadrantLabels("Goal Line Rushers", "Dual Threats", "Pocket Passers", "Scrambling QBs")
      else GenericLabels
    else if position == WR then
      if xMetric == "manSeparation" && yMetric == "zoneSeparation" then
        QuadrantLabels("Zone Beaters", "Elite Separators", "Contested Catchers", "Man Beaters")
      else GenericLabels
    else GenericLabels
  }

  // ----- Initials -----

  /** `s.split(" ")`: the pieces between single spaces, empty pieces included. */
  function Split(s: string): (parts: seq<string>)
    ensures |parts| >= 1
    ensures forall i :: 0 <= i < |parts| ==> ' ' !in parts[i]
  {
    if |s| == 0 then [""]
    else
      var rest := Split(s[1..]);
      if s[0] == ' ' then [""] + rest
      else [[s[0]] + rest[0]] + rest[1..]
  }

  /** `parts.join(" ")`: splitting the result again gives back words that hold no space. */
  function JoinWithSpaces(parts: seq<string>): (joined: string)
    requires |parts| >= 1
    ensures (forall i :: 0 <= i < |parts| ==> ' ' !in parts[i]) ==> Split(joined) == parts
  {
    if |parts| == 1 then
      SplitWord(parts[0], "");
      assert parts[0] + "" == parts[0];
      parts[0]
    else
      var rest := JoinWithSpaces(parts[1..]);
      SplitWord(parts[0], " " + rest);
      assert parts[0] + " " + rest == parts[0] + (" " + rest);
      assert Split(" " + rest) == [""] + Split(rest) by {
        assert (" " + rest)[1..] == rest;
      }
      assert parts[0] + "" == parts[0];
      assert parts == [parts[0]] + parts[1..];
      assert (forall i :: 0 <= i < |parts| ==> ' ' !in parts[i]) ==>
               forall i :: 0 <= i < |parts[1..]| ==> ' ' !in parts[1..][i] by {
        forall i | 0 <= i < |parts[1..]| ensures parts[1..][i] == parts[i + 1] {}
      }
      parts[0] + " " + rest
  }

  /** A word without spaces glues onto the first piece of what follows it. */
  lemma {:induction false} SplitWord(w: string, t: string)
    ensures ' ' !in w ==> Split(w + t) == [w + Split(t)[0]] + Split(t)[1..]
  {
    if |w| > 0 && ' ' !in w {
      assert (w + t)[0] == w[0] && (w + t)[1..] == w[1..] + t;
      assert ' ' !in w[1..] by {
        forall i | 0 <= i < |w[1..]| ensures w[1..][i] != ' ' {
          assert w[1..][i] == w[i + 1];
        }
      }
      SplitWord(w[1..], t);
      assert [w[0]] + (w[1..] + Split(t)[0]) == w + Split(t)[0];
    } else if |w| == 0 {
      assert w + t == t && w + Split(t)[0] == Split(t)[0];
      assert Split(t) == [Split(t)[0]] + Split(t)[1..];
    }
  }

  /** Splitting at the spaces loses nothing: joining the pieces gives back the name. */
  lemma {:induction false} SplitJoin(s: string)
    ensures JoinWithSpaces(Split(s)) == s
  {
    if |s| > 0 {
      var rest := Split(s[1..]);
      SplitJoin(s[1..]);
      if s[0] == ' ' {
        assert ([""] + rest)[1..] == rest;
      } else {
        var parts := [[s[0]] + rest[0]] + rest[1..];
        if |rest| > 1 {
          assert parts[1..] == rest[1..];
          assert JoinWithSpaces(rest) == rest[0] + " " + JoinWithSpaces(rest[1..]);
        }
      }
    }
  }

  /**
   * `parts.map((part) => part[0]).join("")`: an empty piece contributes nothing,
   * so when no piece is empty there is one letter per piece, its first.
   */
  function FirstLetters(parts: seq<string>): (letters: string)
    ensures |letters| <= |parts|
    ensures (forall i :: 0 <= i < |parts| ==> |parts[i]| > 0) ==>
              |letters| == |parts| && forall i :: 0 <= i < |parts| ==> letters[i] == parts[i][0]
  {
    if |parts| == 0 then ""
    else (if |parts[0]| > 0 then [parts[0][0]] else "") + FirstLetters(parts[1..])
  }

  /**
   * `getInitials(name)`: the first letter of every word, words being separated
   * by spaces; no longer than the name and holding no space.
   */
  function InitialsOf(name: string): (initials: string)
    ensures initials == WordStarts(name, true)
    ensures |initials| <= |name|
    ensures forall i :: 0 <= i < |initials| ==> initials[i] != ' '
  {
    WordStartsSplit(name);
    WordStartsBounds(name, true);
    FirstLetters(Split(name))
  }

  /**
   * The letters of `s` that start a word: a non-space character at the start,
   * or right after a space (`atWordStart` says whether `s` starts a word).
   */
  function WordStarts(s: string, atWordStart: bool): string
  {
    if |s| == 0 then ""
    else (if atWordStart && s[0] != ' ' then [s[0]] else "") + WordStarts(s[1..], s[0] == ' ')
  }

  lemma {:induction false} WordStartsSplit(s: string)
    ensures WordStarts(s, true) == FirstLetters(Split(s))
    ensures WordStarts(s, false) == FirstLetters(Split(s)[1..])
  {
    if |s| > 0 {
      var rest := Split(s[1..]);
      WordStartsSplit(s[1..]);
      if s[0] == ' ' {
        assert Split(s)[1..] == rest;
      } else {
        assert Split(s)[1..] == rest[1..];
      }
    }
  }

  lemma {:induction false} WordStartsBounds(s: string, atWordStart: bool)
    ensures |WordStarts(s, atWordStart)| <= |s|
    ensures forall i :: 0 <= i < |WordStarts(s, atWordStart)| ==> WordStarts(s, atWordStart)[i] != ' '
  {
    if |s| > 0 {
      WordStartsBounds(s[1..], s[0] == ' ');
    }
  }

  /** Word starts of a concatenation: the second part starts a word when the first ends in a space. */
  lemma {:induction false} WordStartsAppend(a: string, b: string, atWordStart: bool)
    ensures WordStarts(a + b, atWordStart)
         == WordStarts(a, atWordStart) + WordStarts(b, if |a| == 0 then atWordStart else a[|a| - 1] == ' ')
  {
    if |a| > 0 {
      var head: string := if atWordStart && a[0] != ' ' then [a[0]] else "";
      assert (a + b)[0] == a[0] && (a + b)[1..] == a[1..] + b;
      assert WordStarts(a + b, atWordStart) == head + WordStarts(a[1..] + b, a[0] == ' ');
      assert WordStarts(a, atWordStart) == head + WordStarts(a[1..], a[0] == ' ');
      WordStartsAppend(a[1..], b, a[0] == ' ');
      if |a| > 1 {
        assert a[1..][|a| - 2] == a[|a| - 1];
      }
    } else {
      assert a + b == b;
    }
  }

  /** A single word contributes its first letter, and nothing when it continues a word. */
  lemma {:induction false} WordStartsOfWord(w: string, atWordStart: bool)
    requires |w| > 0 && ' ' !in w
    ensures WordStarts(w, atWordStart) == if atWordStart then [w[0]] else ""
  {
    if |w| > 1 {
      assert ' ' !in w[1..] by {
        forall i | 0 <= i < |w[1..]| ensures w[1..][i] != ' ' {
          assert w[1..][i] == w[i + 1];
        }
      }
      WordStartsOfWord(w[1..], false);
    }
  }

  /** A first and a last name separated by one space give two letters: the first of each. */
  lemma TwoWordInitials(first: string, last: string)
    requires |first| > 0 && |last| > 0 && ' ' !in first && ' ' !in last
    ensures InitialsOf(first + " " + last) == [first[0], last[0]]
  {
    WordStartsOfWord(first, true);
    WordStartsAppend(first, " ", true);
    assert WordStarts(" ", false) == "";
    WordStartsOfWord(last, true);
    WordStartsAppend(first + " ", last, true);
    WordStartsSplit(first + " " + last);
  }

  lemma OneWordInitials()
    ensures InitialsOf("Prime") == "P"
  {
    WordStartsOfWord("Prime", true);
  }

  // ----- Markers -----

  /** The name modes of the chart: "all", "selected", "initials", "elite", "hover". */
  datatype LabelMode = All | SelectedOnly | Initials | EliteOnly | HoverOnly

  /** The chart controls that feed every marker. */
  datatype ViewSettings = ViewSettings(
    showLabels: bool,
    labelSize: int,
    highlightElite: bool,
    iconSize: int,
    labelMode: LabelMode)

  /** Which of the three looks a marker takes. */
  datatype Tier = SelectedTier | EliteTier | DefaultTier

  /** A text drawn beside a marker. */
  datatype TextLabel = TextLabel(x: real, y: real, text: string, fill: string, fontSize: int, bold: bool)

  /** Everything the chart library needs to draw one player. */
  datatype MarkerSpec = MarkerSpec(
    radius: real,
    tier: Tier,
    fill: string,
    stroke: string,
    strokeWidth: int,
    mainLabel: Option<TextLabel>,
    hoverLabel: Option<TextLabel>)

  function Fill(tier: Tier): string
  {
    match tier
    case SelectedTier => "#10b981"
    case EliteTier => "#f97316"
    case DefaultTier => "#6366f1"
  }

  function Stroke(tier: Tier): string
  {
    match tier
    case SelectedTier => "#065f46"
    case EliteTier => "#7c2d12"
    case DefaultTier => "#4338ca"
  }

  /** Under the label mode alone (no selection involved), does a player's name show? */
  predicate ModeShowsName(mode: LabelMode, isElite: bool): (shows: bool)
    ensures mode == All || mode == Initials ==> shows
    ensures mode == SelectedOnly || mode == HoverOnly ==> !shows
    ensures mode == EliteOnly ==> (shows <==> isElite)
  {
    match mode
    case All => true
    case SelectedOnly => false
    case EliteOnly => isElite
    case Initials => true
    case HoverOnly => false
  }

  /** The selected player's name always shows; the others' by mode when names are on. */
  predicate NameWanted(p: Player, settings: ViewSettings, selected: Option<PlayerId>): (wanted: bool)
    ensures selected == Some(p.id) ==> wanted
    ensures !settings.showLabels ==> (wanted <==> selected == Some(p.id))
    ensures settings.showLabels && (settings.labelMode == All || settings.labelMode == Initials) ==> wanted
  {
    selected == Some(p.id) || (settings.showLabels && ModeShowsName(settings.labelMode, p.isElite))
  }

  /** The modes in which pointing at a marker is tracked as hovering it. */
  predicate HoverTracked(mode: LabelMode, isSelected: bool): (tracked: bool)
    ensures tracked ==> mode == HoverOnly || mode == Initials
    ensures mode == HoverOnly ==> tracked
    ensures mode == Initials ==> (tracked <==> !isSelected)
  {
    mode == HoverOnly || (mode == Initials && !isSelected)
  }

  /** The horizontal shift of the label at index `i > 0` of an overlap group. */
  function ShiftX(i: int): real
  {
    if i % 2 == 0 then 5.0 * (i + 1) as real else -5.0 * (i + 1) as real
  }

  /** The ids drawn on the same rounded spot (an empty list for a key not in the index). */
  function GroupAt(groups: map<CoordKey, seq<PlayerId>>, key: CoordKey): seq<PlayerId>
  {
    if key in groups then groups[key] else []
  }

  /** `indexOf`: the first position of `id`, or -1. */
  function IndexOf(s: seq<PlayerId>, id: PlayerId): (i: int)
    ensures -1 <= i < |s|
    ensures i == -1 <==> id !in s
    ensures 0 <= i ==> s[i] == id && id !in s[..i]
  {
    if |s| == 0 then -1
    else if s[0] == id then 0
    else
      var j := IndexOf(s[1..], id);
      assert j >= 0 ==> s[1..][..j] == s[1..j + 1];
      if j == -1 then -1 else j + 1
  }

  /**
   * The position key `renderShape` looks a marker up under, built from
   * `payload[props.xKey]` and `payload[props.yKey]`: a data key the shape props
   * do not carry (`None`) reads `undefined`, which rounds to NaN like a missing metric.
   */
  function ShapeKey(p: Player, xKey: Option<string>, yKey: Option<string>): (key: CoordKey)
    ensures xKey.Some? && yKey.Some? ==> key == KeyOf(p, xKey.value, yKey.value)
    ensures xKey.None? ==> key.x.None?
    ensures yKey.None? ==> key.y.None?
  {
    CoordKey(if xKey.Some? then RoundedMetric(p, xKey.value) else None,
             if yKey.Some? then RoundedMetric(p, yKey.value) else None)
  }

  /**
   * `renderShape` as a value: the marker of player `p` drawn at (`cx`, `cy`),
   * given the position key it is looked up under, the controls, the selected
   * and the hovered player and the overlap index.
   */
  function ComputeMarker(
    p: Player, cx: real, cy: real, lookup: CoordKey, settings: ViewSettings,
    selected: Option<PlayerId>, hovered: Option<PlayerId>, groups: map<CoordKey, seq<PlayerId>>): (m: MarkerSpec)
    // size and colour: selected before elite-highlighted before the rest
    ensures selected == Some(p.id) ==> m.tier == SelectedTier && m.radius == 1.67 * settings.iconSize as real
    ensures selected != Some(p.id) && p.isElite && settings.highlightElite ==>
              m.tier == EliteTier && m.radius == 1.33 * settings.iconSize as real
    ensures selected != Some(p.id) && !(p.isElite && settings.highlightElite) ==>
              m.tier == DefaultTier && m.radius == settings.iconSize as real
    ensures m.fill == Fill(m.tier) && m.stroke == Stroke(m.tier)
    ensures m.strokeWidth == if m.tier == SelectedTier then 2 else 1
    // the main label: the selected player always, the others by mode when names are on,
    // except that a hovered player's initials give way to its hover label
    ensures m.mainLabel.Some? <==>
              && NameWanted(p, settings, selected)
              && !(settings.labelMode == Initials && hovered == Some(p.id) && selected != Some(p.id))
    ensures m.mainLabel.Some? ==>
              m.mainLabel.value.text ==
                (if settings.labelMode == Initials && selected != Some(p.id) then InitialsOf(p.name) else p.name)
    ensures m.mainLabel.Some? ==>
              && m.mainLabel.value.bold == (selected == Some(p.id) || (p.isElite && settings.highlightElite))
              && m.mainLabel.value.fontSize == (if selected == Some(p.id) then settings.labelSize + 1 else settings.labelSize)
              && m.mainLabel.value.fill == (if selected == Some(p.id) then "#065f46" else "#000")
    // where the main label goes: above the marker, fanned out inside an overlap group
    ensures m.mainLabel.Some? ==>
              var group := GroupAt(groups, lookup);
              var i := IndexOf(group, p.id);
              && (|group| <= 1 || i <= 0 ==> m.mainLabel.value.x == cx && m.mainLabel.value.y == cy - m.radius - 3.0)
              && (|group| > 1 && i > 0 ==>
                    m.mainLabel.value.x == cx + ShiftX(i) && m.mainLabel.value.y == cy - m.radius - 3.0 - 3.0 * i as real)
    ensures m.mainLabel.Some? ==> m.mainLabel.value.y <= cy - m.radius - 3.0
    // the hover label: the full name, above the main label's spot, whatever `showLabels` says
    ensures m.hoverLabel.Some? <==> hovered == Some(p.id) && HoverTracked(settings.labelMode, selected == Some(p.id))
    ensures m.hoverLabel.Some? ==>
              var group := GroupAt(groups, lookup);
              var i := IndexOf(group, p.id);
              && m.hoverLabel.value.x ==
                   (if |group| > 1 && i > 0 && NameWanted(p, settings, selected) then cx + ShiftX(i) else cx)
              && m.hoverLabel.value.text == p.name
              && m.hoverLabel.value.y == cy - m.radius - 10.0
              && m.hoverLabel.value.bold
              && m.hoverLabel.value.fontSize == (if selected == Some(p.id) then settings.labelSize + 1 else settings.labelSize)
              && m.hoverLabel.value.fill == (if selected == Some(p.id) then "#065f46" else "#000")
  {
    var isSelected := selected == Some(p.id);
    var isHovered := hovered == Some(p.id);
    var tier := MarkerTier(p, settings, selected);
    var size := Radius(tier, settings.iconSize);
    var overlapping := GroupAt(groups, lookup);
    var shouldShowLabel := NameWanted(p, settings, selected);
    var anchor := LabelAnchor(cx, cy, size, overlapping, p.id, shouldShowLabel);
    var labelText := if settings.labelMode == Initials && !isSelected then InitialsOf(p.name) else p.name;
    var showInitials := !(settings.labelMode == Initials && isHovered && !isSelected);
    var textFill := if isSelected then "#065f46" else "#000";
    var fontSize := if isSelected then settings.labelSize + 1 else settings.labelSize;
    var main := if shouldShowLabel && showInitials
                then Some(TextLabel(anchor.0, anchor.1, labelText, textFill, fontSize,
                                    isSelected || (p.isElite && settings.highlightElite)))
                else None;
    var hover := if isHovered && HoverTracked(settings.labelMode, isSelected)
                 then Some(TextLabel(anchor.0, cy - size - 10.0, p.name, textFill, fontSize, true))
                 else None;
    MarkerSpec(size, tier, Fill(tier), Stroke(tier), if isSelected then 2 else 1, main, hover)
  }

  /** The look of a marker: selected before elite-highlighted before the rest. */
  function MarkerTier(p: Player, settings: ViewSettings, selected: Option<PlayerId>): (tier: Tier)
    ensures tier == SelectedTier <==> selected == Some(p.id)
    ensures tier == EliteTier <==> selected != Some(p.id) && p.isElite && settings.highlightElite
  {
    if selected == Some(p.id) then SelectedTier
    else if p.isElite && settings.highlightElite then EliteTier
    else DefaultTier
  }

  function Radius(tier: Tier, iconSize: int): real
  {
    match tier
    case SelectedTier => iconSize as real * 1.67
    case EliteTier => iconSize as real * 1.33
    case DefaultTier => iconSize as real
  }

  /**
   * Where a label goes: 3 pixels above the marker, moved sideways and up when
   * the label is shown and its player is not the first of an overlap group.
   */
  function LabelAnchor(cx: real, cy: real, size: real, group: seq<PlayerId>, id: PlayerId, shown: bool): (anchor: (real, real))
    ensures anchor.1 <= cy - size - 3.0
    ensures IndexOf(group, id) <= 0 || |group| <= 1 || !shown ==> anchor == (cx, cy - size - 3.0)
  {
    var index := IndexOf(group, id);
    if |group| > 1 && shown && index > 0 then (cx + ShiftX(index), cy - size - 3.0 - index as real * 3.0)
    else (cx, cy - size - 3.0)
  }

  /** Two labels of one overlap group never share a horizontal shift; index 0 is not shifted. */
  lemma ShiftsDistinct(i: int, j: int)
    requires 0 < i < j
    ensures ShiftX(i) != 0.0
    ensures ShiftX(i) != ShiftX(j)
  {
  }

  /**
   * In "selected" mode, with names on or off and whoever is hovered, the only
   * main label is the selected player's, with the full name.
   */
  lemma SelectedOnlyShowsSelection(
    p: Player, cx: real, cy: real, lookup: CoordKey, settings: ViewSettings,
    selected: Option<PlayerId>, hovered: Option<PlayerId>, groups: map<CoordKey, seq<PlayerId>>)
    requires settings.labelMode == SelectedOnly
    ensures var m := ComputeMarker(p, cx, cy, lookup, settings, selected, hovered, groups);
            && (m.mainLabel.Some? <==> selected == Some(p.id))
            && (m.mainLabel.Some? ==> m.mainLabel.value.text == p.name)
            && m.hoverLabel.None?
  {
  }

  /**
   * Two players filed at the same rounded spot, first and second in the player
   * array, drawn with shape props that carry the axis metrics as their data
   * keys: with all names shown, the first keeps the plain anchor and the
   * second's label moves 10 pixels left and 3 pixels up.
   */
  lemma {:induction false} CoLocatedLabelsFanOut(
    players: seq<Player>, xMetric: string, yMetric: string, groups: map<CoordKey, seq<PlayerId>>,
    settings: ViewSettings, cx: real, cy: real)
    requires |players| >= 2 && players[0].id != players[1].id
    requires KeyOf(players[0], xMetric, yMetric) == KeyOf(players[1], xMetric, yMetric)
    requires KeyOf(players[0], xMetric, yMetric) in groups
    requires forall k :: k in groups ==> groups[k] == GroupIds(players, xMetric, yMetric, k)
    requires settings.showLabels && settings.labelMode == All
    ensures var a := ComputeMarker(players[0], cx, cy, ShapeKey(players[0], Some(xMetric), Some(yMetric)), settings, None, None, groups);
            var b := ComputeMarker(players[1], cx, cy, ShapeKey(players[1], Some(xMetric), Some(yMetric)), settings, None, None, groups);
            && a.mainLabel.Some? && b.mainLabel.Some?
            && a.mainLabel.value.x == cx && a.mainLabel.value.y == cy - a.radius - 3.0
            && b.mainLabel.value.x == cx - 10.0 && b.mainLabel.value.y == cy - b.radius - 6.0
  {
    var k := KeyOf(players[0], xMetric, yMetric);
    var front := players[..2];
    assert players == front + players[2..];
    GroupIdsAppend(front, players[2..], xMetric, yMetric, k);
    var one := front[..1];
    assert one == [players[0]] && one[..0] == [];
    assert GroupIds(one, xMetric, yMetric, k) == [players[0].id];
    assert front[1] == players[1];
    assert GroupIds(front, xMetric, yMetric, k) == [players[0].id, players[1].id];
    var group := groups[k];
    assert group[..2] == [players[0].id, players[1].id];
    assert IndexOf(group, players[0].id) == 0;
    assert IndexOf(group, players[1].id) == 1;
  }

  /**
   * Drawn with shape props that carry no data keys, every marker is looked up
   * under the NaN key. A player with the x metric is not filed there, so its
   * label keeps the plain anchor whoever shares its spot: no label fans out.
   */
  lemma UnsetShapeKeysNeverFanOut(
    players: seq<Player>, i: nat, xMetric: string, yMetric: string, groups: map<CoordKey, seq<PlayerId>>,
    settings: ViewSettings, selected: Option<PlayerId>, hovered: Option<PlayerId>, cx: real, cy: real)
    requires i < |players| && UniqueIds(players) && xMetric in players[i].metrics
    requires forall k :: k in groups ==> groups[k] == GroupIds(players, xMetric, yMetric, k)
    ensures var m := ComputeMarker(players[i], cx, cy, ShapeKey(players[i], None, None), settings, selected, hovered, groups);
            m.mainLabel.Some? ==> m.mainLabel.value.x == cx && m.mainLabel.value.y == cy - m.radius - 3.0
  {
    var k := ShapeKey(players[i], None, None);
    assert k != KeyOf(players[i], xMetric, yMetric);
    GroupOfPlayer(players, xMetric, yMetric, i, k);
    assert IndexOf(GroupAt(groups, k), players[i].id) == -1;
  }

  // ----- The chart's interaction state -----

  /** The chart's own state: the label controls and the player under the pointer. */
  class QuadrantChart {
    var showLabels: bool
    var labelSize: int
    var highlightElite: bool
    var iconSize: int
    var labelMode: LabelMode
    var hoveredPlayer: Option<PlayerId>

    /** The sliders keep the label size in 8..16 and the icon size in 3..12. */
    ghost predicate Valid()
      reads this
    {
      8 <= labelSize <= 16 && 3 <= iconSize <= 12
    }

    function Settings(): ViewSettings
      reads this
    {
      ViewSettings(showLabels, labelSize, highlightElite, iconSize, labelMode)
    }

    constructor ()
      ensures Valid()
      ensures Settings() == ViewSettings(true, 12, true, 6, All)
      ensures hoveredPlayer == None
    {
      showLabels := true;
      labelSize := 12;
      highlightElite := true;
      iconSize := 6;
      labelMode := All;
      hoveredPlayer := None;
    }

    /**
     * The marker of one player under the chart's current state, looked up under
     * the axis metrics: with the sliders in range, the radius stays within
     * 3..20.04 and the label size within 8..17, and only the hovered player
     * carries a hover label.
     */
    function Marker(
      p: Player, cx: real, cy: real, xMetric: string, yMetric: string,
      selected: Option<PlayerId>, groups: map<CoordKey, seq<PlayerId>>): (m: MarkerSpec)
      requires Valid()
      reads this
      ensures 3.0 <= m.radius <= 20.04
      ensures m.mainLabel.Some? ==> 8 <= m.mainLabel.value.fontSize <= 17
      ensures m.hoverLabel.Some? ==> hoveredPlayer == Some(p.id)
    {
      ComputeMarker(p, cx, cy, ShapeKey(p, Some(xMetric), Some(yMetric)), Settings(), selected, hoveredPlayer, groups)
    }

    method SetShowLabels(on: bool)
      modifies this
      ensures Settings() == old(Settings()).(showLabels := on) && hoveredPlayer == old(hoveredPlayer)
      ensures Valid() == old(Valid())
    {
      showLabels := on;
    }

    method SetHighlightElite(on: bool)
      modifies this
      ensures Settings() == old(Settings()).(highlightElite := on) && hoveredPlayer == old(hoveredPlayer)
      ensures Valid() == old(Valid())
    {
      highlightElite := on;
    }

    method SetLabelMode(mode: LabelMode)
      modifies this
      ensures Settings() == old(Settings()).(labelMode := mode) && hoveredPlayer == old(hoveredPlayer)
      ensures Valid() == old(Valid())
    {
      labelMode := mode;
    }

    method SetLabelSize(size: int)
      requires Valid() && 8 <= size <= 16
      modifies this
      ensures Valid()
      ensures Settings() == old(Settings()).(labelSize := size) && hoveredPlayer == old(hoveredPlayer)
    {
      labelSize := size;
    }

    method SetIconSize(size: int)
      requires Valid() && 3 <= size <= 12
      modifies this
      ensures Valid()
      ensures Settings() == old(Settings()).(iconSize := size) && hoveredPlayer == old(hoveredPlayer)
    {
      iconSize := size;
    }

    /** A click on a marker toggles that player's selection; an id of 0 is ignored as falsy. */
    method HandleDotClick(dashboard: Dashboard, clicked: PlayerId)
      modifies dashboard
      ensures dashboard.selectedPlayer ==
                if clicked != 0 then ToggleSelection(old(dashboard.selectedPlayer), clicked)
                else old(dashboard.selectedPlayer)
      ensures dashboard.position == old(dashboard.position)
      ensures dashboard.xMetric == old(dashboard.xMetric) && dashboard.yMetric == old(dashboard.yMetric)
    {
      if clicked != 0 {
        dashboard.SetSelectedPlayer(ToggleSelection(dashboard.selectedPlayer, clicked));
      }
    }

    /** A click on the chart background (outside every marker) clears the selection. */
    method HandleBackgroundClick(dashboard: Dashboard)
      modifies dashboard
      ensures dashboard.selectedPlayer == None
      ensures dashboard.position == old(dashboard.position)
      ensures dashboard.xMetric == old(dashboard.xMetric) && dashboard.yMetric == old(dashboard.yMetric)
    {
      dashboard.SetSelectedPlayer(None);
    }

    /** `handlePlayerHover` */
    method HandlePlayerHover(id: PlayerId, isHovering: bool)
      modifies this
      ensures hoveredPlayer == if isHovering then Some(id) else None
      ensures Settings() == old(Settings())
    {
      hoveredPlayer := if isHovering then Some(id) else None;
    }

    /** The pointer enters player `id`'s marker: tracked only in the hover and initials modes. */
    method MouseEnter(id: PlayerId, selected: Option<PlayerId>)
      modifies this
      ensures hoveredPlayer == Enter(labelMode, selected, old(hoveredPlayer), id)
      ensures Settings() == old(Settings())
    {
      if HoverTracked(labelMode, selected == Some(id)) {
        HandlePlayerHover(id, true);
      }
    }

    /** The pointer leaves a marker: the hover is cleared (see `LeaveAsWritten` for the gated original). */
    method MouseLeave(id: PlayerId)
      modifies this
      ensures hoveredPlayer == None
      ensures Settings() == old(Settings())
    {
      HandlePlayerHover(id, false);
    }
  }

  /** With nobody hovered, no marker carries a hover label. */
  lemma NoHoverLabelWithoutHover(
    p: Player, cx: real, cy: real, lookup: CoordKey, settings: ViewSettings,
    selected: Option<PlayerId>, groups: map<CoordKey, seq<PlayerId>>)
    ensures ComputeMarker(p, cx, cy, lookup, settings, selected, None, groups).hoverLabel.None?
  {
  }

  // ----- The hover left behind by a gated mouse-leave -----

  /** The mouse-leave handler as written: it clears the hover only in the modes where entering sets it. */
  function LeaveAsWritten(mode: LabelMode, selected: Option<PlayerId>, hovered: Option<PlayerId>, id: PlayerId): (after: Option<PlayerId>)
    ensures after == None || after == hovered
    ensures after == hovered <==> hovered == None || !HoverTracked(mode, selected == Some(id))
  {
    if HoverTracked(mode, selected == Some(id)) then None else hovered
  }

  /** The mouse-enter handler: sets the hover only in the modes where it is tracked. */
  function Enter(mode: LabelMode, selected: Option<PlayerId>, hovered: Option<PlayerId>, id: PlayerId): (after: Option<PlayerId>)
    ensures after == Some(id) || after == hovered
    ensures after == Some(id) <==> hovered == Some(id) || HoverTracked(mode, selected == Some(id))
  {
    if HoverTracked(mode, selected == Some(id)) then Some(id) else hovered
  }

  /** Whenever entering would have set the hover, the gated leave clears it like the ungated one. */
  lemma LeaveAgreesWhenTracked(mode: LabelMode, selected: Option<PlayerId>, hovered: Option<PlayerId>, id: PlayerId)
    requires HoverTracked(mode, selected == Some(id))
    ensures LeaveAsWritten(mode, selected, hovered, id) == None
  {
  }

  /**
   * In "initials" mode: point at a player, click it (selected), move away, click
   * the background (deselected). With the gated leave the player is still
   * "hovered": its full-name hover label stays up and its initials stay hidden
   * although the pointer is elsewhere. With the ungated leave both come back right.
   */
  lemma StaleHoverAfterSelectedLeave(p: Player, cx: real, cy: real, lookup: CoordKey, groups: map<CoordKey, seq<PlayerId>>)
    ensures
      var settings := ViewSettings(true, 12, true, 6, Initials);
      var h1 := Enter(Initials, None, None, p.id);
      var s1 := ToggleSelection(None, p.id);
      var h2 := LeaveAsWritten(Initials, s1, h1, p.id);
      var stale := ComputeMarker(p, cx, cy, lookup, settings, None, h2, groups);
      var fixed := ComputeMarker(p, cx, cy, lookup, settings, None, None, groups);
      && h2 == Some(p.id)
      && stale.hoverLabel.Some? && stale.mainLabel.None?
      && fixed.hoverLabel.None? && fixed.mainLabel.Some? && fixed.mainLabel.value.text == InitialsOf(p.name)
  {
  }
}
