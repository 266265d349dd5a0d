/** The player record the three components read, and the selection rule they share. */
module Players {

  datatype Option<+T> = None | Some(value: T)

  /** Player ids are numbers; JavaScript treats the id 0 as falsy. */
  type PlayerId = int

  /**
   * One row of the player dataset: identity fields, the elite flag stored with
   * the data, and the named numeric metrics (a key that is absent is `undefined`).
   */
  datatype Player = Player(
    id: PlayerId,
    name: string,
    team: string,
    position: string,
    isElite: bool,
    metrics: map<string, real>)

  /** `player[key]`: the metric value, or None where JavaScript yields `undefined`. */
  function MetricOf(p: Player, key: string): (value: Option<real>)
    ensures value.Some? <==> key in p.metrics
    ensures value.Some? ==> value.value == p.metrics[key]
  {
    if key in p.metrics then Some(p.metrics[key]) else None
  }

  /**
   * Clicking a player (a dot or a table row): clicking the selected player
   * deselects it, clicking any other player selects that one.
   */
  function ToggleSelection(current: Option<PlayerId>, id: PlayerId): (r: Option<PlayerId>)
    ensures r == None <==> current == Some(id)
    ensures r != None ==> r == Some(id)
  {
    if current == Some(id) then None else Some(id)
  }

  /**
   * Clicking the same player twice gives back the earlier selection exactly
   * when nobody or that player was selected; from another player's selection
   * two clicks end with no selection.
   */
  lemma ToggleTwice(current: Option<PlayerId>, id: PlayerId)
    ensures ToggleSelection(ToggleSelection(current, id), id) == current
        <==> current == None || current == Some(id)
    ensures ToggleSelection(ToggleSelection(current, id), id) == None
        <==> current != Some(id)
  {
  }
}
