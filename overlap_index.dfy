/**
 * The overlap index of the quadrant chart: players are grouped by their two
 * axis values rounded to hundredths, so that labels of players drawn on the
 * same spot can be fanned out.
 */
module OverlapIndex {
  import opened Players
  import opened Collections

  /**
   * The key of a point: both coordinates in hundredths. A missing metric gives
   * NaN in JavaScript, and every NaN coordinate prints the same, so it is one
   * key component of its own (None).
   */
  datatype CoordKey = CoordKey(x: Option<int>, y: Option<int>)

  /** `Math.round(v * 100)`: `v` in hundredths, a half rounded up. */
  function Hundredths(v: real): (h: int)
    ensures v * 100.0 - 0.5 < h as real <= v * 100.0 + 0.5
  {
    Round(v * 100.0)
  }

  /** A coordinate in hundredths; undefined exactly when the player lacks the metric. */
  function RoundedMetric(p: Player, metric: string): (h: Option<int>)
    ensures h.Some? <==> metric in p.metrics
    ensures h.Some? ==> p.metrics[metric] * 100.0 - 0.5 < h.value as real <= p.metrics[metric] * 100.0 + 0.5
  {
    match MetricOf(p, metric)
    case None => None
    case Some(v) => Some(Hundredths(v))
  }

  /** The key under which a player is filed in the overlap index. */
  function KeyOf(p: Player, xMetric: string, yMetric: string): (key: CoordKey)
    ensures key.x.Some? <==> xMetric in p.metrics
    ensures key.y.Some? <==> yMetric in p.metrics
    ensures key.x == RoundedMetric(p, xMetric) && key.y == RoundedMetric(p, yMetric)
  {
    CoordKey(RoundedMetric(p, xMetric), RoundedMetric(p, yMetric))
  }

  /** The ids filed under key `k`, in the order of the player array. */
  function GroupIds(players: seq<Player>, xMetric: string, yMetric: string, k: CoordKey): (ids: seq<PlayerId>)
    ensures |ids| <= |players|
  {
    if |players| == 0 then []
    else
      var last := players[|players| - 1];
      GroupIds(players[..|players| - 1], xMetric, yMetric, k)
        + (if KeyOf(last, xMetric, yMetric) == k then [last.id] else [])
  }

  /** The keys of the index, in the order a JavaScript Map keeps them (first insertion). */
  function DistinctKeys(players: seq<Player>, xMetric: string, yMetric: string): seq<CoordKey>
  {
    if |players| == 0 then []
    else
      var keys := DistinctKeys(players[..|players| - 1], xMetric, yMetric);
      var k := KeyOf(players[|players| - 1], xMetric, yMetric);
      if k in keys then keys else keys + [k]
  }

  /**
   * `playerPositions`: one pass over the players; a key seen for the first time
   * gets an empty list, then the player's id is appended to its key's list.
   */
  method BuildOverlapIndex(players: seq<Player>, xMetric: string, yMetric: string)
    returns (groups: map<CoordKey, seq<PlayerId>>)
    ensures forall k :: k in groups <==> k in DistinctKeys(players, xMetric, yMetric)
    ensures forall k :: k in groups ==> groups[k] == GroupIds(players, xMetric, yMetric, k)
  {
    groups := map[];
    var i := 0;
    while i < |players|
      invariant 0 <= i <= |players|
      invariant Indexes(groups, players[..i], xMetric, yMetric)
    {
      var player := players[i];
      var key := KeyOf(player, xMetric, yMetric);
      ghost var before := groups;
      if key !in groups {
        groups := groups[key := []];
      }
      IndexStep(before, groups, players, i, xMetric, yMetric);
      groups := groups[key := groups[key] + [player.id]];
      i := i + 1;
    }
    assert players[..|players|] == players;
  }

  /** `groups` files exactly the keys of `players`, each with the ids of the players that have it. */
  ghost predicate Indexes(groups: map<CoordKey, seq<PlayerId>>, players: seq<Player>, xMetric: string, yMetric: string)
  {
    && (forall k :: k in groups <==> k in DistinctKeys(players, xMetric, yMetric))
    && (forall k :: k in groups ==> groups[k] == GroupIds(players, xMetric, yMetric, k))
  }

  /** One step of the pass: adding the next player's id under its key keeps the index exact. */
  lemma IndexStep(before: map<CoordKey, seq<PlayerId>>, mid: map<CoordKey, seq<PlayerId>>,
                  players: seq<Player>, i: nat, xMetric: string, yMetric: string)
    requires i < |players| && Indexes(before, players[..i], xMetric, yMetric)
    requires var key := KeyOf(players[i], xMetric, yMetric);
             mid == if key in before then before else before[key := []]
    ensures KeyOf(players[i], xMetric, yMetric) in mid
    ensures var key := KeyOf(players[i], xMetric, yMetric);
            Indexes(mid[key := mid[key] + [players[i].id]], players[..i + 1], xMetric, yMetric)
  {
    var key := KeyOf(players[i], xMetric, yMetric);
    var prefix := players[..i];
    var next := players[..i + 1];
    assert next[..i] == prefix && next[i] == players[i];
    var after := mid[key := mid[key] + [players[i].id]];
    if key !in before {
      GroupOfUnusedKey(prefix, xMetric, yMetric, key);
    }
    forall k ensures k in after <==> k in DistinctKeys(next, xMetric, yMetric) {
    }
    forall k | k in after ensures after[k] == GroupIds(next, xMetric, yMetric, k) {
      assert GroupIds(next, xMetric, yMetric, k)
          == GroupIds(prefix, xMetric, yMetric, k) + (if key == k then [players[i].id] else []);
    }
  }

  /** The keys of the index are exactly the keys of the players. */
  lemma {:induction false} DistinctKeysOfPlayers(players: seq<Player>, xMetric: string, yMetric: string, k: CoordKey)
    ensures k in DistinctKeys(players, xMetric, yMetric)
        <==> exists i :: 0 <= i < |players| && KeyOf(players[i], xMetric, yMetric) == k
  {
    if |players| > 0 {
      var prefix := players[..|players| - 1];
      DistinctKeysOfPlayers(prefix, xMetric, yMetric, k);
      if exists i :: 0 <= i < |players| && KeyOf(players[i], xMetric, yMetric) == k {
        var i :| 0 <= i < |players| && KeyOf(players[i], xMetric, yMetric) == k;
        if i < |players| - 1 {
          assert prefix[i] == players[i];
        }
      }
    }
  }

  /** No key is listed twice. */
  lemma {:induction false} DistinctKeysUnique(players: seq<Player>, xMetric: string, yMetric: string)
    ensures NoDuplicates(DistinctKeys(players, xMetric, yMetric))
  {
    if |players| > 0 {
      DistinctKeysUnique(players[..|players| - 1], xMetric, yMetric);
    }
  }

  /** A key that no player has names an empty group. */
  lemma {:induction false} GroupOfUnusedKey(players: seq<Player>, xMetric: string, yMetric: string, k: CoordKey)
    requires k !in DistinctKeys(players, xMetric, yMetric)
    ensures GroupIds(players, xMetric, yMetric, k) == []
  {
    if |players| > 0 {
      GroupOfUnusedKey(players[..|players| - 1], xMetric, yMetric, k);
    }
  }

  /** Groups follow the player array: the players of a front part come before those of the rest. */
  lemma {:induction false} GroupIdsAppend(a: seq<Player>, b: seq<Player>, xMetric: string, yMetric: string, k: CoordKey)
    ensures GroupIds(a + b, xMetric, yMetric, k) == GroupIds(a, xMetric, yMetric, k) + GroupIds(b, xMetric, yMetric, k)
  {
    if |b| == 0 {
      assert a + b == a;
    } else {
      var b' := b[..|b| - 1];
      assert (a + b)[..|a + b| - 1] == a + b';
      GroupIdsAppend(a, b', xMetric, yMetric, k);
    }
  }

  /** Every id in a group belongs to a player filed under that group's key. */
  lemma {:induction false} GroupIdsSound(players: seq<Player>, xMetric: string, yMetric: string, k: CoordKey, id: PlayerId)
    requires id in GroupIds(players, xMetric, yMetric, k)
    ensures exists i :: 0 <= i < |players| && players[i].id == id && KeyOf(players[i], xMetric, yMetric) == k
  {
    var prefix := players[..|players| - 1];
    if id in GroupIds(prefix, xMetric, yMetric, k) {
      GroupIdsSound(prefix, xMetric, yMetric, k, id);
      var i :| 0 <= i < |prefix| && prefix[i].id == id && KeyOf(prefix[i], xMetric, yMetric) == k;
      assert players[i] == prefix[i];
    }
  }

  predicate UniqueIds(players: seq<Player>)
  {
    forall i, j :: 0 <= i < j < |players| ==> players[i].id != players[j].id
  }

  /**
   * With distinct ids every player lands in exactly one group: the one keyed
   * by its own rounded coordinates.
   */
  lemma {:induction false} GroupOfPlayer(players: seq<Player>, xMetric: string, yMetric: string, i: nat, k: CoordKey)
    requires i < |players| && UniqueIds(players)
    ensures players[i].id in GroupIds(players, xMetric, yMetric, k) <==> k == KeyOf(players[i], xMetric, yMetric)
  {
    var n := |players|;
    var prefix := players[..n - 1];
    var p := players[n - 1];
    assert UniqueIds(prefix);
    if i < n - 1 {
      assert prefix[i] == players[i];
      GroupOfPlayer(prefix, xMetric, yMetric, i, k);
    } else {
      forall j | 0 <= j < |prefix| ensures prefix[j].id != p.id {
        assert prefix[j] == players[j];
      }
      AbsentIdNotGrouped(prefix, xMetric, yMetric, k, p.id);
    }
  }

  lemma {:induction false} AbsentIdNotGrouped(players: seq<Player>, xMetric: string, yMetric: string, k: CoordKey, id: PlayerId)
    requires forall j :: 0 <= j < |players| ==> players[j].id != id
    ensures id !in GroupIds(players, xMetric, yMetric, k)
  {
    if |players| > 0 {
      AbsentIdNotGrouped(players[..|players| - 1], xMetric, yMetric, k, id);
    }
  }

  /** The sizes of the groups listed under `keys`, added up. */
  function TotalSize(players: seq<Player>, xMetric: string, yMetric: string, keys: seq<CoordKey>): nat
  {
    if |keys| == 0 then 0
    else |GroupIds(players, xMetric, yMetric, keys[0])| + TotalSize(players, xMetric, yMetric, keys[1..])
  }

  function Occurrences(keys: seq<CoordKey>, k: CoordKey): nat
  {
    if |keys| == 0 then 0 else (if keys[0] == k then 1 else 0) + Occurrences(keys[1..], k)
  }

  lemma {:induction false} OccurrencesInDistinct(keys: seq<CoordKey>, k: CoordKey)
    requires NoDuplicates(keys)
    ensures Occurrences(keys, k) == if k in keys then 1 else 0
  {
    if |keys| > 0 {
      assert NoDuplicates(keys[1..]);
      OccurrencesInDistinct(keys[1..], k);
      if keys[0] == k {
        assert k !in keys[1..];
      }
    }
  }

  /** One more player adds one id to each listed occurrence of its key. */
  lemma {:induction false} TotalSizeAddPlayer(players: seq<Player>, xMetric: string, yMetric: string, keys: seq<CoordKey>)
    requires |players| > 0
    ensures TotalSize(players, xMetric, yMetric, keys)
         == TotalSize(players[..|players| - 1], xMetric, yMetric, keys)
            + Occurrences(keys, KeyOf(players[|players| - 1], xMetric, yMetric))
  {
    if |keys| > 0 {
      TotalSizeAddPlayer(players, xMetric, yMetric, keys[1..]);
    }
  }

  lemma {:induction false} TotalSizeAppendKey(players: seq<Player>, xMetric: string, yMetric: string, keys: seq<CoordKey>, k: CoordKey)
    ensures TotalSize(players, xMetric, yMetric, keys + [k])
         == TotalSize(players, xMetric, yMetric, keys) + |GroupIds(players, xMetric, yMetric, k)|
  {
    if |keys| == 0 {
      assert keys + [k] == [k];
    } else {
      assert (keys + [k])[1..] == keys[1..] + [k];
      TotalSizeAppendKey(players, xMetric, yMetric, keys[1..], k);
    }
  }

  /** The groups of the index together hold exactly as many ids as there are players. */
  lemma {:induction false} GroupsCoverPlayers(players: seq<Player>, xMetric: string, yMetric: string)
    ensures TotalSize(players, xMetric, yMetric, DistinctKeys(players, xMetric, yMetric)) == |players|
  {
    if |players| > 0 {
      var prefix := players[..|players| - 1];
      var p := players[|players| - 1];
      var c := KeyOf(p, xMetric, yMetric);
      var keys := DistinctKeys(prefix, xMetric, yMetric);
      GroupsCoverPlayers(prefix, xMetric, yMetric);
      DistinctKeysUnique(prefix, xMetric, yMetric);
      OccurrencesInDistinct(keys, c);
      TotalSizeAddPlayer(players, xMetric, yMetric, keys);
      if c !in keys {
        TotalSizeAppendKey(players, xMetric, yMetric, keys, c);
        GroupOfUnusedKey(prefix, xMetric, yMetric, c);
      }
    }
  }
}
