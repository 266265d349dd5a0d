/**
 * The reference lines of the quadrant chart: for each axis, the value at index
 * floor(n/2) of the players' metric values sorted ascending (for an even count
 * this is the upper of the two middle values); undefined when there are no players.
 */
module QuadrantMedian {
  import opened Players
  import opened Sorting

  /** How many values lie strictly below `m`. */
  function CountBelow(s: seq<real>, m: real): (c: nat)
    ensures c <= |s|
  {
    if |s| == 0 then 0 else (if s[0] < m then 1 else 0) + CountBelow(s[1..], m)
  }

  /** How many values lie strictly above `m`. */
  function CountAbove(s: seq<real>, m: real): (c: nat)
    ensures c <= |s|
  {
    if |s| == 0 then 0 else (if s[0] > m then 1 else 0) + CountAbove(s[1..], m)
  }

  /**
   * `m` is the value that ascending sorting puts at index `k`: it is one of the
   * values, at most `k` values are smaller and at most `|values| - 1 - k` are larger.
   */
  ghost predicate IsOrderStatistic(values: seq<real>, k: nat, m: real)
  {
    && m in values
    && CountBelow(values, m) <= k
    && CountAbove(values, m) <= |values| - 1 - k
  }

  /** The value at index floor(n/2) of the ascending order. */
  ghost predicate IsMedian(values: seq<real>, m: real)
  {
    IsOrderStatistic(values, |values| / 2, m)
  }

  ghost predicate SortedAscending(s: seq<real>)
  {
    forall i, j :: 0 <= i < j < |s| ==> s[i] <= s[j]
  }

  /** `players.map((player) => player[metric])`: None where the metric is undefined. */
  function AxisValues(players: seq<Player>, metric: string): (values: seq<Option<real>>)
    ensures |values| == |players|
    ensures forall i :: 0 <= i < |players| ==> (values[i].None? <==> metric !in players[i].metrics)
  {
    seq(|players|, i requires 0 <= i < |players| => MetricOf(players[i], metric))
  }

  /** The defined entries, in order. */
  function Defined(values: seq<Option<real>>): (defined: seq<real>)
    ensures |defined| <= |values|
  {
    if |values| == 0 then []
    else (if values[0].Some? then [values[0].value] else []) + Defined(values[1..])
  }

  /**
   * The median of one axis. JavaScript's sort moves undefined entries to the
   * end and orders the rest with the comparator, so the sorted copy is the
   * defined values ascending followed by the undefined ones: index floor(n/2)
   * holds a value when it falls among the defined values and is undefined
   * otherwise (in particular for no players at all).
   */
  method AxisMedian(players: seq<Player>, metric: string) returns (median: Option<real>)
    ensures median.Some? <==> |players| / 2 < |Defined(AxisValues(players, metric))|
    ensures median.Some? ==>
              IsOrderStatistic(Defined(AxisValues(players, metric)), |players| / 2, median.value)
  {
    var values := Defined(AxisValues(players, metric));
    var a := new real[|values|](i requires 0 <= i < |values| => values[i]);
    assert a[..] == values;
    SortBy(a, (v: real) => v, Asc);
    var middle := |players| / 2;
    if middle < a.Length {
      median := Some(a[middle]);
      SortedIsOrderStatistic(a[..], values, middle);
    } else {
      median := None;
    }
  }

  /** When every player has the metric, all values are defined and the median is defined exactly for a non-empty list. */
  lemma {:induction false} AllDefined(players: seq<Player>, metric: string)
    requires forall i :: 0 <= i < |players| ==> metric in players[i].metrics
    ensures Defined(AxisValues(players, metric)) == seq(|players|, i requires 0 <= i < |players| => players[i].metrics[metric])
    ensures |players| / 2 < |Defined(AxisValues(players, metric))| <==> |players| > 0
  {
    DefinedAllSome(AxisValues(players, metric));
  }

  lemma {:induction false} DefinedAllSome(values: seq<Option<real>>)
    requires forall i :: 0 <= i < |values| ==> values[i].Some?
    ensures Defined(values) == seq(|values|, i requires 0 <= i < |values| => values[i].value)
  {
    if |values| > 0 {
      DefinedAllSome(values[1..]);
    }
  }

  /** The element at index `k` of a sorted permutation of `values` is their order statistic `k`. */
  lemma SortedIsOrderStatistic(s: seq<real>, values: seq<real>, k: nat)
    requires k < |s|
    requires SortedBy(s, (v: real) => v, Asc)
    requires multiset(s) == multiset(values)
    ensures IsOrderStatistic(values, k, s[k])
  {
    assert SortedAscending(s) by {
      forall i, j | 0 <= i < j < |s| ensures s[i] <= s[j] {
        assert InOrder(Asc, ((v: real) => v)(s[i]), ((v: real) => v)(s[j]));
      }
    }
    assert |values| == |s| by {
      calc {
        |values|;
        |multiset(values)|;
        |multiset(s)|;
        |s|;
      }
    }
    assert s[k] in multiset(s);
    SortedCountBelow(s, k);
    SortedCountAbove(s, k);
    CountsOfPermutation(s, values, s[k]);
  }

  /** In a sorted sequence at most `k` elements lie below the one at index `k`. */
  lemma {:induction false} SortedCountBelow(s: seq<real>, k: nat)
    requires k < |s| && SortedAscending(s)
    ensures CountBelow(s, s[k]) <= k
  {
    if k == 0 {
      NoneBelow(s, s[0]);
    } else {
      assert SortedAscending(s[1..]);
      SortedCountBelow(s[1..], k - 1);
    }
  }

  lemma {:induction false} NoneBelow(s: seq<real>, m: real)
    requires forall i :: 0 <= i < |s| ==> m <= s[i]
    ensures CountBelow(s, m) == 0
  {
    if |s| > 0 {
      NoneBelow(s[1..], m);
    }
  }

  /** In a sorted sequence at most `|s| - 1 - k` elements lie above the one at index `k`. */
  lemma {:induction false} SortedCountAbove(s: seq<real>, k: nat)
    requires k < |s| && SortedAscending(s)
    ensures CountAbove(s, s[k]) <= |s| - 1 - k
  {
    if k == |s| - 1 {
      NoneAbove(s, s[k]);
    } else {
      assert SortedAscending(s[..|s| - 1]);
      SortedCountAbove(s[..|s| - 1], k);
      CountAboveAppend(s[..|s| - 1], [s[|s| - 1]], s[k]);
      assert s[..|s| - 1] + [s[|s| - 1]] == s;
    }
  }

  lemma {:induction false} NoneAbove(s: seq<real>, m: real)
    requires forall i :: 0 <= i < |s| ==> s[i] <= m
    ensures CountAbove(s, m) == 0
  {
    if |s| > 0 {
      NoneAbove(s[1..], m);
    }
  }

  lemma {:induction false} CountBelowAppend(a: seq<real>, b: seq<real>, m: real)
    ensures CountBelow(a + b, m) == CountBelow(a, m) + CountBelow(b, m)
  {
    if |a| == 0 {
      assert a + b == b;
    } else {
      assert (a + b)[1..] == a[1..] + b;
      CountBelowAppend(a[1..], b, m);
    }
  }

  lemma {:induction false} CountAboveAppend(a: seq<real>, b: seq<real>, m: real)
    ensures CountAbove(a + b, m) == CountAbove(a, m) + CountAbove(b, m)
  {
    if |a| == 0 {
      assert a + b == b;
    } else {
      assert (a + b)[1..] == a[1..] + b;
      CountAboveAppend(a[1..], b, m);
    }
  }

  /** Reordering the values changes neither count, so the median does not depend on the players' order. */
  lemma {:induction false} CountsOfPermutation(a: seq<real>, b: seq<real>, m: real)
    requires multiset(a) == multiset(b)
    ensures CountBelow(a, m) == CountBelow(b, m)
    ensures CountAbove(a, m) == CountAbove(b, m)
  {
    if |a| == 0 {
      assert |b| == |multiset(b)| == 0;
    } else {
      assert a[0] in multiset(b);
      var j :| 0 <= j < |b| && b[j] == a[0];
      var rest := b[..j] + b[j + 1..];
      RemoveAt(b, j);
      assert a == [a[0]] + a[1..];
      assert multiset(a[1..]) == multiset(rest);
      CountsOfPermutation(a[1..], rest, m);
      CountsRemoveAt(b, j, m);
    }
  }

  lemma RemoveAt(b: seq<real>, j: nat)
    requires j < |b|
    ensures multiset(b[..j] + b[j + 1..]) == multiset(b) - multiset{b[j]}
  {
    assert b == b[..j] + [b[j]] + b[j + 1..];
  }

  lemma CountsRemoveAt(b: seq<real>, j: nat, m: real)
    requires j < |b|
    ensures CountBelow(b, m) == (if b[j] < m then 1 else 0) + CountBelow(b[..j] + b[j + 1..], m)
    ensures CountAbove(b, m) == (if b[j] > m then 1 else 0) + CountAbove(b[..j] + b[j + 1..], m)
  {
    assert b == b[..j] + ([b[j]] + b[j + 1..]);
    CountBelowAppend(b[..j], [b[j]] + b[j + 1..], m);
    CountBelowAppend([b[j]], b[j + 1..], m);
    CountBelowAppend(b[..j], b[j + 1..], m);
    CountAboveAppend(b[..j], [b[j]] + b[j + 1..], m);
    CountAboveAppend([b[j]], b[j + 1..], m);
    CountAboveAppend(b[..j], b[j + 1..], m);
  }

  /** Every value lies below `hi` or above `lo` when `lo < hi`. */
  lemma {:induction false} CountsCover(s: seq<real>, lo: real, hi: real)
    requires lo < hi
    ensures CountBelow(s, hi) + CountAbove(s, lo) >= |s|
  {
    if |s| > 0 {
      CountsCover(s[1..], lo, hi);
    }
  }

  /**
   * For an even count the median is the upper of the two middle values of the
   * ascending order; the lower one is the median only when the two are equal.
   */
  lemma EvenCountTakesUpperMiddle(s: seq<real>, values: seq<real>)
    requires |s| > 0 && |s| % 2 == 0
    requires SortedBy(s, (v: real) => v, Asc) && multiset(s) == multiset(values)
    ensures IsMedian(values, s[|s| / 2])
    ensures IsMedian(values, s[|s| / 2 - 1]) ==> s[|s| / 2 - 1] == s[|s| / 2]
  {
    assert |values| == |multiset(values)| == |s|;
    SortedIsOrderStatistic(s, values, |s| / 2);
    if IsMedian(values, s[|s| / 2 - 1]) {
      OrderStatisticUnique(values, |s| / 2, s[|s| / 2 - 1], s[|s| / 2]);
    }
  }

  /** Two values: the median is the larger one. */
  lemma TwoValuesMedian()
    ensures IsMedian([1.0, 2.0], 2.0)
    ensures !IsMedian([1.0, 2.0], 1.0)
  {
    assert [1.0, 2.0][1..] == [2.0] && [2.0][1..] == [];
  }

  /** The order statistic is unique: two values that both satisfy `IsOrderStatistic` for the same index are equal. */
  lemma OrderStatisticUnique(values: seq<real>, k: nat, m1: real, m2: real)
    requires IsOrderStatistic(values, k, m1) && IsOrderStatistic(values, k, m2)
    ensures m1 == m2
  {
    if m1 < m2 {
      CountsCover(values, m1, m2);
    } else if m2 < m1 {
      CountsCover(values, m2, m1);
    }
  }
}
