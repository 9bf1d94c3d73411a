/**
  The health scorer: `calculate_glucose_score` (band lookup per checkpoint),
  `calculate_nutrient_score` (the +-20% window) and `calculate_health_score`
  (their capped weighted sum).
*/
module HealthScore {
  import opened Wrappers

  /** The five band names of `glucose_ranges`, in the dictionary's order. */
  datatype Grade = Normal | Good | Fair | Poor | VeryPoor

  /** An upper bound; `float("inf")` is `Infinite`. */
  datatype Bound = Finite(value: real) | Infinite

  datatype Band = Band(grade: Grade, lower: real, upper: Bound)

  /** `score_rules`. */
  function Points(l: Grade): int
  {
    match l
    case Normal => 10
    case Good => 8
    case Fair => 6
    case Poor => 4
    case VeryPoor => 0
  }

  /** `lower <= glucose <= upper`. */
  predicate Contains(b: Band, g: real)
  {
    b.lower <= g && (b.upper.Infinite? || g <= b.upper.value)
  }

  /** Type-II postprandial ranges at 60, 120 and 180 minutes (mmol/L). */
  const Ranges60: seq<Band> := [
    Band(Normal, 6.7, Finite(8.3)), Band(Good, 8.3, Finite(9.9)), Band(Fair, 10.0, Finite(12.7)),
    Band(Poor, 12.7, Finite(16.1)), Band(VeryPoor, 16.6, Infinite)]
  const Ranges120: seq<Band> := [
    Band(Normal, 5.0, Finite(7.2)), Band(Good, 7.2, Finite(8.8)), Band(Fair, 8.9, Finite(11.0)),
    Band(Poor, 11.1, Finite(15.3)), Band(VeryPoor, 15.5, Infinite)]
  const Ranges180: seq<Band> := [
    Band(Normal, 4.4, Finite(6.7)), Band(Good, 6.7, Finite(8.2)), Band(Fair, 8.3, Finite(9.9)),
    Band(Poor, 8.3, Finite(14.4)), Band(VeryPoor, 14.4, Infinite)]

  /** The table of checkpoint `i` (0, 1, 2 for "60", "120", "180"). */
  function Ranges(i: nat): seq<Band>
    requires i < 3
  {
    if i == 0 then Ranges60 else if i == 1 then Ranges120 else Ranges180
  }

  /** The grade of the first band, in table order, whose closed interval holds
      `g`: overlapping bounds go to the earlier band. */
  function FirstBand(bands: seq<Band>, g: real): Option<Grade>
    decreases |bands|
  {
    if bands == [] then None
    else if Contains(bands[0], g) then Some(bands[0].grade)
    else FirstBand(bands[1..], g)
  }

  /** `FirstBand` finds the earliest band holding the value, and finds none
      exactly when no band holds it. */
  lemma {:induction false} FirstBandSpec(bands: seq<Band>, g: real)
    ensures var r := FirstBand(bands, g);
      (r.Some? ==> exists i :: 0 <= i < |bands| && bands[i].grade == r.value && Contains(bands[i], g) &&
                     forall j :: 0 <= j < i ==> !Contains(bands[j], g)) &&
      (r.None? <==> forall i :: 0 <= i < |bands| ==> !Contains(bands[i], g))
    decreases |bands|
  {
    if bands != [] && !Contains(bands[0], g) {
      var rest := bands[1..];
      FirstBandSpec(rest, g);
      var r := FirstBand(bands, g);
      assert r == FirstBand(rest, g);
      if r.Some? {
        var i :| 0 <= i < |rest| && rest[i].grade == r.value && Contains(rest[i], g) &&
                 forall j :: 0 <= j < i ==> !Contains(rest[j], g);
        assert bands[i + 1] == rest[i];
        forall j | 0 <= j < i + 1
          ensures !Contains(bands[j], g)
        {
          if j > 0 {
            assert bands[j] == rest[j - 1];
          }
        }
      } else {
        forall i | 0 <= i < |bands|
          ensures !Contains(bands[i], g)
        {
          if i > 0 {
            assert bands[i] == rest[i - 1];
          }
        }
      }
    }
  }

  /** The points a checkpoint value earns, or `None` when no band holds it. */
  function CheckpointScore(i: nat, g: real): (r: Option<int>)
    requires i < 3
    ensures r.Some? ==> r.value in {10, 8, 6, 4, 0}
  {
    match FirstBand(Ranges(i), g)
    case Some(l) => Some(Points(l))
    case None => None
  }

  /** The `scores` list after the first `n` checkpoints: unscored values are
      skipped. */
  function Scored(predicted: seq<real>, n: nat): seq<int>
    requires n <= 3 <= |predicted|
  {
    if n == 0 then [] else Scored(predicted, n - 1) + AsList(CheckpointScore(n - 1, predicted[n - 1]))
  }

  function AsList(o: Option<int>): seq<int>
  {
    match o
    case Some(v) => [v]
    case None => []
  }

  function Sum(s: seq<int>): int
  {
    if s == [] then 0 else Sum(s[..|s| - 1]) + s[|s| - 1]
  }

  /** The glucose score: the mean of the scored checkpoints, or `None` for the
      ZeroDivisionError raised when none is scored. */
  function GlucoseScoreOf(predicted: seq<real>): Option<real>
    requires 3 <= |predicted|
  {
    var scores := Scored(predicted, 3);
    if |scores| == 0 then None else Some(Sum(scores) as real / |scores| as real)
  }

  /** `calculate_glucose_score`: for each checkpoint, walk its bands in order
      and append the points of the first one that holds the value. */
  method CalculateGlucoseScore(predicted: seq<real>) returns (r: Option<real>)
    requires 3 <= |predicted|
    ensures r == GlucoseScoreOf(predicted)
  {
    var scores: seq<int> := [];
    for i := 0 to 3
      invariant scores == Scored(predicted, i)
    {
      var bands := Ranges(i);
      var glucose := predicted[i];
      for j := 0 to |bands|
        invariant scores == Scored(predicted, i)
        invariant FirstBand(bands[j..], glucose) == FirstBand(bands, glucose)
      {
        if Contains(bands[j], glucose) {
          scores := scores + [Points(bands[j].grade)];
          break;
        }
        assert bands[j..][1..] == bands[j + 1..];
      }
    }
    if |scores| == 0 {
      r := None;
    } else {
      r := Some(Sum(scores) as real / |scores| as real);
    }
  }

  /** Every checkpoint score is one of the five band points, and there is at
      most one per checkpoint. */
  lemma {:induction false} ScoredArePoints(predicted: seq<real>, n: nat)
    requires n <= 3 <= |predicted|
    ensures forall k :: 0 <= k < |Scored(predicted, n)| ==> Scored(predicted, n)[k] in {10, 8, 6, 4, 0}
    ensures |Scored(predicted, n)| <= n
  {
    if n > 0 {
      ScoredArePoints(predicted, n - 1);
      var front := Scored(predicted, n - 1);
      var o := CheckpointScore(n - 1, predicted[n - 1]);
      var all := Scored(predicted, n);
      assert all == front + AsList(o);
      if o.Some? {
        assert all == front + [o.value];
        forall k | 0 <= k < |all|
          ensures all[k] in {10, 8, 6, 4, 0}
        {
          if k < |front| {
            assert all[k] == front[k];
          }
        }
      }
    }
  }

  /** The `scores` list is empty exactly when no checkpoint is scored. */
  lemma {:induction false} ScoredEmpty(predicted: seq<real>, n: nat)
    requires n <= 3 <= |predicted|
    ensures |Scored(predicted, n)| == 0 <==> forall i :: 0 <= i < n ==> CheckpointScore(i, predicted[i]).None?
  {
    if n > 0 {
      ScoredEmpty(predicted, n - 1);
      var o := CheckpointScore(n - 1, predicted[n - 1]);
      assert Scored(predicted, n) == Scored(predicted, n - 1) + AsList(o);
      if o.Some? {
        assert |Scored(predicted, n)| > 0;
        assert !CheckpointScore(n - 1, predicted[n - 1]).None?;
      } else if |Scored(predicted, n - 1)| == 0 {
        assert |Scored(predicted, n)| == 0;
        forall i | 0 <= i < n
          ensures CheckpointScore(i, predicted[i]).None?
        {
        }
      } else {
        assert |Scored(predicted, n)| > 0;
        var i :| 0 <= i < n - 1 && !CheckpointScore(i, predicted[i]).None?;
      }
    }
  }

  lemma {:induction false} SumBounds(s: seq<int>)
    requires forall k :: 0 <= k < |s| ==> 0 <= s[k] <= 10
    ensures 0 <= Sum(s) <= 10 * |s|
  {
    if s != [] {
      SumBounds(s[..|s| - 1]);
    }
  }

  /** The glucose score is `None` exactly when every checkpoint is unscored. */
  lemma GlucoseScoreUndefined(predicted: seq<real>)
    requires 3 <= |predicted|
    ensures GlucoseScoreOf(predicted).None? <==>
      forall i :: 0 <= i < 3 ==> CheckpointScore(i, predicted[i]).None?
  {
    ScoredEmpty(predicted, 3);
  }

  /** When at least one checkpoint is scored, the glucose score lies in [0, 10]. */
  lemma GlucoseScoreRange(predicted: seq<real>)
    requires 3 <= |predicted|
    ensures GlucoseScoreOf(predicted).Some? ==> 0.0 <= GlucoseScoreOf(predicted).value <= 10.0
  {
    var scores := Scored(predicted, 3);
    ScoredArePoints(predicted, 3);
    SumBounds(scores);
    if |scores| > 0 {
      MeanBounds(Sum(scores), |scores|);
    }
  }

  lemma MeanBounds(total: int, n: nat)
    requires 0 < n && 0 <= total <= 10 * n
    ensures 0.0 <= total as real / n as real <= 10.0
  {
    var m := n as real;
    assert total as real <= 10.0 * m;
    assert total as real / m <= 10.0 * m / m;
  }

  /** First match wins where bands touch or overlap: 8.3 at 60 minutes is
      normal, and every 180-minute value in [8.3, 9.9] is fair, never poor. */
  lemma OverlapsGoToEarlierBand(g: real)
    requires 8.3 <= g <= 9.9
    ensures CheckpointScore(0, 8.3) == Some(10)
    ensures CheckpointScore(2, g) == Some(6)
  {
  }

  /** Values below the normal band, and values in the gaps between bands,
      earn no points. */
  lemma GapsAreUnscored(g: real)
    ensures g < 6.7 || 9.9 < g < 10.0 || 16.1 < g < 16.6 ==> CheckpointScore(0, g).None?
    ensures g < 5.0 || 8.8 < g < 8.9 || 11.0 < g < 11.1 || 15.3 < g < 15.5 ==> CheckpointScore(1, g).None?
    ensures g < 4.4 || 8.2 < g < 8.3 ==> CheckpointScore(2, g).None?
  {
    if g < 6.7 || 9.9 < g < 10.0 || 16.1 < g < 16.6 {
      Unscored(Ranges60, g);
    }
    if g < 5.0 || 8.8 < g < 8.9 || 11.0 < g < 11.1 || 15.3 < g < 15.5 {
      Unscored(Ranges120, g);
    }
    if g < 4.4 || 8.2 < g < 8.3 {
      Unscored(Ranges180, g);
    }
  }

  /** A value outside all five bands of a table is unscored there. */
  lemma Unscored(bands: seq<Band>, g: real)
    requires |bands| == 5
    requires !Contains(bands[0], g) && !Contains(bands[1], g) && !Contains(bands[2], g)
    requires !Contains(bands[3], g) && !Contains(bands[4], g)
    ensures FirstBand(bands, g).None?
  {
    FirstBandSpec(bands, g);
    forall k | 0 <= k < |bands|
      ensures !Contains(bands[k], g)
    {
      if k == 0 {} else if k == 1 {} else if k == 2 {} else if k == 3 {} else {}
    }
  }

  /** (7.5, 6.0, 5.5) lies in the normal band at every checkpoint. */
  lemma AllNormalScoresTen()
    ensures GlucoseScoreOf([7.5, 6.0, 5.5]) == Some(10.0)
  {
    var p := [7.5, 6.0, 5.5];
    assert CheckpointScore(0, 7.5) == Some(10);
    assert CheckpointScore(1, 6.0) == Some(10);
    assert CheckpointScore(2, 5.5) == Some(10);
    assert Scored(p, 3) == [10, 10, 10];
    assert Sum([10, 10, 10]) == 30 by {
      assert [10, 10, 10][..2] == [10, 10];
      assert [10, 10][..1] == [10];
      assert [10][..0] == [];
    }
  }

  /** One `(nutrient, value)` item of the combination's nutrition, in the
      dictionary's order. */
  type Item = (string, real)

  predicate ZeroNeed(item: Item, needs: map<string, real>)
  {
    item.0 in needs && needs[item.0] == 0.0
  }

  /** A matched nutrient whose `value / need` lies in [0.8, 1.2]. */
  predicate Hit(item: Item, needs: map<string, real>)
  {
    item.0 in needs && needs[item.0] != 0.0 && 0.8 <= item.1 / needs[item.0] <= 1.2
  }

  function Hits(items: seq<Item>, needs: map<string, real>): nat
  {
    if items == [] then 0
    else Hits(items[..|items| - 1], needs) + (if Hit(items[|items| - 1], needs) then 1 else 0)
  }

  /** The number of nutrients present in both the nutrition and the needs. */
  function Matched(items: seq<Item>, needs: map<string, real>): nat
  {
    if items == [] then 0
    else Matched(items[..|items| - 1], needs) + (if items[|items| - 1].0 in needs then 1 else 0)
  }

  /** The nutrient score: 2.5 per hit, or `None` for the ZeroDivisionError of a
      matched nutrient whose need is 0. */
  function NutrientScoreOf(items: seq<Item>, needs: map<string, real>): Option<real>
  {
    if exists k :: 0 <= k < |items| && ZeroNeed(items[k], needs) then None
    else Some(2.5 * Hits(items, needs) as real)
  }

  lemma {:induction false} HitsAtMostMatched(items: seq<Item>, needs: map<string, real>)
    ensures Hits(items, needs) <= Matched(items, needs)
  {
    if items != [] {
      HitsAtMostMatched(items[..|items| - 1], needs);
    }
  }

  /** `calculate_nutrient_score`, given the per-meal needs as a map: add 2.5 for
      each matched nutrient within +-20% of its need. */
  method CalculateNutrientScore(items: seq<Item>, needs: map<string, real>) returns (r: Option<real>)
    ensures r == NutrientScoreOf(items, needs)
    ensures r.None? <==> exists k :: 0 <= k < |items| && ZeroNeed(items[k], needs)
    ensures r.Some? ==> 0.0 <= r.value <= 2.5 * Matched(items, needs) as real
  {
    var score := 0.0;
    for i := 0 to |items|
      invariant score == 2.5 * Hits(items[..i], needs) as real
      invariant forall k :: 0 <= k < i ==> !ZeroNeed(items[k], needs)
    {
      assert items[..i + 1][..i] == items[..i];
      var (nutrient, value) := items[i];
      if nutrient in needs {
        if needs[nutrient] == 0.0 {
          return None;
        }
        var ratio := value / needs[nutrient];
        if ratio >= 0.8 && ratio <= 1.2 {
          score := score + 2.5;
        }
      }
    }
    assert items[..|items|] == items;
    HitsAtMostMatched(items, needs);
    r := Some(score);
  }

  /** `calculate_health_score`'s combination: `min(0.6 g + 0.4 n, 10)`. */
  function Composite(glucose: real, nutrient: real): (r: real)
    ensures r <= 10.0 && r <= 0.6 * glucose + 0.4 * nutrient
    ensures r == 10.0 || r == 0.6 * glucose + 0.4 * nutrient
  {
    var s := 0.6 * glucose + 0.4 * nutrient;
    if s <= 10.0 then s else 10.0
  }

  /** The composite never decreases when either score grows. */
  lemma CompositeMonotone(g1: real, n1: real, g2: real, n2: real)
    requires g1 <= g2 && n1 <= n2
    ensures Composite(g1, n1) <= Composite(g2, n2)
  {
  }

  /** `calculate_health_score` with the needs given as a map: `None` when either
      part divides by zero; a score that exists lies in [0, 10]. */
  function CalculateHealthScore(predicted: seq<real>, items: seq<Item>, needs: map<string, real>): (r: Option<real>)
    requires 3 <= |predicted|
    ensures r.None? <==> GlucoseScoreOf(predicted).None? || NutrientScoreOf(items, needs).None?
    ensures r.Some? ==> r.value == Composite(GlucoseScoreOf(predicted).value, NutrientScoreOf(items, needs).value)
    ensures r.Some? ==> 0.0 <= r.value <= 10.0
  {
    GlucoseScoreRange(predicted);
    match (GlucoseScoreOf(predicted), NutrientScoreOf(items, needs))
    case (Some(g), Some(n)) => Some(Composite(g, n))
    case _ => None
  }
}
