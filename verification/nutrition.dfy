/**
  Recipe nutrition and the ratio solver of the knowledge graph:
  `get_recipe_ingredients` (weight scaling), `calculate_recipe_nutrition` and
  `calculate_group_nutrition`.  Quantities are exact reals.
*/
module Nutrition {

  /** One CONTAINS row of a recipe: the ingredient's name and type tag, its
      carb/protein/fat/fiber content per 100 g, and the relationship weight in
      grams. */
  datatype IngredientLine = IngredientLine(
    name: string, kind: string,
    carb: real, protein: real, fat: real, fiber: real,
    weight: real)

  /** The macro totals of one recipe, in grams. */
  datatype Profile = Profile(carb: real, protein: real, fat: real, fiber: real)

  /** The per-meal needs handed to the solver (`nutrient_needs[meal_type]`). */
  datatype Needs = Needs(carb: real, protein: real, fat: real)

  /** The `total_nutrition` dictionary of a combination. */
  datatype GroupTotal = GroupTotal(energy: real, carb: real, protein: real, fat: real, fiber: real)

  /** Python's `int(x)` on a float: truncation toward zero. */
  function Trunc(x: real): (r: int)
    ensures 0.0 <= x ==> 0 <= r && r as real <= x < r as real + 1.0
    ensures x < 0.0 ==> r <= 0 && r as real - 1.0 < x <= r as real
  {
    if x >= 0.0 then x.Floor else -((-x).Floor)
  }

  function ScaleLine(l: IngredientLine, ratio: real): IngredientLine
  {
    l.(weight := Trunc(l.weight * ratio) as real)
  }

  /** The ingredient rows as `get_recipe_ingredients(name, ratio)` returns them. */
  function ScaleWeights(lines: seq<IngredientLine>, ratio: real): seq<IngredientLine>
  {
    seq(|lines|, i requires 0 <= i < |lines| => ScaleLine(lines[i], ratio))
  }

  /** `get_recipe_ingredients`: the loop that rewrites every row's weight as
      `int(weight * ratio)` and leaves the contents as they are. */
  method GetRecipeIngredients(lines: seq<IngredientLine>, ratio: real) returns (rows: seq<IngredientLine>)
    ensures rows == ScaleWeights(lines, ratio)
    ensures |rows| == |lines|
    ensures forall i :: 0 <= i < |lines| ==>
      rows[i].name == lines[i].name && rows[i].kind == lines[i].kind &&
      rows[i].carb == lines[i].carb && rows[i].protein == lines[i].protein &&
      rows[i].fat == lines[i].fat && rows[i].fiber == lines[i].fiber
    ensures 0.0 <= ratio ==> forall i :: 0 <= i < |lines| && 0.0 <= lines[i].weight ==>
      rows[i].weight <= lines[i].weight * ratio < rows[i].weight + 1.0
  {
    rows := [];
    var i := 0;
    while i < |lines|
      invariant 0 <= i <= |lines|
      invariant |rows| == i
      invariant forall k :: 0 <= k < i ==> rows[k] == ScaleLine(lines[k], ratio)
    {
      rows := rows + [ScaleLine(lines[i], ratio)];
      i := i + 1;
    }
  }

  /** `content * weight / 100` for each macro of one row. */
  function Contribution(l: IngredientLine): Profile
  {
    Profile(l.carb * l.weight / 100.0, l.protein * l.weight / 100.0,
            l.fat * l.weight / 100.0, l.fiber * l.weight / 100.0)
  }

  function AddProfiles(a: Profile, b: Profile): Profile
  {
    Profile(a.carb + b.carb, a.protein + b.protein, a.fat + b.fat, a.fiber + b.fiber)
  }

  const Zero := Profile(0.0, 0.0, 0.0, 0.0)

  /** The four `sum(...)` comprehensions over a recipe's rows. */
  function Totals(rows: seq<IngredientLine>): Profile
  {
    if rows == [] then Zero else AddProfiles(Contribution(rows[0]), Totals(rows[1..]))
  }

  /** `calculate_recipe_nutrition`: the totals over the rows read at ratio 1.0,
      that is with every weight truncated to whole grams. */
  function RecipeNutrition(lines: seq<IngredientLine>): (p: Profile)
    ensures lines == [] ==> p == Zero
  {
    Totals(ScaleWeights(lines, 1.0))
  }

  /** The totals of a list split in two are the sums of the two parts' totals. */
  lemma {:induction false} TotalsAppend(a: seq<IngredientLine>, b: seq<IngredientLine>)
    ensures Totals(a + b) == AddProfiles(Totals(a), Totals(b))
    decreases |a|
  {
    if a == [] {
      assert a + b == b;
    } else {
      assert (a + b)[0] == a[0];
      assert (a + b)[1..] == a[1..] + b;
      TotalsAppend(a[1..], b);
    }
  }

  ghost predicate NonNegativeLine(l: IngredientLine)
  {
    0.0 <= l.carb && 0.0 <= l.protein && 0.0 <= l.fat && 0.0 <= l.fiber && 0.0 <= l.weight
  }

  ghost predicate NonNegative(p: Profile)
  {
    0.0 <= p.carb && 0.0 <= p.protein && 0.0 <= p.fat && 0.0 <= p.fiber
  }

  /** Non-negative contents and weights give a non-negative profile, also after
      the weights are truncated. */
  lemma {:induction false} RecipeNutritionNonNegative(lines: seq<IngredientLine>)
    requires forall i :: 0 <= i < |lines| ==> NonNegativeLine(lines[i])
    ensures NonNegative(RecipeNutrition(lines))
  {
    TotalsNonNegative(ScaleWeights(lines, 1.0));
  }

  lemma {:induction false} TotalsNonNegative(rows: seq<IngredientLine>)
    requires forall i :: 0 <= i < |rows| ==> NonNegativeLine(rows[i])
    ensures NonNegative(Totals(rows))
    decreases |rows|
  {
    if rows != [] {
      TotalsNonNegative(rows[1..]);
      var l := rows[0];
      assert NonNegativeLine(l);
      assert 0.0 <= l.carb * l.weight && 0.0 <= l.protein * l.weight;
      assert 0.0 <= l.fat * l.weight && 0.0 <= l.fiber * l.weight;
    }
  }

  /** A recipe whose weights are already whole grams is read unchanged at ratio 1.0. */
  lemma WholeWeightsUnchanged(lines: seq<IngredientLine>)
    requires forall i :: 0 <= i < |lines| ==> lines[i].weight == lines[i].weight.Floor as real
    ensures ScaleWeights(lines, 1.0) == lines
  {
    forall i | 0 <= i < |lines|
      ensures ScaleWeights(lines, 1.0)[i] == lines[i]
    {
      var w := lines[i].weight;
      assert w * 1.0 == w;
      if w < 0.0 {
        assert (-w).Floor == -(w.Floor);
      }
    }
  }

  function Min(a: real, b: real): real
  {
    if a <= b then a else b
  }

  /** The ratio policy of `calculate_group_nutrition` for the staple (s),
      vegetable (v) and protein (q) recipes, written as one value: the carb
      need split 0.6/0.5 over staple and vegetable, the protein need split
      0.5/0.8 over vegetable and protein recipe, then the fat need as a ceiling
      on the last two (or the protein recipe served as stored when there is no
      fat to cap). */
  function SolveRatios(s: Profile, v: Profile, q: Profile, needs: Needs): seq<real>
  {
    var totalCarb := s.carb + v.carb + q.carb;
    var carbRatio := if totalCarb > 0.0 then needs.carb / totalCarb else 0.0;
    var totalProtein := v.protein + q.protein;
    var proteinRatio := if totalProtein > 0.0 then needs.protein / totalProtein else 0.0;
    var staple := if totalCarb > 0.0 then carbRatio * 0.6 else 1.0;
    var vegetable := (if totalCarb > 0.0 then carbRatio * 0.5 else 1.0) + proteinRatio * 0.5;
    var protein := proteinRatio * 0.8;
    var totalFat := v.fat + q.fat;
    if totalFat > 0.0 then
      [staple, Min(vegetable, needs.fat / totalFat), Min(protein, needs.fat / totalFat)]
    else
      [staple, vegetable, 1.0]
  }

  /** One recipe's share of the combination's totals under its ratio. */
  function Scaled(p: Profile, r: real): GroupTotal
  {
    GroupTotal(p.carb * 4.0 * r + p.protein * 4.0 * r + p.fat * 9.0 * r,
               p.carb * r, p.protein * r, p.fat * r, p.fiber * r)
  }

  function AddTotals(a: GroupTotal, b: GroupTotal): GroupTotal
  {
    GroupTotal(a.energy + b.energy, a.carb + b.carb, a.protein + b.protein, a.fat + b.fat, a.fiber + b.fiber)
  }

  /** `total[k] = sum of ratio_i * nutrition_i[k]`, with the energy of each
      recipe added in as `4 carb + 4 protein + 9 fat` times its ratio. */
  function Combined(ps: seq<Profile>, rs: seq<real>): GroupTotal
    requires |ps| == |rs|
  {
    if ps == [] then GroupTotal(0.0, 0.0, 0.0, 0.0, 0.0)
    else AddTotals(Combined(ps[..|ps| - 1], rs[..|rs| - 1]), Scaled(ps[|ps| - 1], rs[|rs| - 1]))
  }

  /** `calculate_group_nutrition` on the three recipes' profiles: the `ratios`
      list updated step by step, then the totals accumulated recipe by recipe. */
  method GroupNutrition(profiles: seq<Profile>, needs: Needs) returns (ratios: seq<real>, total: GroupTotal)
    requires |profiles| == 3
    ensures ratios == SolveRatios(profiles[0], profiles[1], profiles[2], needs)
    ensures |ratios| == 3 && total == Combined(profiles, ratios)
  {
    ratios := [0.0, 0.0, 0.0];
    var totalCarb := profiles[0].carb + profiles[1].carb + profiles[2].carb;
    if totalCarb > 0.0 {
      var carbRatio := needs.carb / totalCarb;
      ratios := ratios[0 := carbRatio * 0.6];
      ratios := ratios[1 := carbRatio * 0.5];
    } else {
      ratios := ratios[0 := 1.0];
      ratios := ratios[1 := 1.0];
    }
    var totalProtein := profiles[1].protein + profiles[2].protein;
    if totalProtein > 0.0 {
      var proteinRatio := needs.protein / totalProtein;
      ratios := ratios[1 := ratios[1] + proteinRatio * 0.5];
      ratios := ratios[2 := ratios[2] + proteinRatio * 0.8];
    }
    var totalFat := profiles[1].fat + profiles[2].fat;
    if totalFat > 0.0 {
      var fatRatio := needs.fat / totalFat;
      ratios := ratios[1 := Min(ratios[1], fatRatio)];
      ratios := ratios[2 := Min(ratios[2], fatRatio)];
    } else {
      ratios := ratios[2 := 1.0];
    }
    assert ratios == SolveRatios(profiles[0], profiles[1], profiles[2], needs);

    total := GroupTotal(0.0, 0.0, 0.0, 0.0, 0.0);
    for i := 0 to 3
      invariant total == Combined(profiles[..i], ratios[..i])
    {
      CombinedStep(profiles, ratios, i);
      total := AddTotals(total, Scaled(profiles[i], ratios[i]));
    }
    assert profiles[..3] == profiles && ratios[..3] == ratios;
  }

  lemma CombinedStep(ps: seq<Profile>, rs: seq<real>, i: nat)
    requires |ps| == |rs| && i < |ps|
    ensures Combined(ps[..i + 1], rs[..i + 1]) == AddTotals(Combined(ps[..i], rs[..i]), Scaled(ps[i], rs[i]))
  {
    assert ps[..i + 1][..i] == ps[..i];
    assert rs[..i + 1][..i] == rs[..i];
  }

  /** Energy round trip: the accumulated energy is `4 carb + 4 protein + 9 fat`
      of the accumulated totals. */
  lemma {:induction false} CombinedEnergy(ps: seq<Profile>, rs: seq<real>)
    requires |ps| == |rs|
    ensures var t := Combined(ps, rs); t.energy == 4.0 * t.carb + 4.0 * t.protein + 9.0 * t.fat
    decreases |ps|
  {
    if ps != [] {
      CombinedEnergy(ps[..|ps| - 1], rs[..|rs| - 1]);
    }
  }

  /** With non-negative profiles and needs every ratio is non-negative; the
      staple ratio follows the carb need alone (1.0 when there is no carb). */
  lemma RatiosNonNegative(s: Profile, v: Profile, q: Profile, needs: Needs)
    requires NonNegative(s) && NonNegative(v) && NonNegative(q)
    requires 0.0 <= needs.carb && 0.0 <= needs.protein && 0.0 <= needs.fat
    ensures var r := SolveRatios(s, v, q, needs);
      |r| == 3 && 0.0 <= r[0] && 0.0 <= r[1] && 0.0 <= r[2]
  {
    var totalCarb := s.carb + v.carb + q.carb;
    if totalCarb > 0.0 {
      assert 0.0 <= needs.carb / totalCarb;
    }
    var totalProtein := v.protein + q.protein;
    if totalProtein > 0.0 {
      assert 0.0 <= needs.protein / totalProtein;
    }
    var totalFat := v.fat + q.fat;
    if totalFat > 0.0 {
      assert 0.0 <= needs.fat / totalFat;
    }
  }

  /** The defaults: no carb at all means staple and vegetable start from 1.0
      (the staple keeps it); no fat in vegetable and protein recipe means the
      protein recipe is served as stored, whatever its protein share. */
  lemma RatioDefaults(s: Profile, v: Profile, q: Profile, needs: Needs)
    ensures var r := SolveRatios(s, v, q, needs);
      |r| == 3 &&
      (s.carb + v.carb + q.carb > 0.0 ==> r[0] == 0.6 * (needs.carb / (s.carb + v.carb + q.carb))) &&
      (s.carb + v.carb + q.carb <= 0.0 ==> r[0] == 1.0) &&
      (v.fat + q.fat <= 0.0 ==> r[2] == 1.0) &&
      (v.protein + q.protein <= 0.0 && v.fat + q.fat > 0.0 ==> r[2] == Min(0.0, needs.fat / (v.fat + q.fat)))
  {
  }

  /** Fat is a ceiling: when the vegetable and protein recipes hold fat, neither
      of their ratios exceeds `needs.fat / total_fat`, so their scaled fat
      together stays within the fat need; the cap never raises a ratio. */
  lemma {:induction false} FatCeiling(s: Profile, v: Profile, q: Profile, needs: Needs)
    requires 0.0 <= v.fat && 0.0 <= q.fat && v.fat + q.fat > 0.0
    ensures var r := SolveRatios(s, v, q, needs);
      var fatRatio := needs.fat / (v.fat + q.fat);
      |r| == 3 && r[1] <= fatRatio && r[2] <= fatRatio &&
      r[1] * v.fat + r[2] * q.fat <= needs.fat
  {
    var r := SolveRatios(s, v, q, needs);
    var totalFat := v.fat + q.fat;
    var fatRatio := needs.fat / totalFat;
    assert r[1] <= fatRatio && r[2] <= fatRatio;
    ScaleAtMost(r[1], fatRatio, v.fat);
    ScaleAtMost(r[2], fatRatio, q.fat);
    assert fatRatio * totalFat == needs.fat;
    assert fatRatio * v.fat + fatRatio * q.fat == fatRatio * totalFat;
  }

  lemma ScaleAtMost(a: real, b: real, c: real)
    requires a <= b && 0.0 <= c
    ensures a * c <= b * c
  {
    assert (b - a) * c >= 0.0;
  }
}
