/** The randomized search of `recommend_recipes`: draw one staple, one
    vegetable and one protein recipe from the top lists, solve their ratios,
    predict the glucose response, score the combination, and stop at the first
    score of at least 0.7 or after 100 tries. */
module Search {
  import opened Wrappers
  import opened Nutrition

  /** The glucose model's output at 60, 120 and 180 minutes. */
  datatype Prediction = Prediction(at60: real, at120: real, at180: real)

  /** The `best_scores` dictionary; `pbg` is the predicted 120-minute value. */
  datatype Scores = Scores(healthScore: real, energy: real, pbg: real,
                           carb: real, protein: real, fat: real, fiber: real)

  /** What `recommend_recipes` returns: recipe names, their ratios, the scores. */
  datatype Recommendation = Recommendation(recipes: seq<string>, ratios: seq<real>, scores: Scores)

  /** Everything one search depends on: the three top lists, the recipes'
      ingredient rows, the meal's needs, the pre-meal glucose, and three
      outside functions — the random draw (`pick(attempt, slot)` is the index
      `random.choice` draws on that attempt for that slot, taken modulo the
      list's length), the glucose predictor and the health scorer. */
  datatype Setting = Setting(
    staple: seq<string>, vegetable: seq<string>, protein: seq<string>,
    contents: map<string, seq<IngredientLine>>, needs: Needs, preMealGlucose: real,
    pick: (nat, nat) -> nat,
    predict: (real, real, real, real) -> Prediction,
    scorer: (GroupTotal, Prediction, Needs) -> real)

  const MaxAttempts: nat := 100
  const InitialScore: real := 0.6
  const AcceptScore: real := 0.7

  /** The CONTAINS rows of a recipe; none for a name the store does not know. */
  function Lines(contents: map<string, seq<IngredientLine>>, name: string): seq<IngredientLine>
  {
    if name in contents then contents[name] else []
  }

  /** `random.choice(list)`, its index drawn by the oracle. */
  function Choose(list: seq<string>, draw: nat): (name: string)
    requires |list| > 0
    ensures name in list
  {
    list[draw % |list|]
  }

  /** The three names drawn on one attempt; an empty vegetable or protein list
      is replaced by the staple list. */
  function Combination(s: Setting, attempt: nat): (names: seq<string>)
    requires |s.staple| > 0
    ensures |names| == 3 && names[0] in s.staple
    ensures names[1] in (if |s.vegetable| > 0 then s.vegetable else s.staple)
    ensures names[2] in (if |s.protein| > 0 then s.protein else s.staple)
  {
    [Choose(s.staple, s.pick(attempt, 0)),
     if |s.vegetable| > 0 then Choose(s.vegetable, s.pick(attempt, 1)) else Choose(s.staple, s.pick(attempt, 1)),
     if |s.protein| > 0 then Choose(s.protein, s.pick(attempt, 2)) else Choose(s.staple, s.pick(attempt, 2))]
  }

  /** The outcome of one attempt, as the loop body computes it. */
  function Evaluate(s: Setting, attempt: nat): Recommendation
    requires |s.staple| > 0
  {
    var names := Combination(s, attempt);
    var profiles := [RecipeNutrition(Lines(s.contents, names[0])),
                     RecipeNutrition(Lines(s.contents, names[1])),
                     RecipeNutrition(Lines(s.contents, names[2]))];
    var ratios := SolveRatios(profiles[0], profiles[1], profiles[2], s.needs);
    var total := Combined(profiles, ratios);
    var glucose := s.predict(total.carb, total.fat, total.fiber, s.preMealGlucose);
    Recommendation(names, ratios,
      Scores(s.scorer(total, glucose, s.needs), total.energy, glucose.at120,
             total.carb, total.protein, total.fat, total.fiber))
  }

  /** Attempt k scored below the acceptance threshold, so the loop went on. */
  ghost predicate Rejected(s: Setting, k: nat)
    requires |s.staple| > 0
  {
    Evaluate(s, k).scores.healthScore < AcceptScore
  }

  lemma RejectedExtend(s: Setting, n: nat)
    requires |s.staple| > 0
    requires forall k :: 1 <= k < n ==> Rejected(s, k)
    requires Rejected(s, n)
    ensures forall k :: 1 <= k < n + 1 ==> Rejected(s, k)
  {
  }

  /** One pass of the loop body: draw, read and scale the three recipes,
      solve the ratios, predict and score. */
  method TryCombination(s: Setting, attempt: nat) returns (r: Recommendation)
    requires |s.staple| > 0
    ensures r == Evaluate(s, attempt)
    ensures r.recipes[0] in s.staple && |r.ratios| == 3
  {
    var staple := Choose(s.staple, s.pick(attempt, 0));
    var vegetable := if |s.vegetable| > 0 then Choose(s.vegetable, s.pick(attempt, 1))
                     else Choose(s.staple, s.pick(attempt, 1));
    var protein := if |s.protein| > 0 then Choose(s.protein, s.pick(attempt, 2))
                   else Choose(s.staple, s.pick(attempt, 2));
    var recommendations := [staple, vegetable, protein];

    var profiles: seq<Profile> := [];
    for i := 0 to 3
      invariant |profiles| == i
      invariant forall j :: 0 <= j < i ==> profiles[j] == RecipeNutrition(Lines(s.contents, recommendations[j]))
    {
      var rows := GetRecipeIngredients(Lines(s.contents, recommendations[i]), 1.0);
      profiles := profiles + [Totals(rows)];
    }
    assert recommendations == Combination(s, attempt);
    assert profiles == [RecipeNutrition(Lines(s.contents, recommendations[0])),
                        RecipeNutrition(Lines(s.contents, recommendations[1])),
                        RecipeNutrition(Lines(s.contents, recommendations[2]))];
    var ratios, groupNutrition := GroupNutrition(profiles, s.needs);
    var predictedGlucose := s.predict(groupNutrition.carb, groupNutrition.fat, groupNutrition.fiber, s.preMealGlucose);
    var healthScore := s.scorer(groupNutrition, predictedGlucose, s.needs);
    r := Recommendation(recommendations, ratios,
      Scores(healthScore, groupNutrition.energy, predictedGlucose.at120,
             groupNutrition.carb, groupNutrition.protein, groupNutrition.fat, groupNutrition.fiber));
  }

  /** The search loop of `recommend_recipes`.  An empty staple list makes the
      first `random.choice` raise, which is `None` here.  Otherwise the result
      is the attempt the loop stopped at: the first whose score reaches 0.7,
      or the 100th, returned with its own score. */
  method Recommend(s: Setting) returns (best: Option<Recommendation>, attempts: nat)
    ensures best.None? <==> s.staple == []
    ensures best.Some? ==> 1 <= attempts <= MaxAttempts && best.value == Evaluate(s, attempts)
    ensures best.Some? ==> forall k :: 1 <= k < attempts ==> Rejected(s, k)
    ensures best.Some? && attempts < MaxAttempts ==> AcceptScore <= best.value.scores.healthScore
  {
    attempts := 0;
    if s.staple == [] {
      return None, attempts;
    }
    var healthScore := InitialScore;
    best := None;
    var last: Option<Recommendation> := None;
    while healthScore < AcceptScore && attempts < MaxAttempts
      invariant attempts <= MaxAttempts
      decreases MaxAttempts - attempts
      invariant attempts == 0 ==> healthScore == InitialScore && best.None?
      invariant attempts > 0 ==> last == Some(Evaluate(s, attempts)) && healthScore == last.value.scores.healthScore
      invariant forall k :: 1 <= k < attempts ==> Rejected(s, k)
      invariant best.Some? ==> best == last && AcceptScore <= healthScore
      invariant best.None? && attempts > 0 ==> healthScore < AcceptScore
    {
      if attempts > 0 {
        RejectedExtend(s, attempts);
      }
      attempts := attempts + 1;
      var attempt := TryCombination(s, attempts);
      healthScore := attempt.scores.healthScore;
      last := Some(attempt);
      if healthScore >= AcceptScore {
        best := last;
      }
    }
    if best.None? {
      best := last;
    }
  }

  /** Every recipe of a result was drawn from its own top list, or from the
      staple list where its own list is empty. */
  lemma DrawnFromTopLists(s: Setting, attempt: nat)
    requires |s.staple| > 0
    ensures var r := Evaluate(s, attempt).recipes;
      |r| == 3 && r[0] in s.staple &&
      (|s.vegetable| > 0 ==> r[1] in s.vegetable) && (|s.vegetable| == 0 ==> r[1] in s.staple) &&
      (|s.protein| > 0 ==> r[2] in s.protein) && (|s.protein| == 0 ==> r[2] in s.staple)
  {
  }

  /** The scores of a result are consistent with its totals: the energy is
      `4 carb + 4 protein + 9 fat`. */
  lemma ResultEnergy(s: Setting, attempt: nat)
    requires |s.staple| > 0
    ensures var sc := Evaluate(s, attempt).scores; sc.energy == 4.0 * sc.carb + 4.0 * sc.protein + 9.0 * sc.fat
  {
    var names := Combination(s, attempt);
    var profiles := [RecipeNutrition(Lines(s.contents, names[0])),
                     RecipeNutrition(Lines(s.contents, names[1])),
                     RecipeNutrition(Lines(s.contents, names[2]))];
    CombinedEnergy(profiles, SolveRatios(profiles[0], profiles[1], profiles[2], s.needs));
  }
}
