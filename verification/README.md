# Diabetes recipe recommender: a verified model of the meal-combination engine

This project models the engine behind the Diabetes-Recipe-Recommender in Dafny: how it chooses a meal and the calculators it relies on.

- **Knowledge graph** (`src/KG.py`). The engine keeps three category queues of `PriorityRecipe` entries: staple, vegetable and protein.
  - Each queue is a `heapq` list. The reversed `__lt__` turns it into a max-heap on preference score.
  - The recipe store is a Neo4j graph in the source. Here it is a value made of four maps: recipe scores, recipe types, each recipe's CONTAINS rows, and ingredient scores.
  - Modelled operations:
    - filling the queues at start-up;
    - taking the top ten of each queue;
    - scaling ingredient weights;
    - a recipe's nutrition;
    - the ratio solver for a staple/vegetable/protein combination;
    - the randomized search for a combination scoring at least 0.7;
    - the preference update after a rating, and the re-heaping it triggers.
- **Health score** (`src/utils/health_score.py`):
  - a first-match band lookup of the predicted glucose at 60, 120 and 180 minutes;
  - a ±20 % nutrient-fit score;
  - their capped weighted sum.
- **Energy needs**:
  - `src/utils/health_params.py`: Mifflin–St Jeor BMR, the activity table, and the macro split of a meal's energy;
  - `src/static/data.js`: the browser-side revised Harris–Benedict TDEE, the per-meal needs with `Math.round`, and the input checks of the form submit.
- **Absorption model** (`src/utils/absorption.py`): five accumulators advanced over 100 steps.

Layout:

| file | module | contents |
|---|---|---|
| `wrappers.dfy` | `Wrappers` | `Option` |
| `heap.dfy` | `Heap` | the `heapq` algorithms (`heappush`, `heappop`, `heapify`, `_siftdown`, `_siftup`) on `PriorityRecipe` entries |
| `nutrition.dfy` | `Nutrition` | weight scaling, recipe totals, ratio solver, group totals |
| `search.dfy` | `Search` | the `recommend_recipes` search loop |
| `knowledge_graph.dfy` | `Recommender` | store, classification, top ten, re-heaping, preference update, class `KnowledgeGraph` |
| `health_score.dfy` | `HealthScore` | glucose, nutrient and composite scores |
| `health_params.dfy` | `HealthParams` | server-side BMR, TDEE, macro needs |
| `user_form.dfy` | `UserForm` | browser-side TDEE, per-meal needs, submit checks |
| `absorption.dfy` | `Absorption` | `absorption_model` |

Modelling conventions:

- **Numbers.** Quantities are exact `real`s.
  - Python's `int()` is truncation toward zero (`Nutrition.Trunc`).
  - JavaScript's `Math.round` is `floor(x + 0.5)` (`UserForm.Round`).
- **Errors.** Where the source raises, or JavaScript yields `NaN`, the model returns `None`:
  - the `ZeroDivisionError` of an all-unscored glucose prediction or of a zero need;
  - `random.choice` on an empty staple list;
  - an unparsable form field or an unknown activity level in the browser.
- **Outside functions.** The random draw, the glucose predictor and the health scorer used inside the search loop are function parameters.
  - `pick(attempt, slot)` gives the index `random.choice` draws on a given attempt for a given slot, taken modulo the list's length.
- **Class state.** The queues are `seq` fields of the class `KnowledgeGraph`, reassigned by its methods. The heap algorithms are value methods from list to list, mirroring how `heapq` rewrites the list it is given.

## Model

| member | source | states |
|---|---|---|
| Heap.HeapRootIsMax | src/KG.py:16-18 | With `__lt__` reversed, index 0 of a heap holds the highest preference score: every entry's score is at most the root's. |
| Heap.HeapPush | src/KG.py:45-46 | `heappush` keeps heap order, adds exactly the new entry (as a multiset), and grows the list by one. |
| Heap.HeapPop | src/KG.py:71 | `heappop` returns an entry whose score is at least that of every entry of the old list. The rest is a heap, is the old multiset minus that entry, and holds nothing that outranks it. |
| Heap.Heapify | src/KG.py:344 | `heapify` yields a heap that is a permutation of its input. |
| Recommender.HasKind | src/KG.py:56-57 | `any(ing["type"] == kind ...)` is true exactly when some ingredient row has that type. |
| Recommender.Classify | src/KG.py:45-62 | Each of these holds exactly when its condition holds: staple when the type is "Staple"; protein when the recipe is not a staple and has a Protein-rich ingredient; vegetable when it is not a staple, has no Protein-rich ingredient and has a Vegetable one; no queue when it is neither. |
| Recommender.SelectedMembers | src/KG.py:40-62 | An entry is pushed onto category c's queue exactly when its recipe was read, falls into c, and the entry carries the recipe's stored score. |
| Recommender.AtMostOneQueue | src/KG.py:40-62 | The three queues together receive at most one entry per recipe read. |
| Recommender.SelectionsDisjoint | src/KG.py:40-62 | No entry goes onto two queues. |
| Recommender.PushRecipe | src/KG.py:41-62 | Reading one recipe pushes its entry onto exactly the queue its category names (none when it has no category), and all three queues stay heaps. |
| Recommender.InitializeQueues | src/KG.py:31-62 | The heappush loop leaves three heaps, each holding exactly (as a multiset) its category's entries, all of recipes the store scores. |
| Recommender.KnowledgeGraph.constructor | src/KG.py:21-26 | The new object keeps the given store, and each queue holds exactly its category's entries; the queue invariant holds. |
| Recommender.TopCount | src/KG.py:71-73 | `min(10, n)`: at most n, at most 10, and equal to one of them. |
| Recommender.PopTop | src/KG.py:71-73 | Popping `count` entries yields their names in non-increasing score. No entry left behind outranks any popped one, and popped plus left is the old queue. |
| Recommender.PushBack | src/KG.py:76-81 | Pushing the names back with their current store scores keeps heap order and adds exactly those entries. |
| Recommender.TakeTop | src/KG.py:71-83 | For one queue: returns `min(10, len)` names, best first, with no entry left behind outranking a returned one; the queue stays a heap with the same length and the same multiset of names, the re-pushed entries carrying the store's current scores. |
| Recommender.KnowledgeGraph.GetTopRecipes | src/KG.py:64-83 | For each of the three queues: `min(10, len)` names, best first, nothing left behind scoring higher, re-pushed with the store's current scores; each queue keeps its length and its multiset of names; the store is unchanged and the queues stay heaps of known recipes. |
| Recommender.IndexOf | src/KG.py:341-342 | The index of the first entry with the name, or the length when there is none. |
| Recommender.UpdateFirst | src/KG.py:341-345 | `found` exactly when some entry has the name; then the result is a heap holding the queue with its first such entry set to the new score, else the queue unchanged; either way length and multiset of names are kept and no other entry appears. |
| Recommender.KnowledgeGraph.UpdateRecipeInQueues | src/KG.py:335-345 | Staple, vegetable, then protein: the first queue holding the name is re-heaped with the store's new score. The other queues and the store are unchanged, and nothing changes when no queue holds the name. |
| Recommender.Rated | src/KG.py:290-324 | Every ingredient of the recipe moves to (s + r)/2 and no other ingredient changes. The recipe's score becomes (old + r + avg)/3, where avg is the defaulted average of the already rescored ingredient scores. No other recipe score changes, and the sets of known recipes and ingredients stay the same. |
| Recommender.RatedStaysInRange | src/KG.py:290-324 | With every score and the rating in [0, 10], every recipe and ingredient score after the update is still in [0, 10], and the store knows the same recipes and ingredients. |
| Recommender.ConsistentRatingIsFixedPoint | src/KG.py:295-324 | For a recipe with ingredients, a positive rating equal to the recipe's score and to every score of its ingredients leaves the store unchanged. |
| Recommender.ZeroAverageFallsBack | src/KG.py:303-324 | Rating 0 of a recipe whose ingredients all score 0 sets its score to old/3 + 0.2, because the zero average falls back to 0.6. |
| Recommender.KnowledgeGraph.UpdatePref | src/KG.py:286-333 | A non-numeric rating, a rating outside [0, 10] or an unknown recipe changes nothing and reports which. A rating in [0, 10] of a known recipe is always applied and thanked: every ingredient of the recipe moves to (s + r)/2, the recipe to (old + r + avg)/3 with avg the defaulted row average, and the first queue holding the recipe is re-heaped with its new score. |
| Recommender.KnowledgeGraph.RecommendRecipes | src/KG.py:214-284 | Takes `min(10, len)` names per queue, best first, and leaves each queue as `get_top_recipes` does: same length and names, re-pushed entries with current scores. It yields `None` exactly when the staple queue is empty; otherwise attempt k (1 ≤ k ≤ 100) of the search on those lists. Every earlier attempt scored below 0.7, and attempt k reached 0.7 unless k = 100. The store is unchanged. |
| Nutrition.Trunc | src/KG.py:116 | `int(x)` truncates toward zero. For x ≥ 0 the result r satisfies r ≤ x < r + 1; for x < 0, r − 1 < x ≤ r. |
| Nutrition.GetRecipeIngredients | src/KG.py:114-122 | Every row keeps its name, type and contents, with its weight replaced by `int(weight * ratio)`: within one gram below the exact scaled weight for non-negative data. |
| Nutrition.RecipeNutrition | src/KG.py:130-146 | A recipe with no ingredient rows has all-zero nutrition. |
| Nutrition.TotalsAppend | src/KG.py:135-138 | The sums are additive: the totals of two row lists joined are the sums of their totals. |
| Nutrition.RecipeNutritionNonNegative | src/KG.py:134-138 | Non-negative contents and weights give non-negative totals, also after truncation. |
| Nutrition.WholeWeightsUnchanged | src/KG.py:116 | At ratio 1.0, rows whose weights are whole grams are read unchanged. |
| Nutrition.GroupNutrition | src/KG.py:149-208 | The in-place updates of `ratios` yield the ratio policy `SolveRatios`. The accumulated totals are the ratio-weighted sums `Combined` of the three profiles. |
| Nutrition.CombinedEnergy | src/KG.py:196-206 | The accumulated energy is 4·carb + 4·protein + 9·fat of the accumulated totals. |
| Nutrition.RatiosNonNegative | src/KG.py:161-185 | With non-negative profiles and needs, all three ratios are non-negative. |
| Nutrition.RatioDefaults | src/KG.py:164-185 | The staple ratio is 0.6·needs.carb/total_carb when there is carb and 1.0 when there is none; the protein recipe's ratio is 1.0 when vegetable and protein recipe hold no fat, and `min(0, fat cap)` when they hold fat but no protein. |
| Nutrition.FatCeiling | src/KG.py:179-183 | When vegetable and protein recipes hold fat, both their ratios are at most `needs.fat / total_fat`, and their scaled fat together is at most `needs.fat`. |
| Search.Choose | src/KG.py:238 | `random.choice` returns a member of the list. |
| Search.Combination | src/KG.py:238-242 | Three names: the staple from the staple list, the vegetable from the vegetable list (the staple list when that is empty), likewise the protein. |
| Search.TryCombination | src/KG.py:237-255 | One loop pass (draw, read, scale, solve, predict, score) equals the attempt's specification `Evaluate`; the staple is from the staple list and there are three ratios. |
| Search.Recommend | src/KG.py:227-284 | `None` exactly when the staple list is empty (where `random.choice` raises); otherwise attempt k's own combination, ratios and scores for some 1 ≤ k ≤ 100, every earlier attempt scored below 0.7, and attempt k scored at least 0.7 unless k = 100. |
| Search.DrawnFromTopLists | src/KG.py:238-242 | Every recipe of a result comes from its own top list, or from the staple list when its own is empty. |
| Search.ResultEnergy | src/KG.py:196-206 | A result's reported energy is 4·carb + 4·protein + 9·fat of its reported totals. |
| HealthScore.FirstBandSpec | src/utils/health_score.py:54-57 | `FirstBand` returns the grade of the first band, in table order, whose closed interval holds the value, and `None` exactly when no band holds it. |
| HealthScore.CalculateGlucoseScore | src/utils/health_score.py:24-61 | The nested loop with `break` computes the specification `GlucoseScoreOf`: the mean of the scored checkpoints, or `None` when none is scored. |
| HealthScore.ScoredArePoints | src/utils/health_score.py:42-57 | Every checkpoint score is one of 10, 8, 6, 4 and 0, and there is at most one per checkpoint. |
| HealthScore.ScoredEmpty | src/utils/health_score.py:42-57 | The `scores` list is empty exactly when no checkpoint value lies in any of its bands. |
| HealthScore.GlucoseScoreUndefined | src/utils/health_score.py:51-60 | The average divides by zero exactly when all three checkpoints fall in no band. |
| HealthScore.GlucoseScoreRange | src/utils/health_score.py:60 | A defined glucose score lies in [0, 10]. |
| HealthScore.OverlapsGoToEarlierBand | src/utils/health_score.py:35-57 | 8.3 at 60 minutes is normal (10), and every 180-minute value in [8.3, 9.9] is fair (6), never poor. |
| HealthScore.GapsAreUnscored | src/utils/health_score.py:35-57 | Values below the normal band and in the gaps between bands score nothing: (9.9, 10.0) and (16.1, 16.6) at 60 minutes, (8.8, 8.9), (11.0, 11.1) and (15.3, 15.5) at 120, (8.2, 8.3) at 180. |
| HealthScore.AllNormalScoresTen | src/utils/health_score.py:35-60 | (7.5, 6.0, 5.5) is normal at every checkpoint and scores 10. |
| HealthScore.HitsAtMostMatched | src/utils/health_score.py:85-92 | The nutrients within ±20 % are never more than the matched nutrients. |
| HealthScore.CalculateNutrientScore | src/utils/health_score.py:85-92 | The loop computes `NutrientScoreOf` (2.5 per matched nutrient within [0.8, 1.2] of its need); `None` exactly when a matched need is 0 (division by zero); otherwise between 0 and 2.5 × the number of matched nutrients. |
| HealthScore.Composite | src/utils/health_score.py:21-22 | `min(0.6 g + 0.4 n, 10)`: never above 10 nor above the weighted sum, and equal to one of them. |
| HealthScore.CompositeMonotone | src/utils/health_score.py:21-22 | The composite does not decrease when either score grows. |
| HealthScore.CalculateHealthScore | src/utils/health_score.py:1-22 | Undefined exactly when the glucose score or the nutrient score is undefined; otherwise `min(0.6 g + 0.4 n, 10)` of the two, which lies in [0, 10]. |
| HealthParams.BmrMonotone | src/utils/health_params.py:1-9 | `calculate_bmr` (Mifflin-St Jeor): for either gender value the BMR does not decrease with weight or height and does not increase with age. |
| HealthParams.BmrGenderGap | src/utils/health_params.py:1-9 | For the same weight, height and age, the "male" BMR is 166 above that of any other gender value. |
| HealthParams.ActivityFactor | src/utils/health_params.py:15-22 | Every factor lies in [1.2, 1.9]; an unknown level gets 1.2 and extra_active 1.9. |
| HealthParams.CalculateTdee | src/utils/health_params.py:11-22 | For a non-negative BMR the TDEE lies between 1.2·bmr and 1.9·bmr. |
| HealthParams.CalculateNutrientNeeds | src/utils/health_params.py:24-32 | Exactly four needs with fiber fixed at 10. The macros give back the meal energy (4·carb + 4·protein + 9·fat) and are non-negative for non-negative energy. |
| UserForm.Round | src/static/data.js:42 | `Math.round(x)` is within half a unit of x, with halves going up. |
| UserForm.RoundMonotone | src/static/data.js:69-71 | Rounding preserves order. |
| UserForm.ActivityFactor | src/static/data.js:34-42 | A factor exists exactly for the five table levels and lies in [1.2, 1.9]. |
| UserForm.CalculateTdee | src/static/data.js:24-43 | Defined exactly when the age parsed and the activity level is in the table; then within half a unit of the Harris–Benedict BMR times the factor. |
| UserForm.CalculateNutrientNeeds | src/static/data.js:46-76 | The loop fills exactly the breakfast, lunch and dinner entries, each with the rounded 50/20/30 split of its share of the TDEE. |
| UserForm.MealNeedsWithinHalfGram | src/static/data.js:66-73 | Every rounded macro is within half a gram of its exact value. |
| UserForm.LunchAtLeastOtherMeals | src/static/data.js:58-62 | Breakfast and dinner needs are identical, and for a non-negative TDEE lunch's are at least as large in every macro. |
| UserForm.NeedsAt1800 | src/static/data.js:46-76 | A TDEE of 1800 gives lunch {90, 36, 24} and breakfast and dinner {68, 27, 18}. These are the needs hard-coded for the demo user at src/KG.py:414-429. |
| UserForm.Submit | src/static/data.js:79-113 | Rejects height, then weight, then pre-meal glucose, each exactly when that field is NaN or ≤ 0 and the earlier ones passed; otherwise saves the TDEE and the needs computed from it, both `None` when the TDEE is NaN. |
| Absorption.ProteinStep | src/utils/absorption.py:28-29 | The protein accumulator grows by 0.09·proteins per step. |
| Absorption.LipidStep | src/utils/absorption.py:31-32 | The lipid accumulator grows by 0.0475·lipids per step. |
| Absorption.FiberStep | src/utils/absorption.py:34-35 | The fibre accumulator grows by 0.0196·fiber per step. |
| Absorption.MonosacStep | src/utils/absorption.py:37-38 | The monosaccharide accumulator grows by 0.2·carbs per step. |
| Absorption.StarchStep | src/utils/absorption.py:41-42 | The starch accumulator grows by 0.07·carbs·GI per step. |
| Absorption.AbsorptionModel | src/utils/absorption.py:5-58 | Each of the five returned lists has 100 values. The value after step t is (t + 1) times that series' own per-step amount, which depends only on its own inputs. |
| Absorption.SeriesNonDecreasing | src/utils/absorption.py:45-49 | A series with a non-negative step is non-decreasing. |
| Absorption.AllSeriesNonDecreasing | src/utils/absorption.py:45-56 | With non-negative inputs all five series are non-decreasing. |
| Absorption.ZeroIntakeZeroSeries | src/utils/absorption.py:9-14 | A zero intake gives an all-zero series, for every glycaemic index. |

## Left out

- The Neo4j driver, sessions and Cypher text: the store is a value of four maps.
  - Ingredient node labels are not modelled. Rows of a recipe count as its ingredients in `update_pref`, where the source matches only `:Ingredient` nodes.
  - `WellFormed` assumes a recipe lists each ingredient once. A second CONTAINS row for the same ingredient would make the first `SET` of `update_pref` apply twice, which the map update does not model.
  - The store's order of recipes in `_initialize_queues` is the parameter `order`.
- The glucose predictor (`src/predict_glucose.py`, Keras) is a function parameter. Training (`src/utils/train_glucose_model.py`) is not part of this model.
- The health scorer inside the search loop is a function parameter.
  - src/KG.py:253-255 calls `calculate_health_score` with three arguments, but it takes four, so the call as written cannot run.
  - For the same reason the search is not tied to `HealthScore.CalculateHealthScore`.
- `calculate_nutrient_score` takes the per-meal needs as a map.
  - As written, src/utils/health_score.py:82 looks up the literal key `"meal_type"`, which the ratio table does not hold.
  - It then tests nutrient names for membership in a list of numbers.
  - The model scores against the needs the caller means.
- `random.choice` is the oracle `pick`. Python's generator is not modelled.
- `generate_prompt`, the chat clients, the web routes, CSV logging and the UI (DOM, `localStorage`, `$.ajax`) are not modelled. They only assemble text or move data.
- The script code of `src/utils/absorption.py` that runs at import (plotting and feature extraction) is not modelled.
- Floating point: all arithmetic is exact over `real`, so IEEE rounding is not modelled. `int()` and `Math.round` are modelled exactly.
- `UserForm.Submit` represents a NaN TDEE (an unparsed age or an unknown activity level) as `None`. Where the source stores a needs object whose entries are all NaN, the model stores `None` for the needs.
- `Recommender.KnowledgeGraph.UpdatePref`: an unknown recipe name is reported as `UnknownRecipe` with nothing changed.
  - The source's writes match no node in this case, so nothing changes there either.
  - It then raises a `TypeError` from `_get_recipe_score`, which the `except ValueError` does not catch.
  - A rating of type `None` (a `TypeError` in `float`) is not distinguished from a non-numeric one.
- `Recommender.KnowledgeGraph.GetTopRecipes` pops all ten entries of one queue before the next, as the source does. The lists of names it returns are not compared with the queue order beyond "best first".
- The class methods `GetTopRecipes`, `UpdateRecipeInQueues`, `UpdatePref` and `RecommendRecipes` state their queue-level properties through `old(...)`. The same properties are stated without state on the module-level methods `TakeTop`, `UpdateFirst` and `InitializeQueues`.
