/** Energy needs on the server side: the Mifflin-St Jeor BMR, the TDEE
    activity table and the per-meal macro needs. */
module HealthParams {

  /** `calculate_bmr`: Mifflin-St Jeor, `+ 5` for "male" and `- 161` for any
      other gender value. */
  function CalculateBmr(weight: real, height: real, age: real, gender: string): real
  {
    if gender == "male" then 10.0 * weight + 6.25 * height - 5.0 * age + 5.0
    else 10.0 * weight + 6.25 * height - 5.0 * age - 161.0
  }

  /** The BMR grows with weight and height and falls with age. */
  lemma BmrMonotone(w1: real, h1: real, a1: real, w2: real, h2: real, a2: real, gender: string)
    requires w1 <= w2 && h1 <= h2 && a2 <= a1
    ensures CalculateBmr(w1, h1, a1, gender) <= CalculateBmr(w2, h2, a2, gender)
  {
  }

  /** For the same body data the male BMR is 166 kcal above any other gender's. */
  lemma BmrGenderGap(weight: real, height: real, age: real, gender: string)
    requires gender != "male"
    ensures CalculateBmr(weight, height, age, "male") - CalculateBmr(weight, height, age, gender) == 166.0
  {
  }

  /** `activity_factors.get(activity_level, 1.2)`. */
  function ActivityFactor(level: string): (f: real)
    ensures 1.2 <= f <= 1.9
    ensures level !in {"sedentary", "lightly_active", "moderately_active", "very_active", "extra_active"} ==> f == 1.2
    ensures level == "extra_active" ==> f == 1.9
  {
    if level == "sedentary" then 1.2
    else if level == "lightly_active" then 1.375
    else if level == "moderately_active" then 1.55
    else if level == "very_active" then 1.725
    else if level == "extra_active" then 1.9
    else 1.2
  }

  /** `calculate_tdee`: for a non-negative BMR the result lies between the
      sedentary and the extra-active multiple. */
  function CalculateTdee(bmr: real, level: string): (tdee: real)
    ensures 0.0 <= bmr ==> 1.2 * bmr <= tdee <= 1.9 * bmr
  {
    bmr * ActivityFactor(level)
  }

  /** `calculate_nutrient_needs`: carb 50%, protein 20% and fat 30% of the meal
      energy in grams, then a fixed 10 g of fiber; the three macros give the
      meal energy back at 4, 4 and 9 kcal per gram. */
  function CalculateNutrientNeeds(mealEnergy: real): (needs: seq<real>)
    ensures |needs| == 4 && needs[3] == 10.0
    ensures 4.0 * needs[0] + 4.0 * needs[1] + 9.0 * needs[2] == mealEnergy
    ensures 0.0 <= mealEnergy ==> 0.0 <= needs[0] && 0.0 <= needs[1] && 0.0 <= needs[2]
  {
    [mealEnergy * 0.5 / 4.0, mealEnergy * 0.2 / 4.0, mealEnergy * 0.3 / 9.0, 10.0]
  }
}
