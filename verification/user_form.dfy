/** The browser-side calculators of the user form: `calculateTDEE`
    (revised Harris-Benedict), `calculateNutrientNeeds`, and the input checks
    of the submit handler.  JavaScript's NaN is `None`. */
module UserForm {
  import opened Wrappers

  /** `Math.round` on a finite number: the nearest integer, halves rounded up. */
  function Round(x: real): (r: int)
    ensures x - 0.5 < r as real <= x + 0.5
  {
    (x + 0.5).Floor
  }

  lemma RoundMonotone(x: real, y: real)
    requires x <= y
    ensures Round(x) <= Round(y)
  {
  }

  /** The revised Harris-Benedict BMR. */
  function HarrisBenedict(weight: real, height: real, age: real, gender: string): real
  {
    if gender == "male" then 88.362 + 13.397 * weight + 4.799 * height - 5.677 * age
    else 447.593 + 9.247 * weight + 3.098 * height - 4.330 * age
  }

  /** `activityFactors[level]`: `undefined` (here `None`) for an unknown level. */
  function ActivityFactor(level: string): (f: Option<real>)
    ensures f.Some? <==> level in {"sedentary", "lightly_active", "moderately_active", "very_active", "extra_active"}
    ensures f.Some? ==> 1.2 <= f.value <= 1.9
  {
    if level == "sedentary" then Some(1.2)
    else if level == "lightly_active" then Some(1.375)
    else if level == "moderately_active" then Some(1.55)
    else if level == "very_active" then Some(1.725)
    else if level == "extra_active" then Some(1.9)
    else None
  }

  /** `calculateTDEE`: `Math.round(bmr * factor)`; NaN when the age did not
      parse or the activity level is unknown. */
  function CalculateTdee(weight: real, height: real, age: Option<int>, gender: string, level: string): (tdee: Option<int>)
    ensures tdee.Some? <==> age.Some? && ActivityFactor(level).Some?
    ensures tdee.Some? ==>
      var exact := HarrisBenedict(weight, height, age.value as real, gender) * ActivityFactor(level).value;
      exact - 0.5 < tdee.value as real <= exact + 0.5
  {
    match (age, ActivityFactor(level))
    case (Some(a), Some(f)) => Some(Round(HarrisBenedict(weight, height, a as real, gender) * f))
    case _ => None
  }

  datatype MacroNeeds = MacroNeeds(carb: int, protein: int, fat: int)

  /** One meal's needs: its share of the TDEE, split 50/20/30 over carb,
      protein and fat at 4/4/9 kcal per gram, each rounded. */
  function MealNeeds(tdee: real, share: real): MacroNeeds
  {
    var energy := tdee * share;
    MacroNeeds(Round(energy * 0.5 / 4.0), Round(energy * 0.2 / 4.0), Round(energy * 0.3 / 9.0))
  }

  /** `meal_ratios`, in the object's order. */
  const MealShares: seq<(string, real)> := [("breakfast", 0.3), ("lunch", 0.4), ("dinner", 0.3)]

  function NeedsFor(tdee: int): map<string, MacroNeeds>
  {
    map["breakfast" := MealNeeds(tdee as real, 0.3), "lunch" := MealNeeds(tdee as real, 0.4),
        "dinner" := MealNeeds(tdee as real, 0.3)]
  }

  /** `calculateNutrientNeeds`: fill one entry per meal of `meal_ratios`. */
  method CalculateNutrientNeeds(tdee: int) returns (needs: map<string, MacroNeeds>)
    ensures needs == NeedsFor(tdee)
    ensures needs.Keys == {"breakfast", "lunch", "dinner"}
  {
    needs := map[];
    for i := 0 to |MealShares|
      invariant needs == FirstMeals(tdee, i)
    {
      var (meal, share) := MealShares[i];
      needs := needs[meal := MealNeeds(tdee as real, share)];
    }
    var t := tdee as real;
    assert FirstMeals(tdee, 1) == map["breakfast" := MealNeeds(t, 0.3)];
    assert FirstMeals(tdee, 2) == FirstMeals(tdee, 1)["lunch" := MealNeeds(t, 0.4)];
    assert FirstMeals(tdee, 3) == FirstMeals(tdee, 2)["dinner" := MealNeeds(t, 0.3)];
  }

  /** The entries for the first n meals of `meal_ratios`. */
  function FirstMeals(tdee: int, n: nat): map<string, MacroNeeds>
    requires n <= |MealShares|
  {
    if n == 0 then map[]
    else FirstMeals(tdee, n - 1)[MealShares[n - 1].0 := MealNeeds(tdee as real, MealShares[n - 1].1)]
  }

  /** Every rounded macro is within half a gram of the exact share. */
  lemma MealNeedsWithinHalfGram(tdee: real, share: real)
    ensures var n := MealNeeds(tdee, share);
      var energy := tdee * share;
      -0.5 < n.carb as real - energy * 0.5 / 4.0 <= 0.5 &&
      -0.5 < n.protein as real - energy * 0.2 / 4.0 <= 0.5 &&
      -0.5 < n.fat as real - energy * 0.3 / 9.0 <= 0.5
  {
  }

  /** Breakfast and dinner share 30% each, so their needs agree; lunch's 40%
      is never below them. */
  lemma LunchAtLeastOtherMeals(tdee: int)
    requires 0 <= tdee
    ensures NeedsFor(tdee)["breakfast"] == NeedsFor(tdee)["dinner"]
    ensures var b, l := NeedsFor(tdee)["breakfast"], NeedsFor(tdee)["lunch"];
      b.carb <= l.carb && b.protein <= l.protein && b.fat <= l.fat
  {
    var t := tdee as real;
    RoundMonotone(t * 0.3 * 0.5 / 4.0, t * 0.4 * 0.5 / 4.0);
    RoundMonotone(t * 0.3 * 0.2 / 4.0, t * 0.4 * 0.2 / 4.0);
    RoundMonotone(t * 0.3 * 0.3 / 9.0, t * 0.4 * 0.3 / 9.0);
  }

  /** A TDEE of 1800 kcal gives the needs the knowledge graph's demo user
      carries: lunch {90, 36, 24}, breakfast and dinner {68, 27, 18}. */
  lemma NeedsAt1800()
    ensures NeedsFor(1800)["lunch"] == MacroNeeds(90, 36, 24)
    ensures NeedsFor(1800)["breakfast"] == MacroNeeds(68, 27, 18)
    ensures NeedsFor(1800)["dinner"] == MacroNeeds(68, 27, 18)
  {
    assert Round(67.5) == 68;
  }

  datatype Field = Height | Weight | PreMealGlucose

  /** The parsed form: `parseFloat`/`parseInt` results, NaN as `None`. */
  datatype Form = Form(height: Option<real>, weight: Option<real>, age: Option<int>, gender: string,
                       preMealGlucose: Option<real>, activityLevel: string)

  /** What the handler does: stop at the first invalid field, or compute the
      TDEE and the needs (NaN when the TDEE is NaN) and store them. */
  datatype Submission = Rejected(field: Field) | Saved(tdee: Option<int>, needs: Option<map<string, MacroNeeds>>)

  /** `isNaN(v) || v <= 0` rejects. */
  predicate Positive(v: Option<real>)
  {
    v.Some? && v.value > 0.0
  }

  /** The submit handler's guards, then the two calculators. */
  method Submit(form: Form) returns (s: Submission)
    ensures s == Rejected(Height) <==> !Positive(form.height)
    ensures s == Rejected(Weight) <==> Positive(form.height) && !Positive(form.weight)
    ensures s == Rejected(PreMealGlucose) <==>
      Positive(form.height) && Positive(form.weight) && !Positive(form.preMealGlucose)
    ensures s.Saved? ==>
      s.tdee == CalculateTdee(form.weight.value, form.height.value, form.age, form.gender, form.activityLevel) &&
      s.needs == (if s.tdee.Some? then Some(NeedsFor(s.tdee.value)) else None)
  {
    if form.height.None? || form.height.value <= 0.0 {
      return Rejected(Height);
    }
    if form.weight.None? || form.weight.value <= 0.0 {
      return Rejected(Weight);
    }
    if form.preMealGlucose.None? || form.preMealGlucose.value <= 0.0 {
      return Rejected(PreMealGlucose);
    }
    var tdee := CalculateTdee(form.weight.value, form.height.value, form.age, form.gender, form.activityLevel);
    if tdee.Some? {
      var needs := CalculateNutrientNeeds(tdee.value);
      s := Saved(tdee, Some(needs));
    } else {
      s := Saved(tdee, None);
    }
  }
}
