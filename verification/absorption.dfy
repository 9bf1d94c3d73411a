/** The nutrient absorption model: five accumulators advanced over 100 time
    steps, each by a fixed per-step amount (intake minus the absorbed part). */
module Absorption {

  const TimeSteps: nat := 100

  /** Per-step change of each accumulator, as the loop computes it. */
  function ProteinStep(proteins: real): (d: real)
    ensures d == 0.09 * proteins
  {
    proteins * 0.1 - proteins * 0.1 * 0.1
  }

  function LipidStep(lipids: real): (d: real)
    ensures d == 0.0475 * lipids
  {
    lipids * 0.05 - lipids * 0.05 * 0.05
  }

  function FiberStep(fiber: real): (d: real)
    ensures d == 0.0196 * fiber
  {
    fiber * 0.02 - fiber * 0.02 * 0.02
  }

  function MonosacStep(carbs: real): (d: real)
    ensures d == 0.2 * carbs
  {
    carbs * 0.5 - carbs * 0.5 * 0.6
  }

  function StarchStep(carbs: real, gi: real): (d: real)
    ensures d == 0.07 * carbs * gi
  {
    carbs * gi * 0.1 - carbs * gi * 0.1 * 0.3
  }

  /** The recorded values of one accumulator: after step t (from 0) it has
      grown by the step t + 1 times. */
  function Series(step: real): seq<real>
  {
    seq(TimeSteps, t requires 0 <= t < TimeSteps => (t + 1) as real * step)
  }

  /** `absorption_model`: the 100-step loop and its five lists. */
  method AbsorptionModel(carbs: real, lipids: real, proteins: real, fiber: real, gi: real)
    returns (proteinsArr: seq<real>, lipidsArr: seq<real>, fibersArr: seq<real>,
             monosacArr: seq<real>, starchArr: seq<real>)
    ensures proteinsArr == Series(ProteinStep(proteins))
    ensures lipidsArr == Series(LipidStep(lipids))
    ensures fibersArr == Series(FiberStep(fiber))
    ensures monosacArr == Series(MonosacStep(carbs))
    ensures starchArr == Series(StarchStep(carbs, gi))
  {
    var sProteins, sLipids, sFibers, sMonosac, sStarch := 0.0, 0.0, 0.0, 0.0, 0.0;
    proteinsArr, lipidsArr, fibersArr, monosacArr, starchArr := [], [], [], [], [];
    for t := 0 to TimeSteps
      invariant Accumulated(proteinsArr, sProteins, ProteinStep(proteins), t)
      invariant Accumulated(lipidsArr, sLipids, LipidStep(lipids), t)
      invariant Accumulated(fibersArr, sFibers, FiberStep(fiber), t)
      invariant Accumulated(monosacArr, sMonosac, MonosacStep(carbs), t)
      invariant Accumulated(starchArr, sStarch, StarchStep(carbs, gi), t)
    {
      var dProteins := proteins * 0.1;
      var eProteins := dProteins * 0.1;
      var dLipids := lipids * 0.05;
      var eLipids := dLipids * 0.05;
      var dFibres := fiber * 0.02;
      var eFibres := dFibres * 0.02;
      var dMonosac := carbs * 0.5;
      var eMonosac := dMonosac * 0.6;
      var dStarch := carbs * gi * 0.1;
      var eStarch := dStarch * 0.3;

      Extend(proteinsArr, sProteins, dProteins - eProteins, t);
      Extend(lipidsArr, sLipids, dLipids - eLipids, t);
      Extend(fibersArr, sFibers, dFibres - eFibres, t);
      Extend(monosacArr, sMonosac, dMonosac - eMonosac, t);
      Extend(starchArr, sStarch, dStarch - eStarch, t);

      sProteins := sProteins + (dProteins - eProteins);
      sLipids := sLipids + (dLipids - eLipids);
      sFibers := sFibers + (dFibres - eFibres);
      sMonosac := sMonosac + (dMonosac - eMonosac);
      sStarch := sStarch + (dStarch - eStarch);

      proteinsArr := proteinsArr + [sProteins];
      lipidsArr := lipidsArr + [sLipids];
      fibersArr := fibersArr + [sFibers];
      monosacArr := monosacArr + [sMonosac];
      starchArr := starchArr + [sStarch];
    }
  }

  /** After t steps an accumulator holds t steps' worth and its list is the
      first t values of its series. */
  ghost predicate Accumulated(arr: seq<real>, acc: real, step: real, t: nat)
  {
    t <= TimeSteps && acc == t as real * step && arr == Series(step)[..t]
  }

  lemma Extend(arr: seq<real>, acc: real, step: real, t: nat)
    requires t < TimeSteps && Accumulated(arr, acc, step, t)
    ensures Accumulated(arr + [acc + step], acc + step, step, t + 1)
  {
    assert acc + step == (t + 1) as real * step == Series(step)[t];
    assert Series(step)[..t + 1] == Series(step)[..t] + [Series(step)[t]];
  }

  /** With a non-negative step every series is non-decreasing. */
  lemma SeriesNonDecreasing(step: real, i: nat, j: nat)
    requires 0.0 <= step && i <= j < TimeSteps
    ensures Series(step)[i] <= Series(step)[j]
  {
    assert (i + 1) as real * step <= (j + 1) as real * step;
  }

  /** Non-negative inputs give non-decreasing series, all five of them. */
  lemma AllSeriesNonDecreasing(carbs: real, lipids: real, proteins: real, fiber: real, gi: real, i: nat, j: nat)
    requires 0.0 <= carbs && 0.0 <= lipids && 0.0 <= proteins && 0.0 <= fiber && 0.0 <= gi
    requires i <= j < TimeSteps
    ensures Series(ProteinStep(proteins))[i] <= Series(ProteinStep(proteins))[j]
    ensures Series(LipidStep(lipids))[i] <= Series(LipidStep(lipids))[j]
    ensures Series(FiberStep(fiber))[i] <= Series(FiberStep(fiber))[j]
    ensures Series(MonosacStep(carbs))[i] <= Series(MonosacStep(carbs))[j]
    ensures Series(StarchStep(carbs, gi))[i] <= Series(StarchStep(carbs, gi))[j]
  {
    SeriesNonDecreasing(ProteinStep(proteins), i, j);
    SeriesNonDecreasing(LipidStep(lipids), i, j);
    SeriesNonDecreasing(FiberStep(fiber), i, j);
    SeriesNonDecreasing(MonosacStep(carbs), i, j);
    assert 0.0 <= carbs * gi;
    SeriesNonDecreasing(StarchStep(carbs, gi), i, j);
  }

  /** A zero intake stays at zero throughout, whatever the glycaemic index. */
  lemma ZeroIntakeZeroSeries(gi: real)
    ensures Series(ProteinStep(0.0)) == seq(TimeSteps, _ => 0.0)
    ensures Series(LipidStep(0.0)) == seq(TimeSteps, _ => 0.0)
    ensures Series(FiberStep(0.0)) == seq(TimeSteps, _ => 0.0)
    ensures Series(MonosacStep(0.0)) == seq(TimeSteps, _ => 0.0)
    ensures Series(StarchStep(0.0, gi)) == seq(TimeSteps, _ => 0.0)
  {
  }
}
