/**
 * The plain glass of components/SimpleDrinkVisualization.tsx: a box filled from
 * the bottom by the consumed share of the weekly limit.
 */
module SimpleDrinkVisualization {
  import opened DrinkVisualization

  /** `100 - remainingPercentage`: the height of the fill, in percent of the glass. */
  function FillPercentage(weeklyDrinks: real, weeklyLimit: real): (f: real)
    requires weeklyLimit != 0.0
    ensures 0.0 <= f <= 100.0
    ensures f + RemainingPercentage(weeklyDrinks, weeklyLimit) == 100.0
  {
    100.0 - RemainingPercentage(weeklyDrinks, weeklyLimit)
  }

  /** The fill is the consumed share of the limit, clamped to [0, 100]. */
  lemma FillIsConsumedShare(weeklyDrinks: real, weeklyLimit: real)
    requires weeklyLimit > 0.0
    ensures FillPercentage(weeklyDrinks, weeklyLimit) == Max(0.0, Min(100.0, weeklyDrinks / weeklyLimit * 100.0))
  {
    var q := (weeklyLimit - weeklyDrinks) / weeklyLimit;
    assert weeklyLimit / weeklyLimit == 1.0;
    assert q == weeklyLimit / weeklyLimit - weeklyDrinks / weeklyLimit;
  }

  /** Full at or past the limit, empty with nothing drunk. */
  lemma FillExtremes(weeklyDrinks: real, weeklyLimit: real)
    requires weeklyLimit > 0.0
    ensures weeklyDrinks >= weeklyLimit ==> FillPercentage(weeklyDrinks, weeklyLimit) == 100.0
    ensures weeklyDrinks <= 0.0 ==> FillPercentage(weeklyDrinks, weeklyLimit) == 0.0
  {
    RemainingIsUnusedShare(weeklyDrinks, weeklyLimit);
  }

  /** The fill colour: red over the limit, gold otherwise. */
  function FillColor(weeklyDrinks: real, weeklyLimit: real): (c: string)
    ensures c == "#ff4444" <==> weeklyDrinks > weeklyLimit
    ensures c == "#ffd700" <==> weeklyDrinks <= weeklyLimit
  {
    if IsOverLimit(weeklyDrinks, weeklyLimit) then "#ff4444" else "#ffd700"
  }
}
