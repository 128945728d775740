/**
 * The standard-drink formula of utils/calculations.ts: a volume in US fluid
 * ounces and an alcohol-by-volume fraction become a number of standard drinks
 * (14 g of ethanol each). Modelled over `real`, so JavaScript's floating-point
 * rounding is not part of it.
 */
module Calculations {

  /** Millilitres per fluid ounce, as the source rounds it. */
  const MlPerOz: real := 29.57
  /** Grams of ethanol per millilitre. */
  const EthanolDensity: real := 0.8
  /** Grams of ethanol in one standard drink. */
  const GramsPerStandardDrink: real := 14.0

  /** Standard drinks in `oz` ounces of a drink that is `abv` alcohol by volume. */
  function StandardDrinks(oz: real, abv: real): (r: real)
    ensures oz == 0.0 || abv == 0.0 ==> r == 0.0
    ensures oz >= 0.0 && abv >= 0.0 ==> r >= 0.0
  {
    var ml := oz * MlPerOz;
    (ml * abv * EthanolDensity) / GramsPerStandardDrink
  }

  /** With the strength fixed and not negative, more volume never means fewer standard drinks. */
  lemma MonotoneInVolume(a: real, b: real, abv: real)
    requires abv >= 0.0 && a <= b
    ensures StandardDrinks(a, abv) <= StandardDrinks(b, abv)
  {
    assert StandardDrinks(b, abv) - StandardDrinks(a, abv) == StandardDrinks(b - a, abv);
  }

  /** With the volume fixed and not negative, a stronger drink never means fewer standard drinks. */
  lemma MonotoneInAbv(oz: real, a: real, b: real)
    requires oz >= 0.0 && a <= b
    ensures StandardDrinks(oz, a) <= StandardDrinks(oz, b)
  {
    assert StandardDrinks(oz, b) - StandardDrinks(oz, a) == StandardDrinks(oz, b - a);
  }

  /** Pouring two volumes of the same drink together adds their standard drinks. */
  lemma AdditiveInVolume(a: real, b: real, abv: real)
    ensures StandardDrinks(a + b, abv) == StandardDrinks(a, abv) + StandardDrinks(b, abv)
  {
  }

  /** A 12 oz beer at 5% is 354.84 ml, that is 14.1936 g of ethanol: just over one standard drink. */
  lemma TwelveOunceBeer()
    ensures StandardDrinks(12.0, 0.05) == 354.84 * 0.05 * 0.8 / 14.0
    ensures 1.0138 < StandardDrinks(12.0, 0.05) < 1.0139
  {
  }
}
