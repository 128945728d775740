/**
 * The static drink-type table of constants/drinkTypes.ts: five kinds of drink
 * with a default strength and the volumes the add/edit sheet offers for each.
 */
module DrinkTypes {
  import opened Wrappers
  import opened Calculations

  /** One row of the table; volumes are in fluid ounces, `abv` is a fraction. */
  datatype DrinkType = DrinkType(
    id: string,
    name: string,
    abv: real,
    defaultVolume: real,
    minVolume: real,
    maxVolume: real,
    volumeStep: real)

  const Types: seq<DrinkType> := [
    DrinkType("beer", "Beer", 0.05, 12.0, 8.0, 32.0, 4.0),
    DrinkType("wine", "Wine", 0.12, 5.0, 3.0, 12.0, 1.0),
    DrinkType("cocktail", "Cocktail", 0.40, 1.5, 1.0, 4.0, 0.5),
    DrinkType("shot", "Shot", 0.40, 1.5, 1.0, 2.0, 0.5),
    DrinkType("custom", "Custom", 0.05, 12.0, 0.5, 40.0, 0.5)
  ]

  /** Whole steps of size `step` that fit between `lo` and `x`. */
  function StepsFrom(lo: real, x: real, step: real): int
    requires step > 0.0
  {
    ((x - lo) / step).Floor
  }

  /** `x` lies a whole number of steps above `lo`. */
  predicate OnGrid(x: real, lo: real, step: real)
    requires step > 0.0
  {
    x >= lo && StepsFrom(lo, x, step) as real * step == x - lo
  }

  /** The consistency a table row needs for the sheet's option lists to make sense. */
  predicate WellFormed(t: DrinkType)
  {
    && 0.0 < t.minVolume <= t.defaultVolume <= t.maxVolume
    && t.volumeStep > 0.0
    && OnGrid(t.maxVolume, t.minVolume, t.volumeStep)
    && OnGrid(t.defaultVolume, t.minVolume, t.volumeStep)
    && 0.0 <= t.abv <= 1.0
  }

  /** No two rows share an id. */
  predicate IdsDistinct(ts: seq<DrinkType>)
  {
    forall i, j :: 0 <= i < j < |ts| ==> ts[i].id != ts[j].id
  }

  /** `Array.prototype.find` by id: the first row whose id is `id`, if any. */
  function FindById(ts: seq<DrinkType>, id: string): (r: Option<DrinkType>)
    ensures r.None? <==> forall t :: t in ts ==> t.id != id
    ensures r.Some? ==> r.value in ts && r.value.id == id
    ensures r.Some? ==> exists k :: 0 <= k < |ts| && ts[k] == r.value && forall j :: 0 <= j < k ==> ts[j].id != id
  {
    if ts == [] then None
    else if ts[0].id == id then Some(ts[0])
    else
      var r := FindById(ts[1..], id);
      assert forall t :: t in ts[1..] ==> t in ts;
      assert r.Some? ==> exists k :: 0 <= k < |ts| - 1 && ts[1..][k] == r.value && forall j :: 0 <= j < k ==> ts[1..][j].id != id;
      assert r.Some? ==> exists k :: 1 <= k < |ts| && ts[k] == r.value && forall j :: 0 <= j < k ==> ts[j].id != id;
      r
  }

  /** The table holds exactly the five kinds, in this order, with distinct ids. */
  lemma TableIds()
    ensures |Types| == 5
    ensures Types[0].id == "beer" && Types[1].id == "wine" && Types[2].id == "cocktail"
    ensures Types[3].id == "shot" && Types[4].id == "custom"
    ensures IdsDistinct(Types)
  {
  }

  /** Every row has positive bounds around its default and a step that tiles both ranges. */
  lemma TableWellFormed()
    ensures forall t :: t in Types ==> WellFormed(t)
  {
    assert WellFormed(Types[0]) && WellFormed(Types[1]) && WellFormed(Types[2]);
    assert WellFormed(Types[3]) && WellFormed(Types[4]);
  }

  /** Looking up a row's own id finds that row. */
  lemma FindOwnId(k: nat)
    requires k < |Types|
    ensures FindById(Types, Types[k].id) == Some(Types[k])
  {
    TableIds();
  }

  /**
   * Every default serving carries the same alcohol (14.1936 g): a little more
   * than one standard drink whichever button is pressed.
   */
  lemma DefaultServingsAreEqual()
    ensures forall t :: t in Types ==> StandardDrinks(t.defaultVolume, t.abv) == StandardDrinks(12.0, 0.05)
  {
    assert StandardDrinks(5.0, 0.12) == StandardDrinks(12.0, 0.05);
    assert StandardDrinks(1.5, 0.40) == StandardDrinks(12.0, 0.05);
  }
}
