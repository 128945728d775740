/**
 * The glass of components/DrinkVisualization.tsx: how much of the weekly
 * limit is left, as a percentage, and the liquid geometry drawn from it inside
 * a 200 x 300 view box (liquid between y = 40 and the bottom at y = 260).
 */
module DrinkVisualization {

  function Min(a: real, b: real): real { if a <= b then a else b }
  function Max(a: real, b: real): real { if a >= b then a else b }

  /**
   * `Math.max(0, Math.min(100, ((limit - drinks) / limit) * 100))`. A zero limit
   * would give NaN or an infinity in JavaScript and is excluded.
   */
  function RemainingPercentage(weeklyDrinks: real, weeklyLimit: real): (r: real)
    requires weeklyLimit != 0.0
    ensures 0.0 <= r <= 100.0
  {
    Max(0.0, Min(100.0, ((weeklyLimit - weeklyDrinks) / weeklyLimit) * 100.0))
  }

  /** Over the limit: strictly more standard drinks this week than the limit allows. */
  function IsOverLimit(weeklyDrinks: real, weeklyLimit: real): (over: bool)
    ensures over <==> weeklyLimit < weeklyDrinks
  {
    weeklyDrinks > weeklyLimit
  }

  /**
   * Within the limit the glass shows exactly the unused share of it; at or past
   * the limit it is empty, and with nothing drunk it is full.
   */
  lemma RemainingIsUnusedShare(weeklyDrinks: real, weeklyLimit: real)
    requires weeklyLimit > 0.0
    ensures 0.0 <= weeklyDrinks <= weeklyLimit ==>
              RemainingPercentage(weeklyDrinks, weeklyLimit) * weeklyLimit == (weeklyLimit - weeklyDrinks) * 100.0
    ensures weeklyDrinks >= weeklyLimit ==> RemainingPercentage(weeklyDrinks, weeklyLimit) == 0.0
    ensures weeklyDrinks <= 0.0 ==> RemainingPercentage(weeklyDrinks, weeklyLimit) == 100.0
  {
    var q := (weeklyLimit - weeklyDrinks) / weeklyLimit;
    assert q * weeklyLimit == weeklyLimit - weeklyDrinks;
    if weeklyDrinks >= weeklyLimit {
      assert q <= 0.0;
    }
    if weeklyDrinks <= 0.0 {
      assert q >= 1.0;
    }
  }

  /** For a fixed positive limit, drinking more never raises the level. */
  lemma RemainingNonIncreasing(d1: real, d2: real, weeklyLimit: real)
    requires weeklyLimit > 0.0 && d1 <= d2
    ensures RemainingPercentage(d2, weeklyLimit) <= RemainingPercentage(d1, weeklyLimit)
  {
    var q1 := (weeklyLimit - d1) / weeklyLimit;
    var q2 := (weeklyLimit - d2) / weeklyLimit;
    assert q1 - q2 == (d2 - d1) / weeklyLimit;
  }

  /** The glass is empty exactly when the limit is reached; over the limit implies empty. */
  lemma EmptyIffLimitReached(weeklyDrinks: real, weeklyLimit: real)
    requires weeklyLimit > 0.0
    ensures RemainingPercentage(weeklyDrinks, weeklyLimit) == 0.0 <==> weeklyDrinks >= weeklyLimit
    ensures IsOverLimit(weeklyDrinks, weeklyLimit) ==> RemainingPercentage(weeklyDrinks, weeklyLimit) == 0.0
  {
    var q := (weeklyLimit - weeklyDrinks) / weeklyLimit;
    assert q * weeklyLimit == weeklyLimit - weeklyDrinks;
    if weeklyDrinks < weeklyLimit {
      assert q > 0.0;
    } else {
      assert q <= 0.0;
    }
  }

  /** Height of the liquid column, `220 * (remaining / 100)`. */
  function FillHeight(remaining: real): (h: real)
    requires 0.0 <= remaining <= 100.0
    ensures 0.0 <= h <= 220.0
    ensures h == 0.0 <==> remaining == 0.0
  {
    220.0 * (remaining / 100.0)
  }

  /** Top edge of the liquid, `260 - fillHeight`: the column always sits on the bottom at 260. */
  function FillY(remaining: real): (y: real)
    requires 0.0 <= remaining <= 100.0
    ensures 40.0 <= y <= 260.0
    ensures y + FillHeight(remaining) == 260.0
  {
    260.0 - FillHeight(remaining)
  }

  /** The surface highlight and the bubbles are drawn only while some liquid is left. */
  predicate DrawsSurface(remaining: real)
    ensures 0.0 <= remaining <= 100.0 ==> (DrawsSurface(remaining) <==> FillHeight(remaining) > 0.0)
  {
    remaining > 0.0
  }

  /** Number of bubbles drawn. */
  function BubbleCount(remaining: real): (n: nat)
    ensures n == 0 || n == 5
    ensures n > 0 <==> DrawsSurface(remaining)
  {
    if DrawsSurface(remaining) then 5 else 0
  }

  /** With a positive limit, the surface and bubbles appear exactly while under the limit. */
  lemma SurfaceIffUnderLimit(weeklyDrinks: real, weeklyLimit: real)
    requires weeklyLimit > 0.0
    ensures DrawsSurface(RemainingPercentage(weeklyDrinks, weeklyLimit)) <==> weeklyDrinks < weeklyLimit
  {
    EmptyIffLimitReached(weeklyDrinks, weeklyLimit);
  }

  datatype Circle = Circle(cx: real, cy: real, r: real)

  /**
   * One bubble, for the three `Math.random()` draws `u`, `v`, `w`, each in [0, 1):
   * centre `(70 + 60u, 260 - v * fillHeight)`, radius `1.5 + 2w`. Every bubble
   * lies inside the glass's walls, and under the surface `260 - fillHeight`.
   */
  function Bubble(fillHeight: real, u: real, v: real, w: real): (c: Circle)
    requires 0.0 <= fillHeight <= 220.0
    requires 0.0 <= u < 1.0 && 0.0 <= v < 1.0 && 0.0 <= w < 1.0
    ensures 1.5 <= c.r < 3.5
    ensures 45.0 < c.cx - c.r && c.cx + c.r < 155.0
    ensures c.cy <= 260.0
    ensures fillHeight > 0.0 ==> 260.0 - fillHeight < c.cy
  {
    FractionBelow(v, fillHeight);
    Circle(70.0 + u * 60.0, 260.0 - v * fillHeight, 1.5 + w * 2.0)
  }

  /** A fraction in [0, 1) of a length is no longer than it, and shorter when the length is positive. */
  lemma FractionBelow(v: real, h: real)
    requires 0.0 <= v < 1.0 && h >= 0.0
    ensures 0.0 <= v * h <= h
    ensures h > 0.0 ==> v * h < h
  {
    assert (1.0 - v) * h >= 0.0;
    if h > 0.0 {
      assert (1.0 - v) * h > 0.0;
    }
  }

  /** Top and bottom colours of the liquid gradient. */
  function LiquidColors(weeklyDrinks: real, weeklyLimit: real): (c: (string, string))
    ensures IsOverLimit(weeklyDrinks, weeklyLimit) ==> c == ("#ff6b6b", "#ff4444")
    ensures !IsOverLimit(weeklyDrinks, weeklyLimit) ==> c == ("#ffd700", "#ffa500")
  {
    if IsOverLimit(weeklyDrinks, weeklyLimit) then ("#ff6b6b", "#ff4444") else ("#ffd700", "#ffa500")
  }
}
