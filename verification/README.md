# OKTO slide deck: the two illustrative simulators

The OKTO presentation is a React slide deck, and almost all of it is
presentational. Its only computation is in two button handlers in
`GenericContentSlide.tsx`, and this project models both as pure Dafny
functions over exact reals:

- **Predictive simulator** (`runSimulation`), module `Valuation`. It takes a
  brand, a model year and a mileage. It returns a price estimate, a min/max
  band of ±4%, a constant confidence of 94.2 and a days-to-sell figure. All
  money figures are rounded half-up to a multiple of 100,000.
- **Opportunity matrix** (`scanMarket`), module `MarketScan`. It builds 50
  synthetic listings from an exponential fair-value curve plus noise. Each
  listing is classified by its percentage gap to its fair price:
  opportunity above 8, overpriced below -8, fair otherwise. Listing 10 is
  forced to a 25% discount. The best deal is picked with `reduce`.
- Module `JsMath` holds the JavaScript `Math` operations they use.
  `Math.round(x)` is `Floor(x + 1/2)`. `Math.random()` becomes input draws
  in [0, 1). `Math.exp` becomes an abstract function that lies in (0, 1] on
  the non-positive reals.

The current year, hard-coded as 2025 in the source, is the named constant
`Valuation.CurrentYear`. It is not a parameter.

The scan is a function of its random draws: two `Math.random()` draws per
listing, in the order the loop makes them. Mileage and noise are derived
from the draws exactly as the source does. So the mileage range
`[0, 100000)` and the noise range `[-0.15, 0.20)` are proved, not assumed.
Listing 10 still consumes its noise draw and then ignores it, as the source
does.

## Behaviour worth knowing

- Best-deal ties go to the **later** listing. The `reduce` callback at
  GenericContentSlide.tsx:126 keeps `prev` only when its gap is strictly
  greater (`>`), so on equal gaps it returns `current`.
- The noise range at GenericContentSlide.tsx:101 is `[-0.15, 0.20)`, which
  is not symmetric. The comment at :100 says ±15%.
- `min <= price <= max` is guaranteed only while the unrounded estimate is
  non-negative (`Valuation.BandOrdered`). Nothing floors the estimate, and
  inside the form's slider ranges it can go negative, for example year 2015
  with 150,000 km. Below zero the variance is negative and the band can
  invert (`Valuation.BandInverted`).
- Toyota beats the other tiers strictly only on the unrounded estimate, and
  only while the remaining-value fraction is positive. After rounding the
  order is non-strict, and a negative fraction reverses it.
- An unknown brand silently gets the default tier. There is no error.
  Year and mileage are not validated.

## Model

| member | source | states |
|---|---|---|
| JsMath.Round | GenericContentSlide.tsx:61-65 | `Math.round` lands within half a unit of its argument, with halves going up |
| JsMath.RoundUnique | GenericContentSlide.tsx:61-65 | that window holds exactly one integer, so `Math.round` is pinned down by it |
| JsMath.RoundMonotone | GenericContentSlide.tsx:61-65 | `Math.round` is monotone |
| JsMath.Floor | GenericContentSlide.tsx:92 | `Math.floor` gives the greatest integer not above its argument |
| Valuation.BasePrice | GenericContentSlide.tsx:51-52 | Toyota gets 95,000,000 and Mazda 88,000,000; every other brand string gets 78,000,000; each tier has exactly those brands |
| Valuation.AgeFactor | GenericContentSlide.tsx:54 | the age factor is zero exactly for a current-year car and positive exactly for an older one; over the slider years 2015-2024 it lies in [0.08, 0.8] |
| Valuation.KmFactor | GenericContentSlide.tsx:55 | the mileage factor is zero exactly at 0 km and positive exactly for positive km; over the slider range 0-150,000 km it lies in [0, 0.225] |
| Valuation.Estimate | GenericContentSlide.tsx:54-57 | a current-year car with 0 km is worth the base price; the estimate is negative exactly when age and km factors together exceed 1, and zero exactly when they sum to 1 |
| Valuation.RoundMoney | GenericContentSlide.tsx:61-63 | the result is a multiple of 100,000 within 50,000 of the input, with halves going up |
| Valuation.RoundMoneyUnique | GenericContentSlide.tsx:61-63 | that multiple is unique |
| Valuation.RoundMoneyMonotone | GenericContentSlide.tsx:61-63 | rounding money is monotone |
| Valuation.RunSimulation | GenericContentSlide.tsx:48-69 | price, min and max are multiples of 100,000 nearest to the estimate, the estimate minus 4% and the estimate plus 4%; confidence is always 94.2; days is 30 + km/2000 rounded half-up, and at least 30 for non-negative km |
| Valuation.BandOrdered | GenericContentSlide.tsx:57-63 | a non-negative estimate gives min <= price <= max |
| Valuation.BandInverted | GenericContentSlide.tsx:57-63 | a negative estimate gives max <= price <= min |
| Valuation.BandWidth | GenericContentSlide.tsx:58-63 | max - min is twice the variance, to within one rounding unit |
| Valuation.NegativeWithinFormRange | GenericContentSlide.tsx:54-57 | year 2015 with 150,000 km is allowed by the sliders (lines 468 and 482) and gives factor sum 1.025, so the estimate is negative for every brand |
| Valuation.InvertedBandExample | GenericContentSlide.tsx:51-65 | Toyota / 2015 / 150,000 km yields price -2,400,000, min -2,300,000, max -2,500,000 and 105 days, so min > max |
| Valuation.ToyotaExample | GenericContentSlide.tsx:51-65 | Toyota / 2021 / 45,000 km yields price 58,200,000, min 55,900,000, max 60,500,000, confidence 94.2 and 53 days |
| Valuation.PriceNonIncreasingInKm | GenericContentSlide.tsx:54-61 | for a fixed brand and year, more km never raises the rounded price |
| Valuation.PriceNonDecreasingInYear | GenericContentSlide.tsx:54-61 | for a fixed brand and km, a newer year never lowers the rounded price |
| Valuation.DaysNonDecreasingInKm | GenericContentSlide.tsx:65 | days to sell never decrease as km grows |
| Valuation.BrandOrdering | GenericContentSlide.tsx:51-61 | with a positive remaining fraction the unrounded estimates order as default < Mazda < Toyota, and a negative fraction reverses them; with a non-negative fraction the rounded prices keep that order non-strictly |
| MarketScan.Mileage | GenericContentSlide.tsx:92 | a random draw gives an integer mileage in [0, 100000) |
| MarketScan.Noise | GenericContentSlide.tsx:100-101 | a random draw gives noise in [-0.15, 0.20) |
| MarketScan.FairPrice | GenericContentSlide.tsx:94-97 | the fair price is positive and at most the 90,000,000 new price |
| MarketScan.Gap | GenericContentSlide.tsx:109 | the gap is positive exactly when the asking price is below the fair price, zero exactly when they are equal, and negative exactly when it is above |
| MarketScan.Classify | GenericContentSlide.tsx:107-112 | the three classes are exclusive and cover every gap: opportunity exactly when gap > 8, overpriced exactly when gap < -8, fair exactly when -8 <= gap <= 8 |
| MarketScan.GapOfScaled | GenericContentSlide.tsx:102-109 | asking fair * (1 + n) means a gap of -100 n percent |
| MarketScan.MakeListing | GenericContentSlide.tsx:90-122 | listing i has id i, km in [0, 100000), a fair price in (0, 90,000,000] and its gap's class; listing 10 asks 75% of fair, so its gap is exactly 25; any other listing has gap -100 * noise, which lies in (-20, 15] |
| MarketScan.Generate | GenericContentSlide.tsx:86-123 | exactly 50 listings; listing j comes from draw j in generation order, with id j and km in [0, 100000) |
| MarketScan.Pick | GenericContentSlide.tsx:126 | the `reduce` callback returns one of its two arguments, with a gap at least as large as both; it returns `current` exactly when `prev`'s gap is not strictly greater (or the two are the same listing) |
| MarketScan.Reduce | GenericContentSlide.tsx:125-126 | the `reduce` returns a member of the batch whose gap is at least every listing's gap |
| MarketScan.ReduceIsLastMaximum | GenericContentSlide.tsx:126 | the `reduce` returns exactly the last listing holding the maximum gap (strict `>`: ties go to the later listing) |
| MarketScan.LastMaximumExists | GenericContentSlide.tsx:126 | every non-empty batch has a last maximum, so the previous row describes every `reduce` call |
| MarketScan.TieGoesToLater | GenericContentSlide.tsx:126 | of two listings with equal gap, the second is chosen |
| MarketScan.SeededIsLastMaximum | GenericContentSlide.tsx:104-126 | in a generated batch listing 10 is the last maximum, and every other listing's gap is at most 15 |
| MarketScan.SomeOpportunity | GenericContentSlide.tsx:104-112 | every generated batch holds at least one opportunity |
| MarketScan.ScanMarket | GenericContentSlide.tsx:79-126 | 50 listings, listing j being the one generated from draw j, classified, with ids 0..49 and km in [0, 100000); the best deal is the `reduce` result, which is always listing 10, with gap 25 and class opportunity, strictly above every other listing |
| MarketScan.NoNoiseNewCarIsFair | GenericContentSlide.tsx:92-112 | with 0 km, exp(0) = 1 and zero noise, the listing asks 90,000,000, has gap 0 and is fair |

## Left out

- Floating point: every JavaScript number is an exact real. IEEE-754 rounding in the products, in `Math.exp` and in the reads of random draws is not modelled.
- `Math.random`: its draws are inputs to the scan. The scan only requires what `Math.random` guarantees, namely that each draw lies in [0, 1).
- `Math.exp`: its values are not computed. The model uses only that it is positive and at most 1 on non-positive arguments. Nothing about the curve's shape (for example "about half the value at 100,000 km") is stated.
- The `setTimeout` delays and the idle/loading/complete and idle/scanning/analyzed UI state flags are timer-driven view state, not computation.
- Display formatting is not modelled: `formatMoney` and `toFixed`, the `'$ M'` replacement, the 0.88 twelve-month projection text, the listing's `model` label string and the chart coordinate mapping.
- All rendering and animation in the other components, and the static content and type declarations, are out of scope: they contain no computation.
