/** The predictive simulator's valuation estimate (`runSimulation` in
    GenericContentSlide.tsx): a per-brand base price, linear depreciation by
    age and mileage, a 4% band around the estimate, every money figure rounded
    to the nearest 100,000, and a days-to-sell figure derived from mileage. */
module Valuation {
  import opened JsMath

  /** The current year is hard-coded in the source; it is a named constant
      here rather than a parameter. */
  const CurrentYear: int := 2025

  const ToyotaBase: real := 95000000.0
  const MazdaBase: real := 88000000.0
  /** Every brand other than Toyota and Mazda (Renault, Chevrolet, or any
      string at all) silently gets this base. */
  const DefaultBase: real := 78000000.0

  /** Fraction of value lost per year of age. */
  const AgeRate: real := 0.08
  /** Fraction of value lost per 10,000 km. */
  const KmRate: real := 0.015
  /** Half-width of the price band, as a fraction of the estimate. */
  const Spread: real := 0.04
  /** Money figures are rounded to a multiple of this. */
  const MoneyUnit: int := 100000
  const Confidence: real := 94.2
  const BaseDays: real := 30.0
  const KmPerExtraDay: real := 2000.0

  /** The slider ranges of the input form; the computation itself accepts any
      integers. */
  const SliderMinYear: int := 2015
  const SliderMaxYear: int := 2024
  const SliderMaxKm: int := 150000

  datatype Valuation = Valuation(price: int, min: int, max: int, confidence: real, days: int)

  /** The base price: Toyota first, then Mazda overrides, everything else
      falls back to the default tier. */
  function BasePrice(brand: string): (base: real)
    ensures base > 0.0
    ensures base == ToyotaBase <==> brand == "Toyota"
    ensures base == MazdaBase <==> brand == "Mazda"
    ensures base == DefaultBase <==> brand != "Toyota" && brand != "Mazda"
  {
    var base := if brand == "Toyota" then ToyotaBase else DefaultBase;
    if brand == "Mazda" then MazdaBase else base
  }

  /** Fraction of value lost to age: nothing for a current-year car, and at
      most 80% over the form's year range. */
  function AgeFactor(year: int): (f: real)
    ensures f == 0.0 <==> year == CurrentYear
    ensures f > 0.0 <==> year < CurrentYear
    ensures SliderMinYear <= year <= SliderMaxYear ==> AgeRate <= f <= 0.8
  {
    (CurrentYear - year) as real * AgeRate
  }

  /** Fraction of value lost to mileage: nothing at 0 km, and at most 22.5%
      over the form's mileage range. */
  function KmFactor(km: int): (f: real)
    ensures f == 0.0 <==> km == 0
    ensures f > 0.0 <==> km > 0
    ensures 0 <= km <= SliderMaxKm ==> 0.0 <= f <= 0.225
  {
    (km as real / 10000.0) * KmRate
  }

  /** The unrounded estimate. Nothing bounds it below: an old enough or
      worn enough car gets a negative estimate. */
  function Estimate(brand: string, year: int, km: int): (e: real)
    ensures year == CurrentYear && km == 0 ==> e == BasePrice(brand)
    ensures e < 0.0 <==> AgeFactor(year) + KmFactor(km) > 1.0
    ensures e == 0.0 <==> AgeFactor(year) + KmFactor(km) == 1.0
  {
    BasePrice(brand) * (1.0 - AgeFactor(year) - KmFactor(km))
  }

  /** `Math.round(x / 100000) * 100000`. */
  function RoundMoney(x: real): (r: int)
    ensures r % MoneyUnit == 0
    ensures x - 50000.0 < r as real <= x + 50000.0
  {
    Round(x / MoneyUnit as real) * MoneyUnit
  }

  /** `RoundMoney` is the unique multiple of 100,000 within half a unit,
      halves going up. */
  lemma RoundMoneyUnique(x: real, n: int)
    requires n % MoneyUnit == 0
    requires x - 50000.0 < n as real <= x + 50000.0
    ensures RoundMoney(x) == n
  {
    var q := n / MoneyUnit;
    assert n == q * MoneyUnit;
    assert x / 100000.0 - 0.5 < q as real <= x / 100000.0 + 0.5;
    RoundUnique(x / 100000.0, q);
  }

  lemma RoundMoneyMonotone(x: real, y: real)
    requires x <= y
    ensures RoundMoney(x) <= RoundMoney(y)
  {
    RoundMonotone(x / 100000.0, y / 100000.0);
  }

  function RunSimulation(brand: string, year: int, km: int): (v: Valuation)
    ensures v.price % MoneyUnit == 0 && v.min % MoneyUnit == 0 && v.max % MoneyUnit == 0
    ensures var e := Estimate(brand, year, km);
      && e - 50000.0 < v.price as real <= e + 50000.0
      && e * (1.0 - Spread) - 50000.0 < v.min as real <= e * (1.0 - Spread) + 50000.0
      && e * (1.0 + Spread) - 50000.0 < v.max as real <= e * (1.0 + Spread) + 50000.0
    ensures v.confidence == Confidence
    ensures var d := BaseDays + km as real / KmPerExtraDay;
      d - 0.5 < v.days as real <= d + 0.5
    ensures km >= 0 ==> v.days >= 30
  {
    var estimated := Estimate(brand, year, km);
    var variance := estimated * Spread;
    Valuation(
      RoundMoney(estimated),
      RoundMoney(estimated - variance),
      RoundMoney(estimated + variance),
      Confidence,
      Round(BaseDays + km as real / KmPerExtraDay))
  }

  /** With a non-negative estimate the band brackets the price. */
  lemma BandOrdered(brand: string, year: int, km: int)
    requires Estimate(brand, year, km) >= 0.0
    ensures var v := RunSimulation(brand, year, km); v.min <= v.price <= v.max
  {
    var e := Estimate(brand, year, km);
    RoundMoneyMonotone(e - e * Spread, e);
    RoundMoneyMonotone(e, e + e * Spread);
  }

  /** With a negative estimate the variance is negative, so the band turns
      upside down: the "max" is at most the price and the "min" at least it. */
  lemma BandInverted(brand: string, year: int, km: int)
    requires Estimate(brand, year, km) < 0.0
    ensures var v := RunSimulation(brand, year, km); v.max <= v.price <= v.min
  {
    var e := Estimate(brand, year, km);
    RoundMoneyMonotone(e + e * Spread, e);
    RoundMoneyMonotone(e, e - e * Spread);
  }

  /** The band's width is twice the variance, up to one rounding unit. */
  lemma BandWidth(brand: string, year: int, km: int)
    ensures var v := RunSimulation(brand, year, km);
      var e := Estimate(brand, year, km);
      -100000.0 < (v.max - v.min) as real - 2.0 * Spread * e < 100000.0
  {
  }

  /** The oldest model year and the highest mileage the form offers already
      give a negative estimate, whatever the brand. */
  lemma NegativeWithinFormRange(brand: string)
    ensures SliderMinYear <= 2015 <= SliderMaxYear && 0 <= 150000 <= SliderMaxKm
    ensures AgeFactor(2015) + KmFactor(150000) == 1.025
    ensures Estimate(brand, 2015, 150000) < 0.0
  {
  }

  /** A concrete inverted band: Toyota at 2015 / 150,000 km. */
  lemma InvertedBandExample()
    ensures RunSimulation("Toyota", 2015, 150000)
         == Valuation(-2400000, -2300000, -2500000, 94.2, 105)
  {
    var e := Estimate("Toyota", 2015, 150000);
    assert e == -2375000.0;
    RoundMoneyUnique(e, -2400000);
    RoundMoneyUnique(e - e * Spread, -2300000);
    RoundMoneyUnique(e + e * Spread, -2500000);
    RoundUnique(105.0, 105);
  }

  /** The worked example: Toyota, 2021, 45,000 km. */
  lemma ToyotaExample()
    ensures RunSimulation("Toyota", 2021, 45000)
         == Valuation(58200000, 55900000, 60500000, 94.2, 53)
  {
    var e := Estimate("Toyota", 2021, 45000);
    assert e == 58187500.0;
    RoundMoneyUnique(e, 58200000);
    RoundMoneyUnique(e - e * Spread, 55900000);
    RoundMoneyUnique(e + e * Spread, 60500000);
    RoundUnique(52.5, 53);
  }

  /** More kilometres never raise the rounded price, for a fixed brand and year. */
  lemma PriceNonIncreasingInKm(brand: string, year: int, km1: int, km2: int)
    requires km1 <= km2
    ensures RunSimulation(brand, year, km2).price <= RunSimulation(brand, year, km1).price
  {
    assert KmFactor(km1) <= KmFactor(km2);
    assert Estimate(brand, year, km2) <= Estimate(brand, year, km1) by {
      assert 1.0 - AgeFactor(year) - KmFactor(km2) <= 1.0 - AgeFactor(year) - KmFactor(km1);
    }
    RoundMoneyMonotone(Estimate(brand, year, km2), Estimate(brand, year, km1));
  }

  /** A newer model year never lowers the rounded price, for a fixed brand and mileage. */
  lemma PriceNonDecreasingInYear(brand: string, year1: int, year2: int, km: int)
    requires year1 <= year2
    ensures RunSimulation(brand, year1, km).price <= RunSimulation(brand, year2, km).price
  {
    assert AgeFactor(year2) <= AgeFactor(year1);
    assert Estimate(brand, year1, km) <= Estimate(brand, year2, km) by {
      assert 1.0 - AgeFactor(year1) - KmFactor(km) <= 1.0 - AgeFactor(year2) - KmFactor(km);
    }
    RoundMoneyMonotone(Estimate(brand, year1, km), Estimate(brand, year2, km));
  }

  /** Days to sell never decrease with mileage. */
  lemma DaysNonDecreasingInKm(brand: string, year: int, km1: int, km2: int)
    requires km1 <= km2
    ensures RunSimulation(brand, year, km1).days <= RunSimulation(brand, year, km2).days
  {
    RoundMonotone(BaseDays + km1 as real / KmPerExtraDay, BaseDays + km2 as real / KmPerExtraDay);
  }

  /** While the remaining-value fraction is non-negative, the brand tiers are
      ordered Toyota, Mazda, default; strictly so before rounding while it is
      positive. A negative fraction reverses the order. */
  lemma BrandOrdering(other: string, year: int, km: int)
    requires other != "Toyota" && other != "Mazda"
    ensures var f := 1.0 - AgeFactor(year) - KmFactor(km);
      && (f > 0.0 ==> Estimate(other, year, km) < Estimate("Mazda", year, km) < Estimate("Toyota", year, km))
      && (f < 0.0 ==> Estimate("Toyota", year, km) < Estimate("Mazda", year, km) < Estimate(other, year, km))
      && (f >= 0.0 ==> RunSimulation(other, year, km).price <= RunSimulation("Mazda", year, km).price
                                                         <= RunSimulation("Toyota", year, km).price)
  {
    var f := 1.0 - AgeFactor(year) - KmFactor(km);
    if f >= 0.0 {
      assert DefaultBase * f <= MazdaBase * f <= ToyotaBase * f;
      RoundMoneyMonotone(Estimate(other, year, km), Estimate("Mazda", year, km));
      RoundMoneyMonotone(Estimate("Mazda", year, km), Estimate("Toyota", year, km));
    }
  }
}
