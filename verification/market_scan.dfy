/** The opportunity matrix's market scan (`scanMarket` in
    GenericContentSlide.tsx): fifty synthetic listings priced off an
    exponential fair-value curve plus noise, each classified by its gap to the
    fair price, and the best deal picked with a `reduce`.

    The scan is a pure function of the `Math.random()` draws (two per
    listing: one for mileage, one for noise) and of a stand-in for
    `Math.exp`. */
module MarketScan {
  import opened JsMath

  const BatchSize: int := 50
  const BaseNewPrice: real := 90000000.0
  const DecayRate: real := 0.000007
  const MaxKm: int := 100000
  /** Noise is `draw * NoiseSpan - NoiseFloor`, so it lies in [-0.15, 0.20). */
  const NoiseSpan: real := 0.35
  const NoiseFloor: real := 0.15
  /** The listing forced to a deep discount so that every batch shows a deal. */
  const SeededIndex: int := 10
  const SeededFactor: real := 0.75
  /** Gap percentages beyond plus or minus this leave the fair bucket. */
  const Threshold: real := 8.0

  datatype Status = Fair | Opportunity | Overpriced

  datatype Listing = Listing(id: int, km: int, price: real, fairPrice: real,
                             status: Status, gapPercent: real)

  /** The two `Math.random()` draws consumed by one loop iteration, in call order. */
  datatype Draw = Draw(forKm: real, forNoise: real)

  predicate ValidDraw(d: Draw)
  {
    IsRandomDraw(d.forKm) && IsRandomDraw(d.forNoise)
  }

  predicate ValidDraws(draws: seq<Draw>)
  {
    |draws| == BatchSize && forall j :: 0 <= j < |draws| ==> ValidDraw(draws[j])
  }

  /** `Math.floor(Math.random() * 100000)`. */
  function Mileage(d: real): (km: int)
    requires IsRandomDraw(d)
    ensures 0 <= km < MaxKm
  {
    Floor(d * MaxKm as real)
  }

  /** `Math.random() * 0.35 - 0.15`: the range is [-0.15, 0.20), not the
      symmetric plus or minus 15% the neighbouring comment suggests. */
  function Noise(d: real): (n: real)
    requires IsRandomDraw(d)
    ensures -0.15 <= n < 0.20
  {
    d * NoiseSpan - NoiseFloor
  }

  function FairPrice(km: int, exp: Exp): (fair: real)
    requires km >= 0
    ensures 0.0 < fair <= BaseNewPrice
  {
    BaseNewPrice * exp(-DecayRate * km as real)
  }

  /** The relative discount of `price` against `fair`, in percent. */
  function Gap(fair: real, price: real): (g: real)
    requires fair > 0.0
    ensures g > 0.0 <==> price < fair
    ensures g == 0.0 <==> price == fair
    ensures g < 0.0 <==> price > fair
  {
    ((fair - price) / fair) * 100.0
  }

  /** The status starts fair and is overwritten by each threshold in turn. */
  function Classify(gap: real): (s: Status)
    ensures s == Opportunity <==> gap > Threshold
    ensures s == Overpriced <==> gap < -Threshold
    ensures s == Fair <==> -Threshold <= gap <= Threshold
  {
    var s := if gap > Threshold then Opportunity else Fair;
    if gap < -Threshold then Overpriced else s
  }

  /** One iteration of the generation loop. */
  function MakeListing(i: int, d: Draw, exp: Exp): (l: Listing)
    requires ValidDraw(d)
    ensures l.id == i
    ensures 0 <= l.km < MaxKm
    ensures 0.0 < l.fairPrice <= BaseNewPrice
    ensures l.status == Classify(l.gapPercent)
    ensures i == SeededIndex ==> l.price == l.fairPrice * SeededFactor && l.gapPercent == 25.0
    ensures i != SeededIndex ==> l.gapPercent == -100.0 * Noise(d.forNoise)
    ensures i != SeededIndex ==> -20.0 < l.gapPercent <= 15.0
  {
    var km := Mileage(d.forKm);
    var fair := FairPrice(km, exp);
    var noise := Noise(d.forNoise);
    var price := if i == SeededIndex then fair * SeededFactor else fair * (1.0 + noise);
    var gap := Gap(fair, price);
    GapOfScaled(fair, if i == SeededIndex then SeededFactor - 1.0 else noise);
    Listing(i, km, price, fair, Classify(gap), gap)
  }

  /** Asking `fair * (1 + n)` is a gap of `-100 n` percent. */
  lemma GapOfScaled(fair: real, n: real)
    requires fair > 0.0
    ensures Gap(fair, fair * (1.0 + n)) == -100.0 * n
  {
  }

  /** The generation loop: listing `j` comes from draw `j`, in order. */
  method Generate(draws: seq<Draw>, exp: Exp) returns (points: seq<Listing>)
    requires ValidDraws(draws)
    ensures |points| == BatchSize
    ensures forall j :: 0 <= j < |points| ==> points[j] == MakeListing(j, draws[j], exp)
    ensures forall j :: 0 <= j < |points| ==> points[j].id == j && 0 <= points[j].km < MaxKm
  {
    points := [];
    for i := 0 to BatchSize
      invariant |points| == i
      invariant forall j :: 0 <= j < i ==> points[j] == MakeListing(j, draws[j], exp)
    {
      points := points + [MakeListing(i, draws[i], exp)];
    }
  }

  /** The `reduce` callback: the strict `>` keeps `prev` only when it is
      strictly better, so a tie goes to `current`. */
  function Pick(prev: Listing, current: Listing): (r: Listing)
    ensures r == prev || r == current
    ensures r == current <==> prev.gapPercent <= current.gapPercent || prev == current
    ensures r.gapPercent >= prev.gapPercent && r.gapPercent >= current.gapPercent
  {
    if prev.gapPercent > current.gapPercent then prev else current
  }

  /** `points.reduce(Pick)` without an initial value: a left fold seeded with
      the first element. */
  function Reduce(ls: seq<Listing>): (best: Listing)
    requires |ls| > 0
    ensures best in ls
    ensures forall j :: 0 <= j < |ls| ==> ls[j].gapPercent <= best.gapPercent
  {
    if |ls| == 1 then ls[0] else Pick(Reduce(ls[..|ls| - 1]), ls[|ls| - 1])
  }

  /** `k` is the last position holding the maximum gap. */
  predicate IsLastMaximum(ls: seq<Listing>, k: int)
  {
    && 0 <= k < |ls|
    && (forall j :: 0 <= j < |ls| ==> ls[j].gapPercent <= ls[k].gapPercent)
    && (forall j :: k < j < |ls| ==> ls[j].gapPercent < ls[k].gapPercent)
  }

  /** The fold returns the last listing with the maximum gap. */
  lemma {:induction false} ReduceIsLastMaximum(ls: seq<Listing>, k: int)
    requires IsLastMaximum(ls, k)
    ensures Reduce(ls) == ls[k]
    decreases |ls|
  {
    if |ls| > 1 {
      var prefix := ls[..|ls| - 1];
      if k < |ls| - 1 {
        assert IsLastMaximum(prefix, k);
        ReduceIsLastMaximum(prefix, k);
      } else {
        var p := Reduce(prefix);
        assert p.gapPercent <= ls[k].gapPercent;
      }
    }
  }

  /** Every non-empty batch has a last maximum, so the fold is fully described
      by ReduceIsLastMaximum. */
  lemma {:induction false} LastMaximumExists(ls: seq<Listing>) returns (k: int)
    requires |ls| > 0
    ensures IsLastMaximum(ls, k)
    decreases |ls|
  {
    if |ls| == 1 {
      k := 0;
    } else {
      var prefix := ls[..|ls| - 1];
      var k' := LastMaximumExists(prefix);
      if ls[|ls| - 1].gapPercent >= ls[k'].gapPercent {
        k := |ls| - 1;
      } else {
        k := k';
        assert forall j :: 0 <= j < |ls| - 1 ==> ls[j] == prefix[j];
      }
    }
  }

  /** Two listings with the same gap: the later one wins. */
  lemma TieGoesToLater(a: Listing, b: Listing)
    requires a.gapPercent == b.gapPercent
    ensures Reduce([a, b]) == b
  {
    assert [a, b][..1] == [a];
  }

  datatype Scan = Scan(listings: seq<Listing>, best: Listing)

  /** The whole scan: generation, then the best-deal fold. */
  method ScanMarket(draws: seq<Draw>, exp: Exp) returns (scan: Scan)
    requires ValidDraws(draws)
    ensures |scan.listings| == BatchSize
    ensures forall j :: 0 <= j < BatchSize ==>
      && scan.listings[j].id == j
      && 0 <= scan.listings[j].km < MaxKm
      && scan.listings[j].status == Classify(scan.listings[j].gapPercent)
    ensures scan.best == Reduce(scan.listings)
    ensures scan.best == scan.listings[SeededIndex]
    ensures scan.best.id == SeededIndex && scan.best.gapPercent == 25.0
    ensures scan.best.status == Opportunity
    ensures forall j :: 0 <= j < BatchSize && j != SeededIndex ==>
      scan.listings[j].gapPercent < scan.best.gapPercent
    ensures forall j :: 0 <= j < BatchSize ==> scan.listings[j] == MakeListing(j, draws[j], exp)
  {
    var points := Generate(draws, exp);
    SeededIsLastMaximum(points, draws, exp);
    ReduceIsLastMaximum(points, SeededIndex);
    scan := Scan(points, Reduce(points));
  }

  /** Listing 10 has gap 25 and every other listing at most 15, so it is the
      unique maximum of a generated batch. */
  lemma SeededIsLastMaximum(points: seq<Listing>, draws: seq<Draw>, exp: Exp)
    requires ValidDraws(draws)
    requires |points| == BatchSize
    requires forall j :: 0 <= j < |points| ==> points[j] == MakeListing(j, draws[j], exp)
    ensures IsLastMaximum(points, SeededIndex)
    ensures forall j :: 0 <= j < |points| && j != SeededIndex ==> points[j].gapPercent <= 15.0
  {
  }

  /** Every batch holds at least one opportunity. */
  lemma SomeOpportunity(draws: seq<Draw>, exp: Exp, points: seq<Listing>)
    requires ValidDraws(draws)
    requires |points| == BatchSize
    requires forall j :: 0 <= j < |points| ==> points[j] == MakeListing(j, draws[j], exp)
    ensures exists j :: 0 <= j < |points| && points[j].status == Opportunity
  {
    assert points[SeededIndex].status == Opportunity;
  }

  /** A new car (0 km, an exponential that is 1 at 0) asking exactly the fair
      price (noise draw 3/7, so noise 0) is fair at 90 million with gap 0. */
  lemma NoNoiseNewCarIsFair(i: int, exp: Exp)
    requires i != SeededIndex
    requires exp(0.0) == 1.0
    ensures var l := MakeListing(i, Draw(0.0, 3.0 / 7.0), exp);
      l.km == 0 && l.fairPrice == 90000000.0 && l.price == 90000000.0
      && l.gapPercent == 0.0 && l.status == Fair
  {
    assert Mileage(0.0) == 0;
    assert Noise(3.0 / 7.0) == 0.0;
  }
}
