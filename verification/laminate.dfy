/**
  The physical half of both engines: from the open size and the film stack
  to the laminate's weight and its material and ink cost per kg.
 */
module Laminate {
  import opened Tables
  import opened Requirements
  import opened Geometry
  import opened FilmStack

  /** Weight and per-kg material figures of one job's laminate. */
  datatype LaminateFigures = LaminateFigures(
    gsm: real,
    weightPer1000Kg: real,
    rawPerKg: real,
    materialPerKg: real,
    inkPerKg: real)

  /**
    Weighs and prices the laminate for a pouch of open size `size`. The
    weight of one pouch in grams is numerically the weight of a thousand in
    kg. `rawPerKg` (film, adhesive and ink) is what the totals use;
    `materialPerKg` is the film-and-adhesive part and `inkPerKg` the rest.
   */
  function LaminateOf(policy: Fallback, size: OpenSize, layers: seq<Layer>, colors: int, rates: map<string, real>): (l: LaminateFigures)
    ensures l.gsm == SumGsm(policy, Densities, layers) + AdhesiveGsm(|layers|) + InkGsm(colors)
    ensures l.weightPer1000Kg == AreaSqm(size) * l.gsm
    ensures l.materialPerKg == PerKg(SumCost(policy, Densities, rates, layers) + AdhesiveCost(|layers|), l.gsm)
    ensures l.inkPerKg == PerKg(InkCostPerSqm(colors), l.gsm)
    ensures l.rawPerKg == l.materialPerKg + l.inkPerKg
  {
    var film := Aggregate(policy, Densities, rates, layers, colors);
    var weightPerPouchG := AreaSqm(size) * film.gsm;
    var rawPerKg := PerKg(film.costPerSqm, film.gsm);
    var inkPerKg := PerKg(film.inkCostPerSqm, film.gsm);
    PerKgSubtract(film.costPerSqm, film.inkCostPerSqm, film.gsm);
    LaminateFigures(film.gsm, weightPerPouchG, rawPerKg, rawPerKg - inkPerKg, inkPerKg)
  }

  /**
    For layers of positive thickness, more colours never lower the ink cost
    per kg of laminate, although the extra ink also adds to the weight it
    is spread over.
   */
  lemma InkPerKgGrowsWithColours(policy: Fallback, size: OpenSize, layers: seq<Layer>, c1: int, c2: int, rates: map<string, real>)
    requires ValidLayers(layers) && 0 <= c1 <= c2
    ensures LaminateOf(policy, size, layers, c1, rates).inkPerKg <= LaminateOf(policy, size, layers, c2, rates).inkPerKg
  {
    FilmBounds(policy, layers, 0, map[]);
    InkPerKgGrows(SumGsm(policy, Densities, layers) + AdhesiveGsm(|layers|), c1, c2);
  }

  /** Scaling by a positive factor keeps the sign. */
  lemma ScaleKeepsSign(factor: real, x: real)
    requires factor > 0.0 && x >= 0.0
    ensures factor * x >= 0.0
    ensures factor * x > 0.0 <==> x > 0.0
  {
    if x > 0.0 {
      assert factor * x > 0.0;
    }
  }

  /**
    For layers of positive thickness, no negative rate, a non-negative
    colour count and a pouch of positive area, every laminate figure is
    non-negative, and the laminate weighs something exactly when it has a
    layer or is printed.
   */
  lemma LaminateBounds(policy: Fallback, size: OpenSize, layers: seq<Layer>, colors: int, rates: map<string, real>)
    requires ValidLayers(layers) && colors >= 0 && AreaSqm(size) > 0.0
    requires forall m :: m in rates ==> rates[m] >= 0.0
    ensures var l := LaminateOf(policy, size, layers, colors, rates);
      && l.gsm >= 0.0 && l.weightPer1000Kg >= 0.0 && l.materialPerKg >= 0.0 && l.inkPerKg >= 0.0
      && (l.gsm > 0.0 <==> |layers| > 0 || colors > 0)
      && (l.weightPer1000Kg > 0.0 <==> |layers| > 0 || colors > 0)
  {
    var l := LaminateOf(policy, size, layers, colors, rates);
    FilmBounds(policy, layers, colors, rates);
    PerKgNonNegative(SumCost(policy, Densities, rates, layers) + AdhesiveCost(|layers|), l.gsm);
    PerKgNonNegative(InkCostPerSqm(colors), l.gsm);
    ScaleKeepsSign(AreaSqm(size), l.gsm);
  }
}
