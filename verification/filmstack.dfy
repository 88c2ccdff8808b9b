/**
  Film-stack aggregator: basis weight (GSM) and material cost per square
  metre of the laminate, with adhesive between layers and the ink term.
 */
module FilmStack {
  import opened Tables
  import opened Requirements

  /** GSM of one layer: thickness in microns times the material's density. */
  function LayerGsm(policy: Fallback, densities: map<string, real>, l: Layer): real
  {
    l.thicknessMicron * DensityOf(policy, densities, l.material)
  }

  /** Material cost of one layer per square metre. */
  function LayerCostPerSqm(policy: Fallback, densities: map<string, real>, rates: map<string, real>, l: Layer): real
  {
    (LayerGsm(policy, densities, l) / 1000.0) * RateOf(policy, rates, l.material)
  }

  /** Reference sum of the layers' own GSM, without adhesive or ink. */
  function SumGsm(policy: Fallback, densities: map<string, real>, layers: seq<Layer>): real
  {
    if |layers| == 0 then 0.0 else LayerGsm(policy, densities, layers[0]) + SumGsm(policy, densities, layers[1..])
  }

  /** Reference sum of the layers' own cost per square metre. */
  function SumCost(policy: Fallback, densities: map<string, real>, rates: map<string, real>, layers: seq<Layer>): real
  {
    if |layers| == 0 then 0.0 else LayerCostPerSqm(policy, densities, rates, layers[0]) + SumCost(policy, densities, rates, layers[1..])
  }

  /** Number of adhesive passes (lamination interfaces) in a stack of `n` layers. */
  function AdhesivePasses(n: nat): (k: nat)
    ensures n >= 1 ==> k + 1 == n
    ensures n == 0 ==> k == 0
  {
    if n == 0 then 0 else n - 1
  }

  /** GSM of the adhesive in a stack of `n` layers. */
  function AdhesiveGsm(n: nat): real
  {
    ADHESIVE_GSM * AdhesivePasses(n) as real
  }

  /** Adhesive cost per square metre in a stack of `n` layers. */
  function AdhesiveCost(n: nat): real
  {
    ADHESIVE_COST_PER_SQM * AdhesivePasses(n) as real
  }

  /** Running totals of the layer loop. */
  datatype StackTotals = StackTotals(gsm: real, costPerSqm: real)

  /**
    The layer loop in source order: layer `i` adds its GSM and cost, and an
    adhesive pass follows it when `i` is not the last index.
   */
  function FoldLayers(policy: Fallback, densities: map<string, real>, rates: map<string, real>, layers: seq<Layer>, i: nat, acc: StackTotals): (r: StackTotals)
    requires i <= |layers|
    ensures r.gsm == acc.gsm + SumGsm(policy, densities, layers[i..]) + AdhesiveGsm(|layers| - i)
    ensures r.costPerSqm == acc.costPerSqm + SumCost(policy, densities, rates, layers[i..]) + AdhesiveCost(|layers| - i)
    decreases |layers| - i
  {
    if i == |layers| then acc
    else
      var l := layers[i];
      var withLayer := StackTotals(acc.gsm + LayerGsm(policy, densities, l), acc.costPerSqm + LayerCostPerSqm(policy, densities, rates, l));
      var withAdhesive :=
        if i < |layers| - 1 then
          StackTotals(withLayer.gsm + ADHESIVE_GSM, withLayer.costPerSqm + (ADHESIVE_GSM / 1000.0) * ADHESIVE_RATE)
        else withLayer;
      SumsSplit(policy, densities, rates, layers, i);
      AdhesiveStep(|layers|, i);
      FoldLayers(policy, densities, rates, layers, i + 1, withAdhesive)
  }

  /** The adhesive totals lose one pass for every layer but the last. */
  lemma AdhesiveStep(n: nat, i: nat)
    requires i < n
    ensures i < n - 1 ==> AdhesiveGsm(n - i) == ADHESIVE_GSM + AdhesiveGsm(n - (i + 1))
    ensures i < n - 1 ==> AdhesiveCost(n - i) == (ADHESIVE_GSM / 1000.0) * ADHESIVE_RATE + AdhesiveCost(n - (i + 1))
    ensures i == n - 1 ==> AdhesiveGsm(n - i) == 0.0 && AdhesiveGsm(n - (i + 1)) == 0.0
    ensures i == n - 1 ==> AdhesiveCost(n - i) == 0.0 && AdhesiveCost(n - (i + 1)) == 0.0
  {
    var k := AdhesivePasses(n - (i + 1)) as real;
    if i < n - 1 {
      assert AdhesivePasses(n - i) as real == k + 1.0;
    }
  }

  /** Peeling layer `i` off the front of the suffix `layers[i..]`. */
  lemma SumsSplit(policy: Fallback, densities: map<string, real>, rates: map<string, real>, layers: seq<Layer>, i: nat)
    requires i < |layers|
    ensures SumGsm(policy, densities, layers[i..]) == LayerGsm(policy, densities, layers[i]) + SumGsm(policy, densities, layers[i + 1..])
    ensures SumCost(policy, densities, rates, layers[i..]) == LayerCostPerSqm(policy, densities, rates, layers[i]) + SumCost(policy, densities, rates, layers[i + 1..])
  {
    assert layers[i..][1..] == layers[i + 1..];
  }

  /** Ink weight per square metre: half a gram per colour plus the white base, none when unprinted. */
  function InkGsm(colors: int): (g: real)
    ensures colors <= 0 ==> g == 0.0
    ensures colors > 0 ==> g == INK_GSM_PER_COLOR * colors as real + WHITE_BASE_INK_GSM
  {
    if colors > 0 then
      var perColor := colors as real * INK_GSM_PER_COLOR;
      if colors >= 1 then perColor + WHITE_BASE_INK_GSM else perColor
    else 0.0
  }

  /** Ink cost per square metre: the ink's weight in kg at the ink rate per kg. */
  function InkCostPerSqm(colors: int): (c: real)
    ensures colors <= 0 ==> c == 0.0
    ensures colors > 0 ==> c > 0.0
  {
    (InkGsm(colors) / 1000.0) * INK_RATE
  }

  /** Each extra colour adds half a gram of ink, so ink weight and cost grow with the colour count. */
  lemma InkGrowsWithColours(c1: int, c2: int)
    requires 0 <= c1 <= c2
    ensures InkGsm(c1) <= InkGsm(c2)
    ensures InkCostPerSqm(c1) <= InkCostPerSqm(c2)
  {
  }

  /**
    The ink's share of the laminate's cost per kg grows with its weight:
    with the film and adhesive weighing `base` gsm, the ink costs
    INK_RATE * x / (base + x) per kg of laminate, increasing in the ink
    weight x.
   */
  lemma InkPerKgGrows(base: real, c1: int, c2: int)
    requires base >= 0.0 && 0 <= c1 <= c2
    ensures PerKg(InkCostPerSqm(c1), base + InkGsm(c1)) <= PerKg(InkCostPerSqm(c2), base + InkGsm(c2))
  {
    InkGrowsWithColours(c1, c2);
    if c1 > 0 {
      InkPerKgIsShare(base, c1);
      InkPerKgIsShare(base, c2);
      ShareGrows(base, InkGsm(c1), InkGsm(c2));
    } else {
      PerKgNonNegative(InkCostPerSqm(c2), base + InkGsm(c2));
    }
  }

  /** Printed ink costs INK_RATE per kg of ink, spread over the whole laminate's weight. */
  lemma InkPerKgIsShare(base: real, c: int)
    requires base >= 0.0 && c > 0
    ensures PerKg(InkCostPerSqm(c), base + InkGsm(c)) == INK_RATE * (InkGsm(c) / (base + InkGsm(c)))
  {
    var x := InkGsm(c);
    var g := base + x;
    var r := PerKg(InkCostPerSqm(c), g);
    assert r * (g / 1000.0) == (x / 1000.0) * INK_RATE;
    assert r * g == INK_RATE * x;
  }

  /** A part's share x / (base + x) of a whole grows with the part. */
  lemma ShareGrows(base: real, x1: real, x2: real)
    requires base >= 0.0 && 0.0 < x1 <= x2
    ensures x1 / (base + x1) <= x2 / (base + x2)
  {
    assert x1 * base <= x2 * base;
    assert x1 * (base + x2) == x1 * base + x1 * x2;
    assert x2 * (base + x1) == x2 * base + x1 * x2;
    QuotientsCompare(x1, x2, base + x1, base + x2);
  }

  /** Fractions over positive denominators compare as their cross products. */
  lemma QuotientsCompare(a: real, b: real, c: real, d: real)
    requires c > 0.0 && d > 0.0 && a * d <= b * c
    ensures a / c <= b / d
  {
    var u, v := a / c, b / d;
    assert u * c == a && v * d == b;
    assert (u * c) * d <= (v * d) * c;
    assert (u * (c * d)) <= (v * (c * d));
    assert c * d > 0.0;
  }

  /** Totals of the whole laminate, ink included, with the ink part kept apart. */
  datatype FilmTotals = FilmTotals(gsm: real, costPerSqm: real, inkGsm: real, inkCostPerSqm: real)

  /** Aggregates the stack: the layer loop from index 0, then the ink term. */
  function Aggregate(policy: Fallback, densities: map<string, real>, rates: map<string, real>, layers: seq<Layer>, colors: int): (t: FilmTotals)
    ensures t.gsm == SumGsm(policy, densities, layers) + AdhesiveGsm(|layers|) + InkGsm(colors)
    ensures t.costPerSqm == SumCost(policy, densities, rates, layers) + AdhesiveCost(|layers|) + InkCostPerSqm(colors)
    ensures t.inkGsm == InkGsm(colors) && t.inkCostPerSqm == InkCostPerSqm(colors)
  {
    var s := FoldLayers(policy, densities, rates, layers, 0, StackTotals(0.0, 0.0));
    assert layers[0..] == layers;
    var inkGsm := InkGsm(colors);
    var inkCost := if colors > 0 then (inkGsm / 1000.0) * INK_RATE else 0.0;
    FilmTotals(s.gsm + inkGsm, s.costPerSqm + inkCost, inkGsm, inkCost)
  }

  /** An empty stack with no colours weighs and costs nothing. */
  lemma EmptyUnprintedStack(policy: Fallback, densities: map<string, real>, rates: map<string, real>, colors: int)
    requires colors <= 0
    ensures Aggregate(policy, densities, rates, [], colors) == FilmTotals(0.0, 0.0, 0.0, 0.0)
  {
  }

  /** A single film has no adhesive: its GSM is its own plus the ink. */
  lemma SingleLayerHasNoAdhesive(policy: Fallback, densities: map<string, real>, rates: map<string, real>, l: Layer, colors: int)
    ensures Aggregate(policy, densities, rates, [l], colors).gsm == LayerGsm(policy, densities, l) + InkGsm(colors)
  {
    assert [l][1..] == [];
  }

  /**
    Normalises a per-square-metre cost to per-kg against the total GSM; a
    zero (or negative) weight gives 0 instead of a division by zero.
   */
  function PerKg(costPerSqm: real, gsm: real): (r: real)
    ensures gsm > 0.0 ==> r * (gsm / 1000.0) == costPerSqm
    ensures gsm <= 0.0 ==> r == 0.0
  {
    if gsm > 0.0 then costPerSqm / (gsm / 1000.0) else 0.0
  }

  /** Normalisation is linear: the film-only cost per kg is raw minus ink. */
  lemma PerKgSubtract(a: real, b: real, gsm: real)
    ensures PerKg(a, gsm) - PerKg(b, gsm) == PerKg(a - b, gsm)
  {
    if gsm > 0.0 {
      var d := gsm / 1000.0;
      assert (PerKg(a, gsm) - PerKg(b, gsm)) * d == a - b;
    }
  }

  /** With no negative thickness, density or rate, both reference sums are non-negative. */
  lemma {:induction false} SumsNonNegative(policy: Fallback, densities: map<string, real>, rates: map<string, real>, layers: seq<Layer>)
    requires forall i :: 0 <= i < |layers| ==> layers[i].thicknessMicron >= 0.0
    requires forall m :: m in densities ==> densities[m] >= 0.0
    requires forall m :: m in rates ==> rates[m] >= 0.0
    ensures SumGsm(policy, densities, layers) >= 0.0
    ensures SumCost(policy, densities, rates, layers) >= 0.0
  {
    if |layers| > 0 {
      var l := layers[0];
      assert l.thicknessMicron >= 0.0;
      assert LayerGsm(policy, densities, l) >= 0.0;
      assert RateOf(policy, rates, l.material) >= 0.0;
      assert LayerCostPerSqm(policy, densities, rates, l) >= 0.0;
      assert forall i :: 0 <= i < |layers[1..]| ==> layers[1..][i] == layers[i + 1];
      SumsNonNegative(policy, densities, rates, layers[1..]);
    }
  }

  /** Over a density table with no zero or negative entry, every layer's density is positive. */
  lemma DensityPositive(policy: Fallback, densities: map<string, real>, material: string)
    requires PositiveTable(densities)
    ensures DensityOf(policy, densities, material) > 0.0
  {
    if material in densities {
      assert densities[material] > 0.0;
    }
  }

  /**
    Layers of positive thickness over a positive density table weigh
    something exactly when there is at least one of them.
   */
  lemma {:induction false} SumGsmPositive(policy: Fallback, densities: map<string, real>, layers: seq<Layer>)
    requires ValidLayers(layers)
    requires PositiveTable(densities)
    ensures SumGsm(policy, densities, layers) >= 0.0
    ensures SumGsm(policy, densities, layers) > 0.0 <==> |layers| > 0
  {
    if |layers| > 0 {
      var l := layers[0];
      assert l.thicknessMicron > 0.0;
      DensityPositive(policy, densities, l.material);
      assert LayerGsm(policy, densities, l) > 0.0;
      assert ValidLayers(layers[1..]) by {
        forall i | 0 <= i < |layers[1..]|
          ensures layers[1..][i].thicknessMicron > 0.0
        {
          assert layers[1..][i] == layers[i + 1];
        }
      }
      SumGsmPositive(policy, densities, layers[1..]);
    }
  }

  /**
    One layer over the standard densities: a layer of positive thickness
    weighs something, and its cost per square metre is its weight in kg at
    the material's rate, never negative when that rate is not.
   */
  lemma LayerFigures(policy: Fallback, rates: map<string, real>, l: Layer)
    requires l.thicknessMicron > 0.0
    ensures LayerGsm(policy, Densities, l) > 0.0
    ensures LayerCostPerSqm(policy, Densities, rates, l) * 1000.0 == LayerGsm(policy, Densities, l) * RateOf(policy, rates, l.material)
    ensures RateOf(policy, rates, l.material) >= 0.0 ==> LayerCostPerSqm(policy, Densities, rates, l) >= 0.0
  {
    StandardDensities(policy, l.material);
    DensityPositive(policy, Densities, l.material);
    var g := LayerGsm(policy, Densities, l);
    assert g > 0.0;
    if RateOf(policy, rates, l.material) >= 0.0 {
      assert (g / 1000.0) * RateOf(policy, rates, l.material) >= 0.0;
    }
  }

  /** A non-negative cost per square metre normalises to a non-negative cost per kg. */
  lemma PerKgNonNegative(costPerSqm: real, gsm: real)
    requires costPerSqm >= 0.0
    ensures PerKg(costPerSqm, gsm) >= 0.0
  {
    if gsm > 0.0 {
      var d := gsm / 1000.0;
      assert PerKg(costPerSqm, gsm) * d == costPerSqm;
    }
  }

  /**
    Over the standard densities, with positive thicknesses, no negative
    rate and a non-negative colour count: the stack's GSM is non-negative
    and positive exactly when there is a layer or ink, and its film and ink
    costs per square metre are non-negative.
   */
  lemma FilmBounds(policy: Fallback, layers: seq<Layer>, colors: int, rates: map<string, real>)
    requires ValidLayers(layers) && colors >= 0
    requires forall m :: m in rates ==> rates[m] >= 0.0
    ensures var gsm := SumGsm(policy, Densities, layers) + AdhesiveGsm(|layers|) + InkGsm(colors);
      gsm >= 0.0 && (gsm > 0.0 <==> |layers| > 0 || colors > 0)
    ensures SumCost(policy, Densities, rates, layers) + AdhesiveCost(|layers|) >= 0.0
    ensures InkCostPerSqm(colors) >= 0.0
  {
    StandardDensities(policy, "");
    SumGsmPositive(policy, Densities, layers);
    SumsNonNegative(policy, Densities, rates, layers);
  }

  /** Two rate tables that resolve every used material alike give the same stack cost. */
  lemma {:induction false} CostDependsOnlyOnUsedRates(policy: Fallback, densities: map<string, real>, r1: map<string, real>, r2: map<string, real>, layers: seq<Layer>)
    requires forall i :: 0 <= i < |layers| ==> RateOf(policy, r1, layers[i].material) == RateOf(policy, r2, layers[i].material)
    ensures SumCost(policy, densities, r1, layers) == SumCost(policy, densities, r2, layers)
  {
    if |layers| > 0 {
      assert forall i :: 0 <= i < |layers[1..]| ==> layers[1..][i] == layers[i + 1];
      CostDependsOnlyOnUsedRates(policy, densities, r1, r2, layers[1..]);
      assert RateOf(policy, r1, layers[0].material) == RateOf(policy, r2, layers[0].material);
    }
  }

  /** Cost per square metre contributed by the layers of material `m`. */
  function MaterialCost(policy: Fallback, densities: map<string, real>, rates: map<string, real>, layers: seq<Layer>, m: string): real
  {
    if |layers| == 0 then 0.0
    else (if layers[0].material == m then LayerCostPerSqm(policy, densities, rates, layers[0]) else 0.0)
         + MaterialCost(policy, densities, rates, layers[1..], m)
  }

  /**
    Changing the rate of material `m` moves the stack cost by exactly the
    change in what the `m` layers cost: the other layers' cost is unaffected.
   */
  lemma {:induction false} RateChangeIsLocal(policy: Fallback, densities: map<string, real>, r1: map<string, real>, r2: map<string, real>, m: string, layers: seq<Layer>)
    requires forall i :: 0 <= i < |layers| && layers[i].material != m ==>
               RateOf(policy, r1, layers[i].material) == RateOf(policy, r2, layers[i].material)
    ensures SumCost(policy, densities, r2, layers) - SumCost(policy, densities, r1, layers)
         == MaterialCost(policy, densities, r2, layers, m) - MaterialCost(policy, densities, r1, layers, m)
  {
    if |layers| > 0 {
      assert forall i :: 0 <= i < |layers[1..]| ==> layers[1..][i] == layers[i + 1];
      RateChangeIsLocal(policy, densities, r1, r2, m, layers[1..]);
      var c1 := LayerCostPerSqm(policy, densities, r1, layers[0]);
      var c2 := LayerCostPerSqm(policy, densities, r2, layers[0]);
      if layers[0].material != m {
        SameRateSameCost(policy, densities, r1, r2, layers[0]);
      }
      assert SumCost(policy, densities, r1, layers) == c1 + SumCost(policy, densities, r1, layers[1..]);
      assert SumCost(policy, densities, r2, layers) == c2 + SumCost(policy, densities, r2, layers[1..]);
    }
  }

  /** A layer whose material resolves to the same rate in two tables costs the same under both. */
  lemma SameRateSameCost(policy: Fallback, densities: map<string, real>, r1: map<string, real>, r2: map<string, real>, l: Layer)
    requires RateOf(policy, r1, l.material) == RateOf(policy, r2, l.material)
    ensures LayerCostPerSqm(policy, densities, r1, l) == LayerCostPerSqm(policy, densities, r2, l)
  {
  }

  /** Storing a rate for `m` leaves every other material's resolved rate alone. */
  lemma UpdateKeepsOtherRates(policy: Fallback, rates: map<string, real>, m: string, x: real, layers: seq<Layer>)
    ensures forall i :: 0 <= i < |layers| && layers[i].material != m ==>
              RateOf(policy, rates, layers[i].material) == RateOf(policy, rates[m := x], layers[i].material)
  {
  }
}
