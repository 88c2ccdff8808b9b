/**
  The two engines side by side: where they provably agree, and the inputs
  on which they part.
 */
module CrossCheck {
  import opened Wrappers
  import opened Tables
  import opened Requirements
  import opened Geometry
  import opened FilmStack
  import opened Process
  import opened Pricing
  import opened Laminate
  import ClientEngine
  import ServerEngine

  /** Tables with no zero entry: `||` and `.get` then resolve every name alike. */
  predicate NoZeroEntry(table: map<string, real>)
  {
    forall m :: m in table ==> table[m] != 0.0
  }

  /** One layer weighs and costs the same under either lookup when neither table holds a zero. */
  lemma LayerPolicyIrrelevant(densities: map<string, real>, rates: map<string, real>, l: Layer)
    requires NoZeroEntry(densities) && NoZeroEntry(rates)
    ensures LayerGsm(Falsy, densities, l) == LayerGsm(Absent, densities, l)
    ensures LayerCostPerSqm(Falsy, densities, rates, l) == LayerCostPerSqm(Absent, densities, rates, l)
  {
    PoliciesAgreeIff(densities, l.material, DEFAULT_DENSITY);
    PoliciesAgreeIff(rates, l.material, DEFAULT_RATE);
  }

  /** A whole stack weighs and costs the same under either lookup when neither table holds a zero. */
  lemma {:induction false} StackPolicyIrrelevant(densities: map<string, real>, rates: map<string, real>, layers: seq<Layer>)
    requires NoZeroEntry(densities) && NoZeroEntry(rates)
    ensures SumGsm(Falsy, densities, layers) == SumGsm(Absent, densities, layers)
    ensures SumCost(Falsy, densities, rates, layers) == SumCost(Absent, densities, rates, layers)
  {
    if |layers| > 0 {
      LayerPolicyIrrelevant(densities, rates, layers[0]);
      StackPolicyIrrelevant(densities, rates, layers[1..]);
    }
  }

  /** Over a rate table with no zero entry, both engines' laminates are the same. */
  lemma LaminatePolicyIrrelevant(size: OpenSize, layers: seq<Layer>, colors: int, rates: map<string, real>)
    requires NoZeroEntry(rates)
    ensures LaminateOf(Falsy, size, layers, colors, rates) == LaminateOf(Absent, size, layers, colors, rates)
  {
    StandardDensities(Falsy, "");
    StackPolicyIrrelevant(Densities, rates, layers);
  }

  /**
    From the same laminate, with no labour, machine usage or wastage and the
    request's margin passed to the server, both itemisers produce the same
    figures for every field they share.
   */
  lemma ItemisersAgree(req: ProductRequirements, lam: LaminateFigures)
    requires req.wastagePercent == 0.0 && req.laborCostPerKg == 0.0 && req.machineUsageCostPerKg == 0.0
    requires lam.rawPerKg == lam.materialPerKg + lam.inkPerKg
    ensures var c := ClientEngine.Itemise(req, lam);
            var s := ServerEngine.Itemise(req, lam, Some(req.marginPercent));
      && c.totalGsm == s.totalGsm && c.totalThickness == s.totalThickness
      && c.weightPer1000PouchesKg == s.weightPer1000PouchesKg
      && c.materialCostPerKg == s.materialCostPerKg && c.inkCostPerKg == s.inkCostPerKg
      && c.printingCostPerKg == s.printingCostPerKg && c.laminationCostPerKg == s.laminationCostPerKg
      && c.pouchingCostPerKg == s.pouchingCostPerKg && c.overheadCostPerKg == s.overheadCostPerKg
      && c.cylinderCostTotal == s.cylinderCostTotal && c.cylinderCostAmortizedPerKg == s.cylinderCostAmortizedPerKg
      && c.conversionCostPerKg == s.conversionCostPerKg
      && c.totalCostPerKg == s.totalCostPerKg
      && c.costPer1000Pouches == s.costPer1000Pouches && c.sellingPricePer1000 == s.sellingPricePer1000
      && c.costPerPouch == s.costPerPouch && c.sellingPricePerPouch == s.sellingPricePerPouch
      && c.marginPercent == s.marginPercent
  {
    var c := ClientEngine.Itemise(req, lam);
    var s := ServerEngine.Itemise(req, lam, Some(req.marginPercent));
    PrintingAgrees(req.printingCostPerKgOverride, req.numberOfColors);
    LaminationAgrees(req.laminationCostPerKgOverride, |req.layers|);
    assert c.wastageCostPerKg == 0.0;
    assert c.totalCostPerKg == s.totalCostPerKg;
    PerPouchAgrees(s.costPer1000Pouches);
    PerPouchAgrees(s.sellingPricePer1000);
  }

  /**
    The engines' cross-check: with no labour, machine usage or wastage, a
    rate table with no zero entry and the request's own margin, the client
    and the server compute the same figures for every shared field, the
    total cost per kg included.
   */
  lemma EnginesAgree(req: ProductRequirements, rates: map<string, real>)
    requires req.wastagePercent == 0.0 && req.laborCostPerKg == 0.0 && req.machineUsageCostPerKg == 0.0
    requires NoZeroEntry(rates)
    ensures var c := ClientEngine.CalculateCost(req, rates);
            var s := ServerEngine.CalculateCost(req, rates, Some(req.marginPercent));
      && c.totalGsm == s.totalGsm && c.weightPer1000PouchesKg == s.weightPer1000PouchesKg
      && c.materialCostPerKg == s.materialCostPerKg && c.inkCostPerKg == s.inkCostPerKg
      && c.conversionCostPerKg == s.conversionCostPerKg
      && c.cylinderCostAmortizedPerKg == s.cylinderCostAmortizedPerKg
      && c.totalCostPerKg == s.totalCostPerKg
      && c.costPer1000Pouches == s.costPer1000Pouches && c.sellingPricePer1000 == s.sellingPricePer1000
      && c.costPerPouch == s.costPerPouch && c.sellingPricePerPouch == s.sellingPricePerPouch
  {
    GeometryAgrees(req);
    var size := PouchOpenSize(req);
    LaminatePolicyIrrelevant(size, req.layers, req.numberOfColors, rates);
    ItemisersAgree(req, LaminateOf(Falsy, size, req.layers, req.numberOfColors, rates));
  }
}
