/**
  The client-side engine: the browser's `calculateCost`, which costs a job
  from its requirements and a rate table (the built-in default rates when
  the caller passes none) and returns the itemised breakdown.
 */
module ClientEngine {
  import opened Tables
  import opened Requirements
  import opened Geometry
  import opened FilmStack
  import opened Process
  import opened Pricing
  import opened Laminate

  /** The itemised result the client displays; every amount is per kg unless named otherwise. */
  datatype CostBreakdown = CostBreakdown(
    totalGsm: real,
    totalThickness: real,
    weightPer1000PouchesKg: real,
    materialCostPerKg: real,
    inkCostPerKg: real,
    printingCostPerKg: real,
    laminationCostPerKg: real,
    pouchingCostPerKg: real,
    overheadCostPerKg: real,
    laborCostPerKg: real,
    machineUsageCostPerKg: real,
    wastageCostPerKg: real,
    cylinderCostTotal: real,
    cylinderCostAmortizedPerKg: real,
    conversionCostPerKg: real,
    totalCostPerKg: real,
    costPer1000Pouches: real,
    sellingPricePer1000: real,
    costPerPouch: real,
    sellingPricePerPouch: real,
    marginPercent: real)

  /**
    Itemises a client quote from the laminate's figures: overrides first,
    the conversion charges summed, the cylinders spread over the quantity,
    wastage on the pre-wastage total, then the quote from the total.
   */
  function Itemise(req: ProductRequirements, lam: LaminateFigures): (b: CostBreakdown)
    requires lam.rawPerKg == lam.materialPerKg + lam.inkPerKg
    ensures b.totalGsm == lam.gsm && b.weightPer1000PouchesKg == lam.weightPer1000Kg
    ensures b.materialCostPerKg == lam.materialPerKg && b.inkCostPerKg == lam.inkPerKg
    ensures b.totalThickness == TotalThickness(req.layers)
    // conversion: overrides first, and the itemised charges add up
    ensures req.printingCostPerKgOverride.Some? ==> b.printingCostPerKg == req.printingCostPerKgOverride.value
    ensures req.laminationCostPerKgOverride.Some? ==> b.laminationCostPerKg == req.laminationCostPerKgOverride.value
    ensures b.printingCostPerKg == ServerPrintingCostPerKg(req.printingCostPerKgOverride, req.numberOfColors)
    ensures b.laminationCostPerKg == ServerLaminationCostPerKg(req.laminationCostPerKgOverride, |req.layers|)
    ensures b.pouchingCostPerKg == 20.0 && b.overheadCostPerKg == 17.0
    ensures b.laborCostPerKg == req.laborCostPerKg && b.machineUsageCostPerKg == req.machineUsageCostPerKg
    ensures b.conversionCostPerKg == b.printingCostPerKg + b.laminationCostPerKg + b.pouchingCostPerKg
                                     + b.overheadCostPerKg + b.laborCostPerKg + b.machineUsageCostPerKg
    // cylinders
    ensures b.cylinderCostTotal == req.numberOfColors as real * req.cylinderCostPerUnit
    ensures b.cylinderCostAmortizedPerKg
         == AmortisedPerKg(b.cylinderCostTotal, req.quantityKg, req.quantityPieces, b.weightPer1000PouchesKg)
    // totals: every charge plus wastage on their sum, and the quote from the total
    ensures b.totalCostPerKg == b.materialCostPerKg + b.inkCostPerKg + b.conversionCostPerKg
                                + b.cylinderCostAmortizedPerKg + b.wastageCostPerKg
    ensures b.wastageCostPerKg == WastagePerKg(b.totalCostPerKg - b.wastageCostPerKg, req.wastagePercent)
    ensures b.costPer1000Pouches == b.totalCostPerKg * b.weightPer1000PouchesKg
    ensures b.sellingPricePer1000 - b.costPer1000Pouches == b.costPer1000Pouches * (req.marginPercent / 100.0)
    ensures b.costPerPouch * 1000.0 == b.costPer1000Pouches
    ensures b.sellingPricePerPouch * 1000.0 == b.sellingPricePer1000
    ensures b.marginPercent == req.marginPercent
  {
    var printing := PrintingCostPerKg(req.printingCostPerKgOverride, req.numberOfColors);
    PrintingAgrees(req.printingCostPerKgOverride, req.numberOfColors);
    var lamination := LaminationCostPerKg(req.laminationCostPerKgOverride, |req.layers|);
    LaminationAgrees(req.laminationCostPerKgOverride, |req.layers|);
    var conversion := ClientConversion(printing, lamination, req.laborCostPerKg, req.machineUsageCostPerKg);
    var cylinderTotal := CylinderTotal(req.numberOfColors, req.cylinderCostPerUnit);
    var cylinderPerKg := AmortisedPerKg(cylinderTotal, req.quantityKg, req.quantityPieces, lam.weightPer1000Kg);
    var base := lam.rawPerKg + conversion + cylinderPerKg;
    var wastage := WastagePerKg(base, req.wastagePercent);
    var total := base + wastage;
    var q := ClientQuote(total, lam.weightPer1000Kg, req.marginPercent);
    CostBreakdown(
      lam.gsm, TotalThickness(req.layers), lam.weightPer1000Kg,
      lam.materialPerKg, lam.inkPerKg, printing, lamination,
      POUCHING_COST_PER_KG, OVERHEADS_PER_KG + SLITTING_COST_PER_KG,
      req.laborCostPerKg, req.machineUsageCostPerKg, wastage,
      cylinderTotal, cylinderPerKg,
      conversion, total, q.costPer1000, q.sellingPer1000,
      q.costPerPouch, q.sellingPerPouch, req.marginPercent)
  }

  /**
    Costs a job on the client. Densities come from the standard table and
    rates from `rates`, both looked up with `||`, so a missing or zero entry
    takes the fallback. Amounts are unrounded.
   */
  function CalculateCost(req: ProductRequirements, rates: map<string, real>): (b: CostBreakdown)
    ensures b.totalGsm == SumGsm(Falsy, Densities, req.layers) + AdhesiveGsm(|req.layers|) + InkGsm(req.numberOfColors)
    ensures b.weightPer1000PouchesKg == AreaSqm(PouchOpenSize(req)) * b.totalGsm
  {
    var lam := LaminateOf(Falsy, PouchOpenSize(req), req.layers, req.numberOfColors, rates);
    var b := Itemise(req, lam);
    assert b.totalGsm == lam.gsm && b.weightPer1000PouchesKg == lam.weightPer1000Kg;
    b
  }

  /**
    The breakdown's material cost per kg is the film and adhesive cost per
    square metre spread over the laminate's weight, and the ink cost per kg
    the ink's cost spread likewise.
   */
  lemma CostsPerKg(req: ProductRequirements, rates: map<string, real>)
    ensures var b := CalculateCost(req, rates);
      && b.materialCostPerKg == PerKg(SumCost(Falsy, Densities, rates, req.layers) + AdhesiveCost(|req.layers|), b.totalGsm)
      && b.inkCostPerKg == PerKg(InkCostPerSqm(req.numberOfColors), b.totalGsm)
  {
  }

  /**
    Within the request model's lower bounds (the browser takes any piece
    count, whole or not, any number of colours and any margin), with non-negative labour, machine and wastage
    figures and non-negative laminate figures, every charge is non-negative and conversion alone is at least the 37 per kg of fixed
    charges, so the total per kg is too.
   */
  lemma ItemiseChargeBounds(req: ProductRequirements, lam: LaminateFigures)
    requires WithinBounds(req)
    requires req.laborCostPerKg >= 0.0 && req.machineUsageCostPerKg >= 0.0 && req.wastagePercent >= 0.0
    requires lam.rawPerKg == lam.materialPerKg + lam.inkPerKg
    requires lam.materialPerKg >= 0.0 && lam.inkPerKg >= 0.0 && lam.weightPer1000Kg >= 0.0
    ensures var b := Itemise(req, lam);
      && b.printingCostPerKg >= 0.0 && b.laminationCostPerKg >= 0.0 && b.cylinderCostTotal >= 0.0
      && b.conversionCostPerKg >= 37.0 && b.cylinderCostAmortizedPerKg >= 0.0 && b.wastageCostPerKg >= 0.0
      && b.totalCostPerKg >= 37.0
  {
    var b := Itemise(req, lam);
    assert b.printingCostPerKg >= 0.0 && b.laminationCostPerKg >= 0.0;
    assert b.conversionCostPerKg >= 37.0;
    assert b.cylinderCostTotal >= 0.0;
    AmortisedNonNegative(b.cylinderCostTotal, req.quantityKg, req.quantityPieces, b.weightPer1000PouchesKg);
    assert b.totalCostPerKg - b.wastageCostPerKg >= 37.0;
  }

  /**
    Under the same bounds the price never falls below cost, and a positive
    margin on a laminate that weighs something sells strictly above it.
   */
  lemma ItemiseBounds(req: ProductRequirements, lam: LaminateFigures)
    requires WithinBounds(req)
    requires req.laborCostPerKg >= 0.0 && req.machineUsageCostPerKg >= 0.0 && req.wastagePercent >= 0.0
    requires lam.rawPerKg == lam.materialPerKg + lam.inkPerKg
    requires lam.materialPerKg >= 0.0 && lam.inkPerKg >= 0.0 && lam.weightPer1000Kg >= 0.0
    ensures var b := Itemise(req, lam);
      && b.totalCostPerKg >= 37.0
      && b.costPer1000Pouches >= 0.0 && b.sellingPricePer1000 >= b.costPer1000Pouches
    ensures var b := Itemise(req, lam);
      lam.weightPer1000Kg > 0.0 && req.marginPercent > 0.0 ==> b.sellingPricePer1000 > b.costPer1000Pouches
  {
    var b := Itemise(req, lam);
    ItemiseChargeBounds(req, lam);
    ScaleKeepsSign(b.totalCostPerKg, b.weightPer1000PouchesKg);
    MarkupCoversCost(b.costPer1000Pouches, req.marginPercent);
  }

  /**
    For any request within the lower bounds, with non-negative labour,
    machine and wastage figures, and any non-negative rate table: the
    laminate figures are non-negative, the total per kg is at least 37, the
    price never falls below cost, and a positive margin on a stack with a
    layer or ink sells above cost.
   */
  lemma QuoteBounds(req: ProductRequirements, rates: map<string, real>)
    requires WithinBounds(req)
    requires req.laborCostPerKg >= 0.0 && req.machineUsageCostPerKg >= 0.0 && req.wastagePercent >= 0.0
    requires forall m :: m in rates ==> rates[m] >= 0.0
    ensures var b := CalculateCost(req, rates);
      && b.totalGsm >= 0.0 && b.weightPer1000PouchesKg >= 0.0
      && b.materialCostPerKg >= 0.0 && b.inkCostPerKg >= 0.0
      && b.totalCostPerKg >= 37.0 && b.costPer1000Pouches >= 0.0
      && b.sellingPricePer1000 >= b.costPer1000Pouches
    ensures var b := CalculateCost(req, rates);
      (|req.layers| > 0 || req.numberOfColors > 0) && req.marginPercent > 0.0 ==> b.sellingPricePer1000 > b.costPer1000Pouches
  {
    var size := PouchOpenSize(req);
    AreaPositive(req);
    LaminateBounds(Falsy, size, req.layers, req.numberOfColors, rates);
    var lam := LaminateOf(Falsy, size, req.layers, req.numberOfColors, rates);
    ItemiseBounds(req, lam);
  }
}
