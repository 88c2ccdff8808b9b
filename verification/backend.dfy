/**
  The server-side engine: `CostCalculator.calculate_cost`, which costs a job
  from its requirements and the stored rate table. The rate table is a
  parameter here, standing for the database read the server performs.
 */
module ServerEngine {
  import opened Wrappers
  import opened Tables
  import opened Requirements
  import opened Geometry
  import opened FilmStack
  import opened Process
  import opened Pricing
  import opened Laminate

  /** The margin the server applies when its caller names none. */
  const DEFAULT_MARGIN_PERCENT: real := 20.0

  /** The server's breakdown: the client's without labour, machine usage and wastage. */
  datatype ApiCostBreakdown = ApiCostBreakdown(
    totalGsm: real,
    totalThickness: real,
    weightPer1000PouchesKg: real,
    materialCostPerKg: real,
    inkCostPerKg: real,
    printingCostPerKg: real,
    laminationCostPerKg: real,
    pouchingCostPerKg: real,
    overheadCostPerKg: real,
    cylinderCostTotal: real,
    cylinderCostAmortizedPerKg: real,
    conversionCostPerKg: real,
    totalCostPerKg: real,
    costPer1000Pouches: real,
    sellingPricePer1000: real,
    costPerPouch: real,
    sellingPricePerPouch: real,
    marginPercent: real)

  /**
    Itemises a server quote from the laminate's figures: overrides first,
    the fixed conversion charges, the cylinders spread over the quantity,
    no wastage, and the quote at the given or default margin.
   */
  function Itemise(req: ProductRequirements, lam: LaminateFigures, marginPercent: Option<real>): (b: ApiCostBreakdown)
    requires lam.rawPerKg == lam.materialPerKg + lam.inkPerKg
    ensures b.totalGsm == lam.gsm && b.weightPer1000PouchesKg == lam.weightPer1000Kg
    ensures b.materialCostPerKg == lam.materialPerKg && b.inkCostPerKg == lam.inkPerKg
    ensures b.totalThickness == TotalThickness(req.layers)
    // conversion without labour or machine usage
    ensures req.printingCostPerKgOverride.Some? ==> b.printingCostPerKg == req.printingCostPerKgOverride.value
    ensures req.laminationCostPerKgOverride.Some? ==> b.laminationCostPerKg == req.laminationCostPerKgOverride.value
    ensures b.printingCostPerKg == PrintingCostPerKg(req.printingCostPerKgOverride, req.numberOfColors)
    ensures b.laminationCostPerKg == LaminationCostPerKg(req.laminationCostPerKgOverride, |req.layers|)
    ensures b.pouchingCostPerKg == 20.0 && b.overheadCostPerKg == 17.0
    ensures b.conversionCostPerKg == b.printingCostPerKg + b.laminationCostPerKg + b.pouchingCostPerKg + b.overheadCostPerKg
    // cylinders
    ensures b.cylinderCostTotal == req.numberOfColors as real * req.cylinderCostPerUnit
    ensures b.cylinderCostAmortizedPerKg
         == AmortisedPerKg(b.cylinderCostTotal, req.quantityKg, req.quantityPieces, b.weightPer1000PouchesKg)
    // totals: no wastage term, and the margin defaults to 20
    ensures b.totalCostPerKg == b.materialCostPerKg + b.inkCostPerKg + b.conversionCostPerKg + b.cylinderCostAmortizedPerKg
    ensures b.marginPercent == (if marginPercent.Some? then marginPercent.value else 20.0)
    ensures b.costPer1000Pouches == b.totalCostPerKg * b.weightPer1000PouchesKg
    ensures b.sellingPricePer1000 - b.costPer1000Pouches == b.costPer1000Pouches * (b.marginPercent / 100.0)
    ensures b.costPerPouch == ServerPerPouch(b.costPer1000Pouches)
    ensures b.sellingPricePerPouch == ServerPerPouch(b.sellingPricePer1000)
  {
    var margin := marginPercent.GetOr(DEFAULT_MARGIN_PERCENT);
    var weightPer1000 := ServerWeightPer1000(lam.weightPer1000Kg);
    var printing := ServerPrintingCostPerKg(req.printingCostPerKgOverride, req.numberOfColors);
    PrintingAgrees(req.printingCostPerKgOverride, req.numberOfColors);
    var lamination := ServerLaminationCostPerKg(req.laminationCostPerKgOverride, |req.layers|);
    LaminationAgrees(req.laminationCostPerKgOverride, |req.layers|);
    var conversion := ServerConversion(printing, lamination);
    var cylinderTotal := CylinderTotal(req.numberOfColors, req.cylinderCostPerUnit);
    var cylinderPerKg := AmortisedPerKg(cylinderTotal, req.quantityKg, req.quantityPieces, lam.weightPer1000Kg);
    var total := lam.rawPerKg + conversion + cylinderPerKg;
    var q := ServerQuote(total, weightPer1000, margin);
    ApiCostBreakdown(
      lam.gsm, TotalThickness(req.layers), weightPer1000,
      lam.materialPerKg, lam.inkPerKg, printing, lamination,
      POUCHING_COST_PER_KG, OVERHEADS_PER_KG + SLITTING_COST_PER_KG,
      cylinderTotal, cylinderPerKg,
      conversion, total, q.costPer1000, q.sellingPer1000,
      q.costPerPouch, q.sellingPerPouch, margin)
  }

  /**
    Costs a job on the server. Densities come from the standard table and
    rates from `rates`, both looked up with `.get`, so only a missing entry
    takes the fallback. `marginPercent` is the optional keyword argument.
    Amounts are unrounded.
   */
  function CalculateCost(req: ProductRequirements, rates: map<string, real>, marginPercent: Option<real>): (b: ApiCostBreakdown)
    ensures b.totalGsm == SumGsm(Absent, Densities, req.layers) + AdhesiveGsm(|req.layers|) + InkGsm(req.numberOfColors)
    ensures b.weightPer1000PouchesKg == AreaSqm(ServerPouchOpenSize(req)) * b.totalGsm
  {
    var lam := LaminateOf(Absent, ServerPouchOpenSize(req), req.layers, req.numberOfColors, rates);
    var b := Itemise(req, lam, marginPercent);
    assert b.totalGsm == lam.gsm && b.weightPer1000PouchesKg == lam.weightPer1000Kg;
    b
  }

  /**
    The breakdown's material cost per kg is the film and adhesive cost per
    square metre spread over the laminate's weight, and the ink cost per kg
    the ink's cost spread likewise.
   */
  lemma CostsPerKg(req: ProductRequirements, rates: map<string, real>, marginPercent: Option<real>)
    ensures var b := CalculateCost(req, rates, marginPercent);
      && b.materialCostPerKg == PerKg(SumCost(Absent, Densities, rates, req.layers) + AdhesiveCost(|req.layers|), b.totalGsm)
      && b.inkCostPerKg == PerKg(InkCostPerSqm(req.numberOfColors), b.totalGsm)
  {
  }

  /**
    A request posted without a cylinder cost pays the request model's 3500
    per colour, and one posted without a margin, costed as the API costs
    it (with the request's own margin), is quoted at 20 percent.
   */
  lemma OmittedFieldsDefaulted(req: ProductRequirements, posted: PostedFields, rates: map<string, real>)
    ensures var r := WithDefaults(req, posted);
            var b := CalculateCost(r, rates, Some(r.marginPercent));
      && (posted.cylinderCostPerUnit.None? ==> b.cylinderCostTotal == r.numberOfColors as real * 3500.0)
      && (posted.marginPercent.None? ==> b.marginPercent == 20.0)
  {
  }

  /**
    Within the request model's bounds and from non-negative laminate
    figures, the server's charges are non-negative and the total per kg is
    at least the 37 of fixed conversion charges.
   */
  lemma ItemiseChargeBounds(req: ProductRequirements, lam: LaminateFigures, marginPercent: Option<real>)
    requires Valid(req)
    requires lam.rawPerKg == lam.materialPerKg + lam.inkPerKg
    requires lam.materialPerKg >= 0.0 && lam.inkPerKg >= 0.0 && lam.weightPer1000Kg >= 0.0
    ensures var b := Itemise(req, lam, marginPercent);
      && b.printingCostPerKg >= 0.0 && b.laminationCostPerKg >= 0.0
      && b.cylinderCostTotal >= 0.0 && b.cylinderCostAmortizedPerKg >= 0.0
      && b.totalCostPerKg >= 37.0
  {
    var b := Itemise(req, lam, marginPercent);
    assert b.printingCostPerKg >= 0.0 && b.laminationCostPerKg >= 0.0;
    assert b.conversionCostPerKg >= 37.0;
    assert b.cylinderCostTotal >= 0.0;
    AmortisedNonNegative(b.cylinderCostTotal, req.quantityKg, req.quantityPieces, b.weightPer1000PouchesKg);
  }

  /**
    Under the same bounds, a non-negative margin never sells below cost and
    the per-pouch figures are non-negative; a positive margin on a laminate
    that weighs something sells strictly above cost.
   */
  lemma ItemiseBounds(req: ProductRequirements, lam: LaminateFigures, marginPercent: Option<real>)
    requires Valid(req)
    requires lam.rawPerKg == lam.materialPerKg + lam.inkPerKg
    requires lam.materialPerKg >= 0.0 && lam.inkPerKg >= 0.0 && lam.weightPer1000Kg >= 0.0
    requires marginPercent.Some? ==> marginPercent.value >= 0.0
    ensures var b := Itemise(req, lam, marginPercent);
      && b.totalCostPerKg >= 37.0
      && b.costPer1000Pouches >= 0.0 && b.sellingPricePer1000 >= b.costPer1000Pouches
      && b.costPerPouch >= 0.0 && b.sellingPricePerPouch >= 0.0
    ensures var b := Itemise(req, lam, marginPercent);
      lam.weightPer1000Kg > 0.0 && b.marginPercent > 0.0 ==> b.sellingPricePer1000 > b.costPer1000Pouches
  {
    var b := Itemise(req, lam, marginPercent);
    ItemiseChargeBounds(req, lam, marginPercent);
    ScaleKeepsSign(b.totalCostPerKg, b.weightPer1000PouchesKg);
    MarkupCoversCost(b.costPer1000Pouches, b.marginPercent);
  }

  /**
    For any request within the model's bounds, any non-negative rate table
    and a non-negative margin: every charge and price is non-negative, the
    total per kg is at least 37, the price never falls below cost, and a
    positive margin on a stack with a layer or ink sells above cost.
   */
  lemma QuoteBounds(req: ProductRequirements, rates: map<string, real>, marginPercent: Option<real>)
    requires Valid(req)
    requires forall m :: m in rates ==> rates[m] >= 0.0
    requires marginPercent.Some? ==> marginPercent.value >= 0.0
    ensures var b := CalculateCost(req, rates, marginPercent);
      && b.totalGsm >= 0.0 && b.weightPer1000PouchesKg >= 0.0
      && b.materialCostPerKg >= 0.0 && b.inkCostPerKg >= 0.0
      && b.totalCostPerKg >= 37.0 && b.costPer1000Pouches >= 0.0
      && b.sellingPricePer1000 >= b.costPer1000Pouches
    ensures var b := CalculateCost(req, rates, marginPercent);
      (|req.layers| > 0 || req.numberOfColors > 0) && b.marginPercent > 0.0 ==> b.sellingPricePer1000 > b.costPer1000Pouches
  {
    var size := ServerPouchOpenSize(req);
    GeometryAgrees(req);
    AreaPositive(req);
    LaminateBounds(Absent, size, req.layers, req.numberOfColors, rates);
    var lam := LaminateOf(Absent, size, req.layers, req.numberOfColors, rates);
    ItemiseBounds(req, lam, marginPercent);
  }
}
