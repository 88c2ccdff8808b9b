/**
  From cost per kg to prices: cylinder amortisation over the job, wastage,
  cost and selling price per thousand pouches and per pouch.
 */
module Pricing {
  import opened Wrappers

  /** Cylinder (plate) investment: one cylinder per colour. */
  function CylinderTotal(colors: int, costPerUnit: real): (r: real)
    ensures colors == 0 ==> r == 0.0
    ensures colors >= 0 && costPerUnit >= 0.0 ==> r >= 0.0
    ensures colors > 0 && costPerUnit > 0.0 ==> r > 0.0
  {
    colors as real * costPerUnit
  }

  /** More colours never lower the cylinder investment; each adds one unit's cost. */
  lemma CylinderGrowsWithColours(c1: int, c2: int, costPerUnit: real)
    requires c1 <= c2 && costPerUnit >= 0.0
    ensures CylinderTotal(c1, costPerUnit) <= CylinderTotal(c2, costPerUnit)
    ensures CylinderTotal(c1 + 1, costPerUnit) == CylinderTotal(c1, costPerUnit) + costPerUnit
  {
    assert (c2 - c1) as real * costPerUnit >= 0.0;
  }

  /** Weight in kg of a job of `pieces` pouches weighing `weightPerPouchG` grams each. */
  function JobKg(pieces: real, weightPerPouchG: real): (kg: real)
    ensures pieces > 0.0 ==> (kg > 0.0 <==> weightPerPouchG > 0.0)
  {
    (pieces * weightPerPouchG) / 1000.0
  }

  /** A bigger order of the same pouch weighs more. */
  lemma JobKgGrows(p1: real, p2: real, weightPerPouchG: real)
    requires p1 <= p2 && weightPerPouchG >= 0.0
    ensures JobKg(p1, weightPerPouchG) <= JobKg(p2, weightPerPouchG)
  {
    assert (p2 - p1) * weightPerPouchG >= 0.0;
  }

  /** The quantity the cylinder cost is spread over, or none. */
  datatype QuantityBasis = ByKg(kg: real) | ByPieces(jobKg: real) | NoQuantity

  /**
    The basis the engines amortise over: a positive kg quantity wins; failing
    that, a positive piece count whose job weight is positive; otherwise none.
   */
  function SelectBasis(quantityKg: Option<real>, quantityPieces: Option<real>, weightPerPouchG: real): (b: QuantityBasis)
    ensures b.ByKg? <==> quantityKg.Some? && quantityKg.value > 0.0
    ensures b.ByKg? ==> b.kg == quantityKg.value
    ensures b.ByPieces? ==> quantityPieces.Some? && quantityPieces.value > 0.0
                            && b.jobKg == JobKg(quantityPieces.value, weightPerPouchG) && b.jobKg > 0.0
    ensures b.NoQuantity? <==> !(quantityKg.Some? && quantityKg.value > 0.0)
                               && !(quantityPieces.Some? && quantityPieces.value > 0.0 && JobKg(quantityPieces.value, weightPerPouchG) > 0.0)
  {
    if quantityKg.Some? && quantityKg.value > 0.0 then ByKg(quantityKg.value)
    else if quantityPieces.Some? && quantityPieces.value > 0.0 && JobKg(quantityPieces.value, weightPerPouchG) > 0.0 then
      ByPieces(JobKg(quantityPieces.value, weightPerPouchG))
    else NoQuantity
  }

  /**
    Cylinder cost per kg as both engines compute it: over the kg quantity,
    else over the job weight derived from the piece count, else nothing.
    The result spread back over the selected basis gives the cylinder total.
   */
  function AmortisedPerKg(cylinderTotal: real, quantityKg: Option<real>, quantityPieces: Option<real>, weightPerPouchG: real): (r: real)
    ensures match SelectBasis(quantityKg, quantityPieces, weightPerPouchG)
            case ByKg(kg) => r * kg == cylinderTotal
            case ByPieces(jobKg) => r * jobKg == cylinderTotal
            case NoQuantity => r == 0.0
  {
    if quantityKg.Some? && quantityKg.value > 0.0 then
      cylinderTotal / quantityKg.value
    else if quantityPieces.Some? && quantityPieces.value > 0.0 then
      var totalJobWeightKg := JobKg(quantityPieces.value, weightPerPouchG);
      if totalJobWeightKg > 0.0 then cylinderTotal / totalJobWeightKg else 0.0
    else 0.0
  }

  /** A non-negative cylinder total never amortises to a negative charge. */
  lemma AmortisedNonNegative(total: real, quantityKg: Option<real>, quantityPieces: Option<real>, weightPerPouchG: real)
    requires total >= 0.0
    ensures AmortisedPerKg(total, quantityKg, quantityPieces, weightPerPouchG) >= 0.0
  {
    var r := AmortisedPerKg(total, quantityKg, quantityPieces, weightPerPouchG);
    match SelectBasis(quantityKg, quantityPieces, weightPerPouchG)
    case ByKg(kg) =>
      assert r * kg == total && kg > 0.0;
    case ByPieces(jobKg) =>
      assert r * jobKg == total && jobKg > 0.0;
    case NoQuantity =>
  }

  /** A positive kg quantity decides alone: the piece count and pouch weight are ignored. */
  lemma KgQuantityTakesPriority(total: real, kg: real, p1: Option<real>, p2: Option<real>, w1: real, w2: real)
    requires kg > 0.0
    ensures AmortisedPerKg(total, Some(kg), p1, w1) == AmortisedPerKg(total, Some(kg), p2, w2)
  {
  }

  /**
    Ordering N pieces costs the same per kg as ordering their job weight in
    kg; for weightless pouches both amortise nothing.
   */
  lemma PiecesMatchEquivalentKg(total: real, pieces: real, weightPerPouchG: real)
    requires pieces > 0.0
    ensures weightPerPouchG > 0.0 ==> JobKg(pieces, weightPerPouchG) > 0.0
    ensures AmortisedPerKg(total, None, Some(pieces), weightPerPouchG)
         == AmortisedPerKg(total, Some(JobKg(pieces, weightPerPouchG)), None, weightPerPouchG)
  {
  }

  /** Without a usable quantity (zero or no pieces, weightless pouches) nothing is amortised. */
  lemma NoQuantityNoAmortisation(total: real, quantityKg: Option<real>, pieces: real, weightPerPouchG: real)
    requires quantityKg.None? || quantityKg.value <= 0.0
    requires pieces <= 0.0 || weightPerPouchG <= 0.0
    ensures AmortisedPerKg(total, quantityKg, Some(pieces), weightPerPouchG) == 0.0
    ensures AmortisedPerKg(total, quantityKg, None, weightPerPouchG) == 0.0
  {
    if pieces > 0.0 {
      assert pieces * weightPerPouchG <= 0.0;
    }
  }

  /** A larger kg quantity spreads a non-negative cylinder total more thinly. */
  lemma AmortisationFallsWithQuantity(total: real, kg1: real, kg2: real)
    requires total >= 0.0 && 0.0 < kg1 <= kg2
    ensures AmortisedPerKg(total, Some(kg2), None, 0.0) <= AmortisedPerKg(total, Some(kg1), None, 0.0)
  {
    // total / kg2 is total / kg1 scaled by the ratio kg1 / kg2, which is at most 1
    var a1 := total / kg1;
    var f := kg1 / kg2;
    assert f * kg2 == kg1;
    assert 0.0 < f <= 1.0;
    assert a1 * kg1 == total;
    assert (a1 * f) * kg2 == total;
    assert a1 * f == total / kg2;
    assert a1 * (1.0 - f) >= 0.0;
    assert AmortisedPerKg(total, Some(kg1), None, 0.0) == a1;
    assert AmortisedPerKg(total, Some(kg2), None, 0.0) == total / kg2;
  }

  /** Wastage per kg: the given percentage of the pre-wastage cost. */
  function WastagePerKg(base: real, wastagePercent: real): (w: real)
    ensures wastagePercent == 0.0 ==> w == 0.0
    ensures base >= 0.0 && wastagePercent >= 0.0 ==> w >= 0.0
  {
    base * (wastagePercent / 100.0)
  }

  /** Loading the cost with wastage scales it by one plus the wastage fraction. */
  lemma WastageScales(base: real, wastagePercent: real)
    ensures base + WastagePerKg(base, wastagePercent) == base * (1.0 + wastagePercent / 100.0)
  {
  }

  /** Selling price: the cost marked up by `marginPercent` percent; the profit is that share of the cost. */
  function Markup(cost: real, marginPercent: real): (s: real)
    ensures s - cost == cost * (marginPercent / 100.0)
  {
    cost * (1.0 + (marginPercent / 100.0))
  }

  /**
    A non-negative margin on a non-negative cost never sells below cost, and
    a positive margin on a positive cost sells strictly above it.
   */
  lemma MarkupCoversCost(cost: real, marginPercent: real)
    ensures cost >= 0.0 && marginPercent >= 0.0 ==> Markup(cost, marginPercent) >= cost
    ensures cost > 0.0 && marginPercent > 0.0 ==> Markup(cost, marginPercent) > cost
  {
    if cost >= 0.0 && marginPercent >= 0.0 {
      assert cost * (marginPercent / 100.0) >= 0.0;
    }
    if cost > 0.0 && marginPercent > 0.0 {
      assert cost * (marginPercent / 100.0) > 0.0;
    }
  }

  /** On a non-negative cost, a larger margin never lowers the price. */
  lemma MarkupMonotone(cost: real, m1: real, m2: real)
    requires cost >= 0.0 && m1 <= m2
    ensures Markup(cost, m1) <= Markup(cost, m2)
  {
    assert cost * ((m2 - m1) / 100.0) >= 0.0;
  }

  /** On a positive cost, a strictly larger margin sells strictly higher. */
  lemma MarkupStrictlyMonotone(cost: real, m1: real, m2: real)
    requires cost > 0.0 && m1 < m2
    ensures Markup(cost, m1) < Markup(cost, m2)
  {
    assert cost * ((m2 - m1) / 100.0) > 0.0;
  }

  /** The cost is recovered from the price by dividing out the markup factor. */
  lemma MarkupInverse(cost: real, marginPercent: real)
    requires marginPercent > -100.0
    ensures Markup(cost, marginPercent) / (1.0 + marginPercent / 100.0) == cost
  {
    var factor := 1.0 + marginPercent / 100.0;
    assert factor > 0.0;
    var q := Markup(cost, marginPercent) / factor;
    assert q * factor == cost * factor;
    assert (q - cost) * factor == 0.0;
  }

  /** The client's per-pouch figure: a thousandth of the per-thousand figure. */
  function PerPouch(per1000: real): (r: real)
    ensures r * 1000.0 == per1000
  {
    per1000 / 1000.0
  }

  /** The server's per-pouch figure: a thousandth of a non-zero per-thousand figure, else 0. */
  function ServerPerPouch(per1000: real): (r: real)
    ensures per1000 == 0.0 ==> r == 0.0
  {
    if per1000 != 0.0 then per1000 / 1000.0 else 0.0
  }

  /** The zero guard changes nothing: both engines report the same per-pouch figure. */
  lemma PerPouchAgrees(per1000: real)
    ensures ServerPerPouch(per1000) == PerPouch(per1000)
  {
  }

  /** Cost and selling price of a thousand pouches and of one. */
  datatype Quote = Quote(costPer1000: real, sellingPer1000: real, costPerPouch: real, sellingPerPouch: real)

  /**
    The client's quote: a thousand pouches cost their weight in kg at the
    total cost per kg, the margin's share of that cost is added to sell,
    and one pouch is a thousandth of each.
   */
  function ClientQuote(totalPerKg: real, weightPer1000Kg: real, marginPercent: real): (q: Quote)
    ensures q.costPer1000 == totalPerKg * weightPer1000Kg
    ensures q.sellingPer1000 - q.costPer1000 == q.costPer1000 * (marginPercent / 100.0)
    ensures q.costPerPouch * 1000.0 == q.costPer1000 && q.sellingPerPouch * 1000.0 == q.sellingPer1000
  {
    var cost := totalPerKg * weightPer1000Kg;
    var selling := Markup(cost, marginPercent);
    Quote(cost, selling, PerPouch(cost), PerPouch(selling))
  }

  /** The server's quote, with its zero-guarded per-pouch figures. */
  function ServerQuote(totalPerKg: real, weightPer1000Kg: real, marginPercent: real): (q: Quote)
    ensures q.costPer1000 == totalPerKg * weightPer1000Kg
    ensures q.sellingPer1000 - q.costPer1000 == q.costPer1000 * (marginPercent / 100.0)
    ensures q.costPer1000 == 0.0 ==> q.costPerPouch == 0.0
    ensures q.sellingPer1000 == 0.0 ==> q.sellingPerPouch == 0.0
  {
    var cost := totalPerKg * weightPer1000Kg;
    var selling := Markup(cost, marginPercent);
    Quote(cost, selling, ServerPerPouch(cost), ServerPerPouch(selling))
  }

  /** Both engines quote alike from the same cost per kg, weight and margin. */
  lemma QuotesAgree(totalPerKg: real, weightPer1000Kg: real, marginPercent: real)
    ensures ServerQuote(totalPerKg, weightPer1000Kg, marginPercent) == ClientQuote(totalPerKg, weightPer1000Kg, marginPercent)
  {
    var cost := totalPerKg * weightPer1000Kg;
    PerPouchAgrees(cost);
    PerPouchAgrees(Markup(cost, marginPercent));
  }

  /** The server's weight per thousand pouches in kg: grams per pouch times 1000, over 1000. */
  function ServerWeightPer1000(weightPerPouchG: real): (kg: real)
    ensures kg == weightPerPouchG
  {
    (weightPerPouchG * 1000.0) / 1000.0
  }
}
