/**
  Conversion costs per kg: printing and lamination (each with an optional
  per-job override), pouching, slitting and overheads, and on the client
  also labour and machine usage.
 */
module Process {
  import opened Wrappers
  import opened Tables
  import FilmStack

  /** The client's printing cost: the override when one is given (even 0), else base plus per-colour. */
  function PrintingCostPerKg(override: Option<real>, colors: int): (p: real)
    ensures override.Some? ==> p == override.value
  {
    override.GetOr(PRINTING_COST_PER_KG_BASE + colors as real * PRINTING_COST_PER_KG_PER_COLOR)
  }

  /** Python's `x or 0`: a falsy number becomes 0, which for a real changes nothing observable. */
  function OrZero(x: real): (r: real)
    ensures r == x
  {
    if x != 0.0 then x else 0.0
  }

  /** The server's printing cost: `override or 0` when an override is present, else the formula. */
  function ServerPrintingCostPerKg(override: Option<real>, colors: int): (p: real)
    ensures override.None? ==> p == PRINTING_COST_PER_KG_BASE + colors as real * PRINTING_COST_PER_KG_PER_COLOR
  {
    if override.Some? then OrZero(override.value)
    else PRINTING_COST_PER_KG_BASE + colors as real * PRINTING_COST_PER_KG_PER_COLOR
  }

  /** Both engines price printing alike: `??` and `is not None ... or 0` select the same value. */
  lemma PrintingAgrees(override: Option<real>, colors: int)
    ensures PrintingCostPerKg(override, colors) == ServerPrintingCostPerKg(override, colors)
  {
  }

  /**
    Without an override every extra colour adds exactly the per-colour
    surcharge, so the printing cost grows with the colour count; with one,
    the colour count plays no part.
   */
  lemma PrintingByColours(override: Option<real>, c1: int, c2: int)
    ensures override.None? ==>
              PrintingCostPerKg(override, c2) - PrintingCostPerKg(override, c1) == 2.0 * (c2 - c1) as real
    ensures override.None? && c1 <= c2 ==> PrintingCostPerKg(override, c1) <= PrintingCostPerKg(override, c2)
    ensures override.Some? ==> PrintingCostPerKg(override, c1) == PrintingCostPerKg(override, c2)
  {
  }

  /** `max(0, n - 1)`: the lamination passes of an `n`-layer stack. */
  function LaminationPasses(numLayers: int): (k: int)
    ensures k >= 0
    ensures numLayers >= 1 ==> k == numLayers - 1
  {
    if numLayers - 1 > 0 then numLayers - 1 else 0
  }

  /** Every adhesive interface is one lamination pass. */
  lemma PassesAreAdhesiveInterfaces(numLayers: nat)
    ensures LaminationPasses(numLayers) == FilmStack.AdhesivePasses(numLayers) as int
  {
  }

  /** The client's lamination cost: the override when given, else base plus per-pass. */
  function LaminationCostPerKg(override: Option<real>, numLayers: int): (p: real)
    ensures override.Some? ==> p == override.value
    ensures override.None? ==> p >= LAMINATION_COST_PER_KG_BASE
  {
    override.GetOr(LAMINATION_COST_PER_KG_BASE + LaminationPasses(numLayers) as real * LAMINATION_COST_PER_LAYER)
  }

  /** The server's lamination cost, with Python's `override or 0`. */
  function ServerLaminationCostPerKg(override: Option<real>, numLayers: int): (p: real)
    ensures override.None? ==> p == LAMINATION_COST_PER_KG_BASE + LaminationPasses(numLayers) as real * LAMINATION_COST_PER_LAYER
  {
    if override.Some? then OrZero(override.value)
    else LAMINATION_COST_PER_KG_BASE + LaminationPasses(numLayers) as real * LAMINATION_COST_PER_LAYER
  }

  /** Both engines price lamination alike. */
  lemma LaminationAgrees(override: Option<real>, numLayers: int)
    ensures LaminationCostPerKg(override, numLayers) == ServerLaminationCostPerKg(override, numLayers)
  {
  }

  /**
    Without an override, one- and zero-layer stacks pay the base only and
    each further layer adds one pass charge.
   */
  lemma LaminationByLayers(override: Option<real>, n: int)
    requires override.None?
    ensures n <= 1 ==> LaminationCostPerKg(override, n) == LAMINATION_COST_PER_KG_BASE
    ensures n >= 1 ==> LaminationCostPerKg(override, n + 1) == LaminationCostPerKg(override, n) + LAMINATION_COST_PER_LAYER
  {
  }

  /** The server's conversion cost: printing, lamination and 37 per kg of pouching, slitting and overheads. */
  function ServerConversion(printing: real, lamination: real): (c: real)
    ensures c - printing - lamination == 37.0
  {
    printing + lamination + POUCHING_COST_PER_KG + SLITTING_COST_PER_KG + OVERHEADS_PER_KG
  }

  /** The client's conversion cost, which also carries labour and machine usage. */
  function ClientConversion(printing: real, lamination: real, labour: real, machine: real): (c: real)
    ensures c == ServerConversion(printing, lamination) + labour + machine
  {
    printing + lamination + POUCHING_COST_PER_KG + SLITTING_COST_PER_KG + OVERHEADS_PER_KG + labour + machine
  }
}
