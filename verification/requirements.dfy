/** The engine's input: pouch geometry, film stack, process parameters, quantity. */
module Requirements {
  import opened Wrappers

  datatype PouchType = CenterSeal | ThreeSideSeal | StandUpPouch | StandUpZipper | SideGusset

  /** One film of the laminate; `material` is a standard or user-defined name. */
  datatype Layer = Layer(material: string, thicknessMicron: real)

  /**
    A product requirement. The piece count is a number: the browser accepts
    any, while the server's request model accepts whole counts only (see
    `Valid`). Fields the request model defaults arrive here already filled
    in (see `WithDefaults`). The server-side engine reads every field except
    `wastagePercent`, `laborCostPerKg` and `machineUsageCostPerKg`, which only
    the client-side engine uses. The printing method is never read and is not kept.
   */
  datatype ProductRequirements = ProductRequirements(
    pouchType: PouchType,
    widthMm: real,
    heightMm: real,
    gussetMm: real,
    quantityKg: Option<real>,
    quantityPieces: Option<real>,
    layers: seq<Layer>,
    numberOfColors: int,
    cylinderCostPerUnit: real,
    marginPercent: real,
    wastagePercent: real,
    laborCostPerKg: real,
    machineUsageCostPerKg: real,
    printingCostPerKgOverride: Option<real>,
    laminationCostPerKgOverride: Option<real>)

  /** Sum of the layer thicknesses, in stack order. */
  function TotalThickness(layers: seq<Layer>): (t: real)
    ensures |layers| == 0 ==> t == 0.0
  {
    if |layers| == 0 then 0.0 else layers[0].thicknessMicron + TotalThickness(layers[1..])
  }

  /** Every layer has a strictly positive thickness. */
  predicate ValidLayers(layers: seq<Layer>)
  {
    forall i :: 0 <= i < |layers| ==> layers[i].thicknessMicron > 0.0
  }

  /**
    The lower bounds of the request model, which the bound lemmas of both
    engines rest on: positive layer thicknesses and face dimensions, and a
    non-negative gusset, colour count, cylinder cost, margin and overrides.
    The browser imposes no upper limit on the colour count or the margin.
   */
  predicate WithinBounds(req: ProductRequirements)
  {
    && ValidLayers(req.layers)
    && req.widthMm > 0.0
    && req.heightMm > 0.0
    && req.gussetMm >= 0.0
    && req.numberOfColors >= 0
    && req.cylinderCostPerUnit >= 0.0
    && req.marginPercent >= 0.0
    && (req.printingCostPerKgOverride.Some? ==> req.printingCostPerKgOverride.value >= 0.0)
    && (req.laminationCostPerKgOverride.Some? ==> req.laminationCostPerKgOverride.value >= 0.0)
  }

  /** A piece count, when given, is a whole number. */
  predicate WholePieces(quantityPieces: Option<real>)
  {
    quantityPieces.Some? ==> quantityPieces.value == quantityPieces.value.Floor as real
  }

  /**
    Everything the server's request model checks before costing: the lower
    bounds, at most ten colours, a margin of at most 100 percent and, since
    its piece count is an integer field, a whole count.
   */
  predicate Valid(req: ProductRequirements)
  {
    && WithinBounds(req)
    && req.numberOfColors <= 10
    && req.marginPercent <= 100.0
    && WholePieces(req.quantityPieces)
  }

  /** Defaults the request model fills in for a field the caller leaves out. */
  const GUSSET_DEFAULT_MM: real := 0.0
  const COLORS_DEFAULT: int := 0
  const CYLINDER_COST_DEFAULT: real := 3500.0
  const MARGIN_DEFAULT_PERCENT: real := 20.0

  /** The defaulted fields of a request as posted: each is given or left out. */
  datatype PostedFields = PostedFields(
    gussetMm: Option<real>,
    numberOfColors: Option<int>,
    cylinderCostPerUnit: Option<real>,
    marginPercent: Option<real>)

  /** A request that leaves out every defaulted field. */
  const AllOmitted: PostedFields := PostedFields(None, None, None, None)

  /** The given defaulted fields lie within their own bounds. */
  predicate GivenWithinBounds(posted: PostedFields)
  {
    && (posted.gussetMm.Some? ==> posted.gussetMm.value >= 0.0)
    && (posted.numberOfColors.Some? ==> 0 <= posted.numberOfColors.value <= 10)
    && (posted.cylinderCostPerUnit.Some? ==> posted.cylinderCostPerUnit.value >= 0.0)
    && (posted.marginPercent.Some? ==> 0.0 <= posted.marginPercent.value <= 100.0)
  }

  /**
    The request as the request model builds it: each defaulted field takes
    the posted value when there is one and its default otherwise; nothing
    else changes.
   */
  function WithDefaults(req: ProductRequirements, posted: PostedFields): (r: ProductRequirements)
    ensures r == req.(gussetMm := r.gussetMm, numberOfColors := r.numberOfColors,
                      cylinderCostPerUnit := r.cylinderCostPerUnit, marginPercent := r.marginPercent)
    ensures posted.gussetMm.None? ==> r.gussetMm == 0.0
    ensures posted.numberOfColors.None? ==> r.numberOfColors == 0
    ensures posted.cylinderCostPerUnit.None? ==> r.cylinderCostPerUnit == 3500.0
    ensures posted.marginPercent.None? ==> r.marginPercent == 20.0
    ensures posted.gussetMm.Some? ==> r.gussetMm == posted.gussetMm.value
    ensures posted.numberOfColors.Some? ==> r.numberOfColors == posted.numberOfColors.value
    ensures posted.cylinderCostPerUnit.Some? ==> r.cylinderCostPerUnit == posted.cylinderCostPerUnit.value
    ensures posted.marginPercent.Some? ==> r.marginPercent == posted.marginPercent.value
  {
    req.(gussetMm := posted.gussetMm.GetOr(GUSSET_DEFAULT_MM),
         numberOfColors := posted.numberOfColors.GetOr(COLORS_DEFAULT),
         cylinderCostPerUnit := posted.cylinderCostPerUnit.GetOr(CYLINDER_COST_DEFAULT),
         marginPercent := posted.marginPercent.GetOr(MARGIN_DEFAULT_PERCENT))
  }

  /**
    The defaults lie within their fields' bounds: a request built with
    defaults passes the request model exactly when its required fields do
    and every field the caller did give is within bounds.
   */
  lemma DefaultsWithinBounds(req: ProductRequirements, posted: PostedFields)
    ensures Valid(WithDefaults(req, posted)) <==> Valid(WithDefaults(req, AllOmitted)) && GivenWithinBounds(posted)
    ensures Valid(WithDefaults(req, AllOmitted))
        <==> && ValidLayers(req.layers) && req.widthMm > 0.0 && req.heightMm > 0.0
             && WholePieces(req.quantityPieces)
             && (req.printingCostPerKgOverride.Some? ==> req.printingCostPerKgOverride.value >= 0.0)
             && (req.laminationCostPerKgOverride.Some? ==> req.laminationCostPerKgOverride.value >= 0.0)
  {
  }

  /** A stack of positive-thickness layers is thicker than zero iff it is non-empty. */
  lemma {:induction false} ThicknessPositive(layers: seq<Layer>)
    requires ValidLayers(layers)
    ensures TotalThickness(layers) >= 0.0
    ensures TotalThickness(layers) > 0.0 <==> |layers| > 0
  {
    if |layers| > 0 {
      assert ValidLayers(layers[1..]) by {
        forall i | 0 <= i < |layers[1..]|
          ensures layers[1..][i].thicknessMicron > 0.0
        {
          assert layers[1..][i] == layers[i + 1];
        }
      }
      ThicknessPositive(layers[1..]);
      assert layers[0].thicknessMicron > 0.0;
    }
  }

  /** The total thickness of two stacked films is the sum of their totals. */
  lemma {:induction false} ThicknessAppend(a: seq<Layer>, b: seq<Layer>)
    ensures TotalThickness(a + b) == TotalThickness(a) + TotalThickness(b)
  {
    if |a| == 0 {
      assert a + b == b;
    } else {
      assert (a + b)[1..] == a[1..] + b;
      ThicknessAppend(a[1..], b);
    }
  }
}
