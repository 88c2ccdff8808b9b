# Pouch cost engine, modelled in Dafny

The packaging-pricing system quotes printed, laminated flexible pouches.
It does so from a requirement: pouch type and dimensions, the film stack,
colours, cylinder cost, quantity, margin and optional per-job overrides.
There are two copies of the engine:

- the browser's `calculateCost` (`frontend/src/utils/calculations.ts`),
  which also charges labour, machine usage and wastage;
- the server's `CostCalculator.calculate_cost` (`backend/calculations.py`),
  which reads its material rates from the database and takes an optional
  margin.

The model follows both engines stage by stage:

- open size and area of the printed web (`Geometry`);
- weight and cost per square metre of the film stack, with adhesive
  between neighbouring layers and ink with a white base (`FilmStack`);
- the laminate's weight and per-kg material and ink cost (`Laminate`);
- printing, lamination and fixed conversion charges (`Process`);
- cylinder amortisation, wastage, markup and per-pouch figures (`Pricing`);
- the two engines composed (`ClientEngine`, `ServerEngine`).

The engines read their tables differently:

- The browser writes `table[name] || default`, so a stored zero is replaced
  by the default.
- The server writes `table.get(name, default)`, so only a missing name is
  replaced.

Both readings are one lookup with a `Fallback` policy (`Tables`).
`CrossCheck` proves that the two engines agree whenever the rate table
holds no zero and the client-only charges are zero. `Scenario` works
through a concrete centre-seal job.

All amounts are Dafny `real`s. The rate table is a parameter:

- on the client it stands for the default-rate argument (`DefaultRates`
  when the caller passes none);
- on the server it stands for `db.get_rates()`.

The density table is the fixed standard table of both sources. The request
model's field bounds (`backend/models.py`) are the predicate
`Requirements.Valid`, which the server's bound lemmas require. The
client's bound lemmas require only `Requirements.WithinBounds`, the lower
bounds. The browser imposes no limit of ten colours or 100 percent margin
and takes fractional piece counts. Fields the request model
defaults are filled in by `Requirements.WithDefaults`.

## Model

| member | source | states |
|---|---|---|
| Tables.Lookup | frontend/src/utils/calculations.ts:82-86 | a missing name takes the default and a non-zero entry is returned as stored; a stored zero stays zero under `.get` and becomes the default under `\|\|` |
| Tables.PoliciesAgreeIff | frontend/src/utils/calculations.ts:86 | the two lookups agree on a name exactly when the table does not hold a zero for it |
| Tables.ZeroRateDiverges | backend/calculations.py:97 | a rate stored as zero is priced at 100 by the browser and at 0 by the server |
| Tables.DensityOf | backend/models.py:33-45 | a layer's density is the table entry for its material, else 1.0 |
| Tables.StandardDensities | frontend/src/utils/calculations.ts:17-27 | every standard density is positive; each of the nine standard materials gets its table density and any other name gets 1.0, under either lookup |
| Tables.PolicyIrrelevantOnPositiveTable | backend/models.py:45 | over a table of positive entries both lookups resolve every name alike |
| Tables.RateOf | backend/calculations.py:97 | a material's rate is its entry, or 100 when missing (and under `\|\|` also when zero) |
| Requirements.TotalThickness | backend/models.py:51-52 | an empty stack is 0 microns thick |
| Requirements.Valid | backend/models.py:56-71 | a request passes the request model when its layers have positive thickness, its width and height are positive, its gusset, cylinder cost and overrides are non-negative, it has 0 to 10 colours and a margin of 0 to 100, and any piece count is whole |
| Requirements.WithDefaults | backend/models.py:58-67 | a left-out gusset becomes 0, colours 0, cylinder cost 3500 and margin 20; given values are kept and no other field changes |
| Requirements.DefaultsWithinBounds | backend/models.py:58-67 | the defaults satisfy their own bounds: a defaulted request is valid exactly when its required fields are and every given defaulted field is within bounds |
| Requirements.ThicknessPositive | backend/models.py:29 | with every layer thicker than zero, the stack is non-negative in thickness and positive exactly when it has a layer |
| Requirements.ThicknessAppend | frontend/src/utils/calculations.ts:144 | the thickness of two stacked films is the sum of their thicknesses |
| Geometry.PouchOpenSize | frontend/src/utils/calculations.ts:52-68 | zipper and side-gusset pouches are cut at their height; every other type adds 20 mm of seal; the open width is twice the face width plus twice the gusset plus 20 mm of overlap for centre seal, plus 60 mm of bottom allowance for stand-up, and exactly twice the face width for three-side seal, zipper and side gusset |
| Geometry.ServerPouchOpenSize | backend/calculations.py:43-68 | the cut length exceeds the height exactly for centre-seal, three-side-seal and stand-up pouches; the open width per type is that of the browser (2w+2g+20, 2w, 2w+2g+60, 2w otherwise) |
| Geometry.AreaSqm | frontend/src/utils/calculations.ts:75 | a pouch with positive open width and cut length has a positive area; a zero side gives no area |
| Geometry.GeometryAgrees | backend/calculations.py:43-70 | both engines compute the same open size for every requirement |
| Geometry.AreaPositive | backend/models.py:56-58 | a requirement within bounds opens to a positive width, cut length and area |
| FilmStack.AdhesivePasses | frontend/src/utils/calculations.ts:90-93 | an n-layer stack has n-1 adhesive interfaces, and none when empty |
| FilmStack.FoldLayers | frontend/src/utils/calculations.ts:81-94 | the per-layer loop accumulates exactly the layer sums plus one adhesive per interface, from any starting index |
| FilmStack.AdhesiveStep | backend/calculations.py:103-105 | each layer but the last adds one adhesive weight and cost; the last adds none |
| FilmStack.SumsSplit | backend/calculations.py:91-100 | the sums from index i are layer i plus the sums from i+1 |
| FilmStack.LayerFigures | frontend/src/utils/calculations.ts:82-87 | a layer of positive thickness over the standard densities weighs something; its cost per square metre is its weight in kg at its rate, and is non-negative when the rate is |
| FilmStack.InkGsm | frontend/src/utils/calculations.ts:99-106 | an unprinted job has no ink; a printed one carries 0.5 g per colour plus 1 g of white |
| FilmStack.InkCostPerSqm | backend/calculations.py:121-122 | an unprinted job has no ink cost; a printed one a positive ink cost |
| FilmStack.InkGrowsWithColours | frontend/src/utils/calculations.ts:101-105 | more colours never lower the ink weight or the ink cost per square metre |
| FilmStack.InkPerKgGrows | backend/calculations.py:117-133 | over any non-negative film-and-adhesive weight, more colours never lower the ink cost per kg, though the ink also adds to the weight |
| FilmStack.InkPerKgIsShare | backend/calculations.py:121-135 | the ink cost per kg is the ink rate times the ink's share of the laminate's weight |
| FilmStack.Aggregate | backend/calculations.py:82-122 | the stack's weight is the layers' plus the adhesive's plus the ink's; its cost adds up likewise |
| FilmStack.EmptyUnprintedStack | backend/calculations.py:111-113 | an empty, unprinted stack weighs and costs nothing |
| FilmStack.SingleLayerHasNoAdhesive | frontend/src/utils/calculations.ts:90 | a one-layer stack carries no adhesive |
| FilmStack.PerKg | frontend/src/utils/calculations.ts:111-117 | a cost per square metre over a positive weight gives the per-kg cost that recovers it; a weightless stack costs 0 per kg |
| FilmStack.PerKgSubtract | frontend/src/utils/calculations.ts:147 | the film-only per-kg cost is the raw per-kg cost less the ink's |
| FilmStack.SumsNonNegative | backend/calculations.py:91-100 | non-negative thicknesses, densities and rates give a non-negative stack weight and cost |
| FilmStack.DensityPositive | backend/models.py:33-45 | over a table of positive densities every material resolves to a positive density |
| FilmStack.SumGsmPositive | backend/calculations.py:91-94 | a stack of positive-thickness layers weighs something exactly when it has a layer |
| FilmStack.PerKgNonNegative | backend/calculations.py:130-135 | a non-negative cost per square metre is non-negative per kg, the weightless case included |
| FilmStack.FilmBounds | frontend/src/utils/calculations.ts:77-106 | the laminate's weight is non-negative and positive exactly when it has a layer or is printed; film, adhesive and ink costs are non-negative |
| FilmStack.CostDependsOnlyOnUsedRates | backend/calculations.py:89-100 | two rate tables that agree on the stack's materials price the stack the same |
| FilmStack.RateChangeIsLocal | backend/calculations.py:97-100 | changing one material's rate moves the stack cost by exactly the change in that material's layers |
| FilmStack.SameRateSameCost | frontend/src/utils/calculations.ts:86-88 | a layer whose rate resolves alike in two tables costs alike |
| FilmStack.UpdateKeepsOtherRates | backend/calculations.py:97 | storing a rate for one material leaves every other material's resolved rate unchanged |
| Process.PrintingCostPerKg | frontend/src/utils/calculations.ts:119 | a given printing override is used as is |
| Process.OrZero | backend/calculations.py:140 | a real `x or 0` is `x` itself |
| Process.ServerPrintingCostPerKg | backend/calculations.py:139-142 | without an override printing costs 15 plus 2 per colour |
| Process.PrintingAgrees | backend/calculations.py:139-142 | the server's `override or 0` and the browser's `??` give the same printing cost |
| Process.PrintingByColours | frontend/src/utils/calculations.ts:119 | without an override each extra colour adds exactly 2 per kg and more colours never cost less; with one the colour count does not matter |
| Process.LaminationPasses | frontend/src/utils/calculations.ts:120 | the pass count is never negative and is one less than a positive layer count |
| Process.PassesAreAdhesiveInterfaces | backend/calculations.py:145 | lamination passes and adhesive interfaces are the same count |
| Process.LaminationCostPerKg | frontend/src/utils/calculations.ts:121 | a given override is used as is; otherwise lamination costs at least the base 12 |
| Process.ServerLaminationCostPerKg | backend/calculations.py:145-149 | without an override lamination costs 12 plus 5 per pass |
| Process.LaminationAgrees | backend/calculations.py:146-149 | both engines price lamination alike |
| Process.LaminationByLayers | frontend/src/utils/calculations.ts:120-121 | stacks of at most one layer pay the base only; each further layer adds 5 |
| Process.ServerConversion | backend/calculations.py:152-158 | conversion is printing plus lamination plus 37 of pouching, slitting and overheads |
| Process.ClientConversion | frontend/src/utils/calculations.ts:123 | the browser's conversion is the server's plus labour and machine usage |
| Pricing.CylinderTotal | frontend/src/utils/calculations.ts:125 | no colours means no cylinder cost; non-negative colours and unit cost give a non-negative total, positive when both are positive |
| Pricing.CylinderGrowsWithColours | backend/calculations.py:162 | at a non-negative unit cost more colours never cost less, and each extra colour adds exactly one unit's cost |
| Pricing.JobKg | frontend/src/utils/calculations.ts:131 | a positive order weighs something exactly when its pouches do |
| Pricing.JobKgGrows | backend/calculations.py:168 | a bigger order of pouches of non-negative weight never weighs less |
| Pricing.SelectBasis | frontend/src/utils/calculations.ts:128-133 | a positive kg quantity wins; otherwise a positive piece count with a positive job weight; otherwise none, with both directions stated |
| Pricing.AmortisedPerKg | backend/calculations.py:164-170 | the per-kg cylinder charge times the selected quantity gives back the cylinder total; with no usable quantity it is 0 |
| Pricing.AmortisedNonNegative | frontend/src/utils/calculations.ts:125-133 | a non-negative cylinder total never amortises to a negative charge |
| Pricing.KgQuantityTakesPriority | backend/calculations.py:165-166 | with a positive kg quantity the piece count and pouch weight are irrelevant |
| Pricing.PiecesMatchEquivalentKg | backend/calculations.py:167-170 | ordering N pieces amortises exactly as ordering their job weight in kg, whatever the pouch weight; the job weight is positive for pouches that weigh something |
| Pricing.NoQuantityNoAmortisation | frontend/src/utils/calculations.ts:126-133 | without a positive kg quantity or a usable piece count nothing is amortised |
| Pricing.AmortisationFallsWithQuantity | backend/calculations.py:165-166 | a larger kg quantity never raises the per-kg cylinder charge |
| Pricing.WastagePerKg | frontend/src/utils/calculations.ts:135-136 | zero wastage charges nothing; non-negative inputs give a non-negative charge |
| Pricing.WastageScales | frontend/src/utils/calculations.ts:135-138 | the cost with wastage is the base scaled by one plus the wastage fraction |
| Pricing.Markup | frontend/src/utils/calculations.ts:140 | the profit over cost is the margin's percentage of the cost |
| Pricing.MarkupCoversCost | backend/calculations.py:178 | a non-negative margin never sells below cost; a positive one on a positive cost sells above it |
| Pricing.MarkupMonotone | backend/calculations.py:178 | a larger margin never lowers the price |
| Pricing.MarkupStrictlyMonotone | frontend/src/utils/calculations.ts:140 | on a positive cost a strictly larger margin sells strictly higher |
| Pricing.MarkupInverse | frontend/src/utils/calculations.ts:140 | dividing the price by the markup factor recovers the cost |
| Pricing.PerPouch | frontend/src/utils/calculations.ts:165-166 | a thousand pouches at the per-pouch figure give the per-thousand figure |
| Pricing.ServerPerPouch | backend/calculations.py:181-182 | a zero per-thousand figure gives a zero per-pouch figure |
| Pricing.PerPouchAgrees | backend/calculations.py:181-182 | the server's zero guard changes nothing: both per-pouch figures agree |
| Pricing.ClientQuote | frontend/src/utils/calculations.ts:139-140 | a thousand pouches cost their weight at the cost per kg; the selling price adds the margin's share; per-pouch figures are thousandths |
| Pricing.ServerQuote | backend/calculations.py:175-182 | the same cost and markup relation, with zero-guarded per-pouch figures |
| Pricing.QuotesAgree | backend/calculations.py:175-182 | from the same inputs both engines produce the same quote |
| Pricing.ServerWeightPer1000 | backend/calculations.py:127 | multiplying and dividing by 1000 leaves the weight unchanged |
| Laminate.LaminateOf | frontend/src/utils/calculations.ts:108-117 | the laminate weighs the film, adhesive and ink sums; the pouch weight is area times that; the material and ink per-kg costs are their per-square-metre costs over the weight and add up to the raw cost |
| Laminate.InkPerKgGrowsWithColours | frontend/src/utils/calculations.ts:99-117 | for layers of positive thickness, more colours never lower the laminate's ink cost per kg |
| Laminate.LaminateBounds | backend/calculations.py:126-135 | all laminate figures are non-negative, and weight is positive exactly when the stack has a layer or is printed |
| ClientEngine.Itemise | frontend/src/utils/calculations.ts:119-168 | overrides take precedence; the conversion lines add up to the conversion charge; the total is every charge plus wastage on the pre-wastage sum; cost, selling price and per-pouch figures follow from the total and weight |
| ClientEngine.CalculateCost | frontend/src/utils/calculations.ts:73-109 | the breakdown's gsm is the film, adhesive and ink weights under `\|\|` lookups, and its weight is the open area times that gsm |
| ClientEngine.CostsPerKg | frontend/src/utils/calculations.ts:111-117 | the material and ink costs per kg are their per-square-metre costs spread over the laminate's gsm |
| ClientEngine.ItemiseChargeBounds | frontend/src/utils/calculations.ts:123-138 | within the lower bounds (any piece count, colour count or margin) and with non-negative labour, machine and wastage, the printing, lamination, cylinder, amortised cylinder and wastage charges are non-negative, conversion is at least 37 per kg, and so is the total |
| ClientEngine.ItemiseBounds | frontend/src/utils/calculations.ts:139-140 | within the lower bounds (any colour count or margin) and with non-negative labour, machine and wastage, the selling price is never below cost, and above it for a positive margin on a laminate that weighs something |
| ClientEngine.QuoteBounds | frontend/src/utils/calculations.ts:73-140 | for any request within the lower bounds (any piece count, colour count or margin) with non-negative labour, machine and wastage, and any non-negative rate table, the quote is non-negative, at least 37 per kg, and sells at or above cost (above for a positive margin on a non-empty job) |
| ServerEngine.Itemise | backend/calculations.py:137-206 | the server's itemisation: no wastage, labour or machine charges, the margin defaults to 20, and per-pouch figures are zero-guarded |
| ServerEngine.CalculateCost | backend/calculations.py:72-127 | the breakdown's gsm is the film, adhesive and ink weights under `.get` lookups, and its weight is the server's open area times that gsm |
| ServerEngine.CostsPerKg | backend/calculations.py:129-135 | the material and ink costs per kg are their per-square-metre costs spread over the laminate's gsm |
| ServerEngine.OmittedFieldsDefaulted | backend/models.py:66-67 | a request posted without a cylinder cost pays 3500 per colour, and one posted without a margin is quoted at 20 percent when costed as the API costs it |
| ServerEngine.ItemiseChargeBounds | backend/calculations.py:152-173 | within bounds printing, lamination and cylinder charges are non-negative and the total is at least 37 per kg |
| ServerEngine.ItemiseBounds | backend/calculations.py:175-182 | within bounds a non-negative margin never sells below cost and per-pouch figures are non-negative |
| ServerEngine.QuoteBounds | backend/models.py:54-71 | any request the request model accepts, with non-negative rates and margin, gets a non-negative quote of at least 37 per kg that sells at or above cost |
| CrossCheck.LayerPolicyIrrelevant | backend/calculations.py:93-99 | over tables without zeros a layer weighs and costs the same under either lookup |
| CrossCheck.StackPolicyIrrelevant | frontend/src/utils/calculations.ts:81-88 | over tables without zeros a whole stack weighs and costs the same under either lookup |
| CrossCheck.LaminatePolicyIrrelevant | backend/calculations.py:91-135 | over a rate table without zeros both engines' laminates coincide |
| CrossCheck.ItemisersAgree | backend/calculations.py:137-206 | with no labour, machine or wastage and the request's margin, both itemisations agree on every shared field |
| CrossCheck.EnginesAgree | backend/main.py:34 | the server, called as the API calls it, and the browser give the same totals, costs, prices and per-pouch figures for zero labour, machine and wastage and a rate table without zeros |
| Scenario.ExampleFilmGsm | frontend/src/utils/calculations.ts:81-84 | 12 microns of PET and 40 of LDPE weigh 53.6 g per square metre |
| Scenario.ExampleGeometry | frontend/src/utils/calculations.ts:53-56 | a 150 by 200 mm centre-seal pouch opens to 320 by 220 mm, 0.0704 square metres |
| Scenario.ExampleClientQuote | frontend/src/utils/calculations.ts:73-169 | the example job weighs 60.1 g per square metre and 4.23104 kg per thousand, has 27000 of cylinders and 104 per kg of conversion, and sells above cost |
| Scenario.ExampleServerQuote | backend/calculations.py:72-207 | on the server the same job has the same weight and cylinders, 81 per kg of conversion, and sells above cost |

## Left out

- Rounding: the engines round the gsm, the weight per thousand, every per-kg charge, the cylinder figures, the totals and the per-thousand prices to 2 decimals, and the per-pouch figures to 4. They return the total thickness and the margin percent unrounded. The model's amounts are all exact reals.
- Piece counts: the piece count is a real, since the browser's request type takes any number. The server's request model takes whole counts only, which `Requirements.Valid` states. The client's lemmas do not assume it.
- Non-numbers: JavaScript `NaN` and `undefined` arithmetic and the browser's `|| 0` on per-pouch figures. In exact reals, `x / 1000 || 0` is `x / 1000`.
- Fractional colour counts: the colour count is an integer, as the server's request model requires. The browser would accept a fraction.
- The database read of rates, quotation storage, the HTTP layer and the user interface: the rate table is a parameter instead.
- The printing method: it is never read by either engine and is not kept.
- `WHITE_INK_GSM = 1.5`: it is declared on the server but never used. The white base is the literal 1.0 in both engines.
- Prototype-chain names: JavaScript looks `rates[name]` up through `Object.prototype`, so names like `constructor` resolve to non-numbers.
- FilmStack.RateChangeIsLocal: states that a rate change is local to the changed material's layers. It does not prove that the change equals the rate difference times that material's weight, because that proportional form needs the nonlinear algebra of a per-material weight sum, and that proof does not fit within the resource limit this project verifies under.
- ClientEngine.CalculateCost: models a caller that passes its rate table. The default-argument case is the same function applied to `DefaultRates`.
- ServerEngine.CalculateCost: the server's `weight_per_pouch_g * 1000 / 1000` is kept as written (`Pricing.ServerWeightPer1000`), and equals the pouch weight in grams.
- Geometry.PouchOpenSize: zipper and side-gusset pouches take the default branch, which adds no seal allowance. This is modelled as written.
