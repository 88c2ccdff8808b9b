/**
  A worked job: a centre-seal pouch 150 mm wide and 200 mm high of
  12-micron PET on 40-micron LDPE, printed in six colours, 100000 pieces,
  costed at the default rates by both engines.
 */
module Scenario {
  import opened Wrappers
  import opened Tables
  import opened Requirements
  import opened Geometry
  import opened FilmStack
  import opened Process
  import ClientEngine
  import ServerEngine

  const ExampleLayers: seq<Layer> := [Layer("PET", 12.0), Layer("LDPE", 40.0)]

  const Example: ProductRequirements := ProductRequirements(
    CenterSeal, 150.0, 200.0, 0.0, None, Some(100000.0), ExampleLayers,
    6, 4500.0, 20.0, 5.0, 8.0, 15.0, None, None)

  /** The two films weigh 12 * 1.4 + 40 * 0.92 = 53.6 g per square metre under either lookup. */
  lemma ExampleFilmGsm(policy: Fallback)
    ensures SumGsm(policy, Densities, ExampleLayers) == 53.6
  {
    StandardDensities(policy, "PET");
    StandardDensities(policy, "LDPE");
    assert ExampleLayers[1..] == [Layer("LDPE", 40.0)];
    assert ExampleLayers[1..][1..] == [];
  }

  /** The example opens to 320 by 220 mm, 0.0704 square metres, on either engine. */
  lemma ExampleGeometry()
    ensures PouchOpenSize(Example) == OpenSize(320.0, 220.0)
    ensures ServerPouchOpenSize(Example) == OpenSize(320.0, 220.0)
    ensures AreaSqm(OpenSize(320.0, 220.0)) == 0.0704
  {
  }

  /**
    The client's figures: 60.1 g per square metre (53.6 of film, 2.5 of
    adhesive, 3 of colour ink and 1 of white), 4.23104 kg per thousand
    pouches, 27000 of cylinders, 104 per kg of conversion (27 printing, 17
    lamination, 20 pouching, 17 overheads and slitting, 8 labour, 15
    machine), and a selling price above cost.
   */
  lemma ExampleClientQuote()
    ensures var c := ClientEngine.CalculateCost(Example, DefaultRates);
      && c.totalGsm == 60.1 && c.weightPer1000PouchesKg == 4.23104
      && c.cylinderCostTotal == 27000.0 && c.conversionCostPerKg == 104.0
      && c.sellingPricePer1000 > c.costPer1000Pouches
  {
    ExampleGeometry();
    ExampleFilmGsm(Falsy);
    assert Valid(Example);
    assert ServerPrintingCostPerKg(None, 6) == 27.0;
    assert ServerLaminationCostPerKg(None, 2) == 17.0;
    ClientEngine.QuoteBounds(Example, DefaultRates);
  }

  /**
    The server's figures at the example's margin: the same weight and
    cylinders, 81 per kg of conversion (no labour or machine charge), and a
    selling price above cost.
   */
  lemma ExampleServerQuote()
    ensures var s := ServerEngine.CalculateCost(Example, DefaultRates, Some(Example.marginPercent));
      && s.totalGsm == 60.1 && s.weightPer1000PouchesKg == 4.23104
      && s.cylinderCostTotal == 27000.0 && s.conversionCostPerKg == 81.0
      && s.sellingPricePer1000 > s.costPer1000Pouches
  {
    ExampleGeometry();
    ExampleFilmGsm(Absent);
    assert Valid(Example);
    assert PrintingCostPerKg(None, 6) == 27.0;
    assert LaminationCostPerKg(None, 2) == 17.0;
    ServerEngine.QuoteBounds(Example, DefaultRates, Some(Example.marginPercent));
  }
}
