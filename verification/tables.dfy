/**
  Material tables, costing constants and the two lookup-with-fallback
  policies used by the cost engines.
 */
module Tables {

  /** Default material rates (currency per kg), the table the client calls with. */
  const DefaultRates: map<string, real> := map[
    "PET" := 110.0, "BOPP" := 130.0, "MET_PET" := 120.0, "MET_BOPP" := 140.0,
    "LDPE" := 105.0, "CPP" := 115.0, "AL_FOIL" := 400.0, "NYLON" := 250.0,
    "PAPER" := 80.0]

  /** Film densities (g/cm3); thickness in microns times density gives GSM. */
  const Densities: map<string, real> := map[
    "PET" := 1.4, "BOPP" := 0.905, "MET_PET" := 1.4, "MET_BOPP" := 0.905,
    "LDPE" := 0.92, "CPP" := 0.90, "AL_FOIL" := 2.7, "NYLON" := 1.15,
    "PAPER" := 0.8]

  /** The nine standard materials. */
  const KnownMaterials: set<string> :=
    {"PET", "BOPP", "MET_PET", "MET_BOPP", "LDPE", "CPP", "AL_FOIL", "NYLON", "PAPER"}

  const DEFAULT_RATE: real := 100.0
  const DEFAULT_DENSITY: real := 1.0

  const ADHESIVE_GSM: real := 2.5
  const ADHESIVE_RATE: real := 250.0

  const INK_GSM_PER_COLOR: real := 0.5
  const INK_RATE: real := 300.0
  /** Extra ink weight (white base / primer) whenever at least one colour is printed. */
  const WHITE_BASE_INK_GSM: real := 1.0

  const PRINTING_COST_PER_KG_BASE: real := 15.0
  const PRINTING_COST_PER_KG_PER_COLOR: real := 2.0

  const LAMINATION_COST_PER_KG_BASE: real := 12.0
  const LAMINATION_COST_PER_LAYER: real := 5.0

  const POUCHING_COST_PER_KG: real := 20.0
  const SLITTING_COST_PER_KG: real := 5.0
  const OVERHEADS_PER_KG: real := 12.0

  /** Adhesive cost per square metre of one lamination interface. */
  const ADHESIVE_COST_PER_SQM: real := (ADHESIVE_GSM / 1000.0) * ADHESIVE_RATE

  /**
    How a missing table entry is replaced.
    Falsy: the client's `table[key] || default`, which also replaces a stored 0.
    Absent: the server's `table.get(key, default)`, which replaces only a missing key.
   */
  datatype Fallback = Falsy | Absent

  /** Looks `key` up in `table`, falling back to `default` as `policy` says. */
  function Lookup(policy: Fallback, table: map<string, real>, key: string, default: real): (v: real)
    ensures key !in table ==> v == default
    ensures key in table && table[key] != 0.0 ==> v == table[key]
    ensures key in table && table[key] == 0.0 && policy == Absent ==> v == 0.0
    ensures key in table && table[key] == 0.0 && policy == Falsy ==> v == default
  {
    if key !in table then default
    else match policy
      case Falsy => if table[key] != 0.0 then table[key] else default
      case Absent => table[key]
  }

  /** The two policies differ exactly on a stored zero with a non-zero default. */
  lemma PoliciesAgreeIff(table: map<string, real>, key: string, default: real)
    ensures Lookup(Falsy, table, key, default) == Lookup(Absent, table, key, default)
        <==> !(key in table && table[key] == 0.0 && default != 0.0)
  {
  }

  /** A stored zero rate is costed at 100 by the client and at 0 by the server. */
  lemma ZeroRateDiverges(rates: map<string, real>, m: string)
    requires m in rates && rates[m] == 0.0
    ensures Lookup(Falsy, rates, m, DEFAULT_RATE) == 100.0
    ensures Lookup(Absent, rates, m, DEFAULT_RATE) == 0.0
  {
  }

  /** The density of a material under `policy`, 1.0 when the table has none. */
  function DensityOf(policy: Fallback, densities: map<string, real>, material: string): (d: real)
    ensures material !in densities ==> d == 1.0
    ensures policy == Absent && material in densities ==> d == densities[material]
    ensures policy == Falsy && material in densities ==> d == (if densities[material] == 0.0 then 1.0 else densities[material])
  {
    Lookup(policy, densities, material, DEFAULT_DENSITY)
  }

  /** No entry of the density table is zero or negative. */
  predicate PositiveTable(table: map<string, real>)
  {
    forall m :: m in table ==> table[m] > 0.0
  }

  /**
    A layer's density from the standard table: the table value for the nine
    standard materials, 1.0 for any other name, positive either way.
   */
  lemma StandardDensities(policy: Fallback, material: string)
    ensures PositiveTable(Densities)
    ensures material in KnownMaterials ==> DensityOf(policy, Densities, material) == Densities[material]
    ensures material !in KnownMaterials ==> DensityOf(policy, Densities, material) == 1.0
  {
  }

  /** Over a table with no zero entry, both policies resolve every material alike. */
  lemma PolicyIrrelevantOnPositiveTable(table: map<string, real>, key: string, default: real)
    requires PositiveTable(table)
    ensures Lookup(Falsy, table, key, default) == Lookup(Absent, table, key, default)
  {
    PoliciesAgreeIff(table, key, default);
  }

  /** The rate of a material under `policy`, 100 when the table has none. */
  function RateOf(policy: Fallback, rates: map<string, real>, material: string): (r: real)
    ensures material !in rates ==> r == 100.0
    ensures policy == Absent && material in rates ==> r == rates[material]
    ensures policy == Falsy && material in rates ==> r == (if rates[material] == 0.0 then 100.0 else rates[material])
  {
    Lookup(policy, rates, material, DEFAULT_RATE)
  }
}
