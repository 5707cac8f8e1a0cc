/** Physical and economic quantities and their preferred units (basic/Quantities.py). */
module Quantities {
  import opened Units
  import opened Wrappers

  datatype EconomicalQuantity = PriceDevFactor | MediaCosts

  datatype PhysicalQuantity =
    | Stream | MassStream | PowerStream | Pressure | Temperature | MassFraction
    | HigherHeatingValue | LowerHeatingValue | MolarMass | NormDensity

  datatype Quantity = Physical(p: PhysicalQuantity) | Economical(e: EconomicalQuantity)

  /** A table entry is one unit, or for media costs a triple of alternative currency units. */
  datatype QuantityUnit = Single(unit: Unit) | Triple(u1: Unit, u2: Unit, u3: Unit)

  /** `economical_quantity_units`. */
  const EconomicalQuantityUnits: map<EconomicalQuantity, QuantityUnit> :=
    map[MediaCosts := Triple(EuroPerKg, EuroPerKWh, EuroPerNormCubicMeter)]

  /** `physical_quantity_units`. */
  const PhysicalQuantityUnits: map<PhysicalQuantity, Unit> := map[
    Pressure := Pa, Temperature := K, MassStream := Kg, PowerStream := KW,
    HigherHeatingValue := KWhPerKg, LowerHeatingValue := KWhPerKg,
    MolarMass := GPerMol, NormDensity := KgPerNormCubicMeter]

  /** `get_unit_of_quantity`: the physical table first, then the economic one, else None (after a warning). */
  function GetUnitOfQuantity(q: Quantity): (u: Option<QuantityUnit>)
    ensures u.Some? <==> (q.Physical? && q.p in PhysicalQuantityUnits) || (q.Economical? && q.e in EconomicalQuantityUnits)
    ensures q.Physical? && q.p in PhysicalQuantityUnits ==> u == Some(Single(PhysicalQuantityUnits[q.p]))
  {
    if q.Physical? && q.p in PhysicalQuantityUnits then Some(Single(PhysicalQuantityUnits[q.p]))
    else if q.Economical? && q.e in EconomicalQuantityUnits then Some(EconomicalQuantityUnits[q.e])
    else None
  }

  lemma UnitsOfQuantities()
    ensures GetUnitOfQuantity(Physical(Pressure)) == Some(Single(Pa))
    ensures GetUnitOfQuantity(Physical(Temperature)) == Some(Single(K))
    ensures GetUnitOfQuantity(Physical(MassStream)) == Some(Single(Kg))
    ensures GetUnitOfQuantity(Physical(PowerStream)) == Some(Single(KW))
    ensures GetUnitOfQuantity(Economical(MediaCosts)) == Some(Triple(EuroPerKg, EuroPerKWh, EuroPerNormCubicMeter))
    ensures GetUnitOfQuantity(Physical(Stream)) == None
    ensures GetUnitOfQuantity(Physical(MassFraction)) == None
    ensures GetUnitOfQuantity(Economical(PriceDevFactor)) == None
  {
  }

  /** Every unit a quantity can have is a single unit, except the media-cost triple of currency units. */
  lemma TripleOnlyForMediaCosts(q: Quantity)
    ensures GetUnitOfQuantity(q).Some? && GetUnitOfQuantity(q).value.Triple? <==> q == Economical(MediaCosts)
  {
  }
}
