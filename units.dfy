/** The units used by the model (basic/Units.py). */
module Units {

  /**
   * One constructor per distinct unit.  In the source `kg_per_norm_cubic_meter`
   * has the same value 'kg/m³' as `kg_per_cubic_meter` and is therefore an alias
   * of it, not a unit of its own.
   */
  datatype Unit =
    | Kg | KW | M | CubicMeter | NormCubicMeter | KWh | K | Pa
    | KWhPerKg | GPerMol | KgPerCubicMeter | Dimensionless
    | EuroPerYear | EuroPerKW | EuroPerKg | EuroPerKWh | EuroPerNormCubicMeter

  /** `Unit.kg_per_norm_cubic_meter`. */
  const KgPerNormCubicMeter: Unit := KgPerCubicMeter

  /** The string value of each unit. */
  function Symbol(u: Unit): string
  {
    match u
    case Kg => "kg"
    case KW => "kW"
    case M => "m"
    case CubicMeter => "m³"
    case NormCubicMeter => "Nm³"
    case KWh => "kWh"
    case K => "K"
    case Pa => "Pa"
    case KWhPerKg => "kWh/kg"
    case GPerMol => "g/mol"
    case KgPerCubicMeter => "kg/m³"
    case Dimensionless => ""
    case EuroPerYear => "€/a"
    case EuroPerKW => "€/kW"
    case EuroPerKg => "€/kg"
    case EuroPerKWh => "€/kWh"
    case EuroPerNormCubicMeter => "€/Nm³"
  }

  /** Distinct units have distinct strings, so a unit is identified by its string value. */
  lemma SymbolInjective(u: Unit, v: Unit)
    requires Symbol(u) == Symbol(v)
    ensures u == v
  {
  }
}
