/** Stream directions, commodities and their canonical units (basic/Streamtypes.py). */
module Streamtypes {
  import opened Units
  import opened Wrappers

  /** `StreamDirection`: the direction a port lets a stream flow, seen from its component. */
  datatype StreamDirection = StreamIntoComponent | StreamOutOfComponent | StreamBidirectional
  {
    /** The enum value: into = -1, out = 1, bidirectional = 0. */
    function Value(): (v: int)
      ensures -1 <= v <= 1
      ensures v == 0 <==> this == StreamBidirectional
      ensures v < 0 <==> this == StreamIntoComponent
    {
      match this
      case StreamIntoComponent => -1
      case StreamOutOfComponent => 1
      case StreamBidirectional => 0
    }
  }

  /** The direction whose value is the given sign. */
  function DirectionOfSign(s: int): (d: StreamDirection)
    requires -1 <= s <= 1
    ensures d.Value() == s
  {
    if s < 0 then StreamIntoComponent else if s > 0 then StreamOutOfComponent else StreamBidirectional
  }

  /** `StreamTypes`. */
  datatype StreamTypes = Power | Energy | Mass

  /** `StreamMass` members. */
  datatype StreamMass =
    | HYDROGEN | WATER | OXYGEN | NITROGEN | CO2 | METHANE | ETHANE | PROPANE | BUTANE
    | PENTANE | HEXANE | AIR | METHANE_10 | MIX_GAS | NG_RUSSIA_H

  /** `StreamEnergy` members. */
  datatype StreamEnergy = ELECTRIC | HEAT

  /** A port type is a member of one of the two commodity enums. */
  datatype PortType = MassType(mass: StreamMass) | EnergyType(energy: StreamEnergy)

  /** The string value (and member name) of each commodity. */
  function Name(t: PortType): string
  {
    match t
    case EnergyType(ELECTRIC) => "ELECTRIC"
    case EnergyType(HEAT) => "HEAT"
    case MassType(m) =>
      match m
      case HYDROGEN => "HYDROGEN"
      case WATER => "WATER"
      case OXYGEN => "OXYGEN"
      case NITROGEN => "NITROGEN"
      case CO2 => "CO2"
      case METHANE => "METHANE"
      case ETHANE => "ETHANE"
      case PROPANE => "PROPANE"
      case BUTANE => "BUTANE"
      case PENTANE => "PENTANE"
      case HEXANE => "HEXANE"
      case AIR => "AIR"
      case METHANE_10 => "METHANE_10"
      case MIX_GAS => "MIX_GAS"
      case NG_RUSSIA_H => "NG_RUSSIA_H"
  }

  /** No mass commodity shares its name with an energy commodity, and names identify commodities. */
  lemma NamesDisjoint(a: PortType, b: PortType)
    ensures Name(a) == Name(b) ==> a == b
    ensures a.MassType? && b.EnergyType? ==> Name(a) != Name(b)
  {
  }

  /** `stream_units`: the canonical unit of the listed commodities. */
  const StreamUnits: map<PortType, Unit> := map[
    EnergyType(ELECTRIC) := KW, EnergyType(HEAT) := KW,
    MassType(HYDROGEN) := Kg, MassType(WATER) := Kg, MassType(OXYGEN) := Kg, MassType(CO2) := Kg]

  /** `stream_types`. */
  const StreamTypesTable: map<PortType, StreamTypes> := map[
    EnergyType(ELECTRIC) := Power, EnergyType(HEAT) := Power,
    MassType(HYDROGEN) := Mass, MassType(WATER) := Mass, MassType(OXYGEN) := Mass, MassType(CO2) := Mass]

  /** `get_stream_unit`: `dict.get`, so an unlisted commodity gives None. */
  function GetStreamUnit(t: PortType): (u: Option<Unit>)
    ensures u.Some? <==> t in StreamUnits
  {
    if t in StreamUnits then Some(StreamUnits[t]) else None
  }

  /** `get_stream_type`. */
  function GetStreamType(t: PortType): (k: Option<StreamTypes>)
    ensures k.Some? <==> t in StreamTypesTable
  {
    if t in StreamTypesTable then Some(StreamTypesTable[t]) else None
  }

  /**
   * The two tables agree: a commodity has a unit exactly when it has a stream
   * type; energy commodities are power in kW, the listed mass commodities mass in kg.
   */
  lemma StreamTablesAgree(t: PortType)
    ensures GetStreamUnit(t).Some? <==> GetStreamType(t).Some?
    ensures GetStreamType(t) == Some(Power) <==> GetStreamUnit(t) == Some(KW)
    ensures GetStreamType(t) == Some(Mass) <==> GetStreamUnit(t) == Some(Kg)
    ensures t.EnergyType? ==> GetStreamUnit(t) == Some(KW) && GetStreamType(t) == Some(Power)
    ensures t.MassType? && t.mass !in {HYDROGEN, WATER, OXYGEN, CO2} ==> GetStreamUnit(t) == None && GetStreamType(t) == None
  {
    match t
    case EnergyType(e) => assert e == ELECTRIC || e == HEAT;
    case MassType(m) =>
  }
}
