/**
 * The units the flow balance drives (modules/Source.py, modules/Consumer.py,
 * modules/Grid.py, modules/Storage.py, modules/Storage_Gas.py): their
 * constructors, which add the unit's ports and bound them, and their `run`
 * rules, which set the stream of one of their ports from what a branch asks.
 */
module UnitRules {
  import opened Wrappers
  import opened CustomErrors
  import opened ExtReal
  import opened RangeLimits
  import opened Streamtypes
  import opened Units
  import opened Quantities
  import opened Dicts
  import opened Misc
  import opened Ports
  import opened Counters
  import opened Components
  import opened Storages
  import opened GenericUnits

  // ---------------------------------------------------------------------------
  // Construction (Source.py:36-45, Consumer.py:33-43, Grid.py:31-44)
  // ---------------------------------------------------------------------------

  /** A source's port limits: (0, size), or (0, ∞) without a size. */
  function SourceLimits(size: Option<real>): Limits
  {
    (Fin(0.0), UpperBound(size))
  }

  /** A consumer's port limits: (0, -size), or (0, -∞) without a size. */
  function ConsumerLimits(size: Option<real>): Limits
  {
    (Fin(0.0), if size.Some? then Fin(-size.value) else NegInf)
  }

  /** A grid's port limits: (-size, size), or (-∞, ∞) without a size. */
  function GridLimits(size: Option<real>): Limits
  {
    if size.Some? then (Fin(-size.value), Fin(size.value)) else (NegInf, PosInf)
  }

  /**
   * The constructor shared by the single-port units: the component, its one
   * port P00 of the unit's stream type, and `set_stream_limit` on that port.
   * A mass type without a valid fraction table stops the construction.
   */
  method NewSinglePortUnit(kind: ComponentKind, streamType: PortType, size: Option<real>, active: bool,
                           fixedStatus: bool, sign: StreamDirection, unit: Option<Unit>, limits: Limits,
                           counters: IdCounters, table: FractionTable) returns (r: Result<Component>)
    modifies counters`componentCount
    ensures counters.componentCount == old(counters.componentCount) + 1
    ensures streamType.EnergyType? ==> r.Ok?
    ensures r.Err? ==> r.error == KeyError || r.error == PortMassError
    ensures r.Ok? ==> fresh(r.value) && r.value.Valid() && r.value.componentId == CreateId('C', counters.componentCount)
    ensures r.Ok? ==> && r.value.kind == kind && r.value.streamType == streamType
                      && r.value.size == size && r.value.active == active
                      && r.value.status == 0 && r.value.controlledPort == None && r.value.loopControl == None
    ensures r.Ok? ==> |r.value.ports| == 1 && fresh(r.value.ports[0])
    ensures r.Ok? ==> var p := r.value.ports[0];
                      && p.results.portId == CreateId('P', 0) && p.results.sign == sign
                      && p.fixedStatus == fixedStatus && p.stream == None
                      && p.streamLimits == Some(LimitOrderAsWritten(limits))
                      && p.valueProfiles == map[] && p.binaryProfile == map[]
    ensures r.Ok? && (unit.None? || Some(unit.value) == GetStreamUnit(streamType)) ==>
              r.value.ports[0].results.portType == Some(streamType)
  {
    var id := counters.NextComponentId();
    var c := new Component(kind, streamType, size, active, id);
    var added := c.AddPort(streamType, fixedStatus, sign, unit, table);
    if added.Err? {
      return Err(added.error);
    }
    added.value.SetStreamLimit(limits);
    r := Ok(c);
  }

  /** `Source.__init__`: one port out of the component, fixed exactly when the source is active. */
  method NewSource(streamType: PortType, size: Option<real>, active: bool, counters: IdCounters,
                   table: FractionTable) returns (r: Result<Component>)
    modifies counters`componentCount
    ensures counters.componentCount == old(counters.componentCount) + 1
    ensures streamType.EnergyType? ==> r.Ok?
    ensures r.Err? ==> r.error == KeyError || r.error == PortMassError
    ensures r.Ok? ==> fresh(r.value) && r.value.Valid() && r.value.kind == SourceUnit && r.value.active == active
    ensures r.Ok? ==> |r.value.ports| == 1 && fresh(r.value.ports[0])
    ensures r.Ok? ==> var p := r.value.ports[0];
                      && p.results.sign == StreamOutOfComponent && p.fixedStatus == active
                      && p.results.portType == Some(streamType)
                      && p.streamLimits == Some(LimitOrderAsWritten(SourceLimits(size)))
                      && p.valueProfiles == map[] && p.binaryProfile == map[]
  {
    r := NewSinglePortUnit(SourceUnit, streamType, size, active, active, StreamOutOfComponent, None,
                           SourceLimits(size), counters, table);
  }

  /** `Consumer.__init__`: one port into the component, fixed exactly when the consumer is active. */
  method NewConsumer(streamType: PortType, size: Option<real>, active: bool, counters: IdCounters,
                     table: FractionTable) returns (r: Result<Component>)
    modifies counters`componentCount
    ensures counters.componentCount == old(counters.componentCount) + 1
    ensures streamType.EnergyType? ==> r.Ok?
    ensures r.Err? ==> r.error == KeyError || r.error == PortMassError
    ensures r.Ok? ==> fresh(r.value) && r.value.Valid() && r.value.kind == ConsumerUnit && r.value.active == active
    ensures r.Ok? ==> |r.value.ports| == 1 && fresh(r.value.ports[0])
    ensures r.Ok? ==> var p := r.value.ports[0];
                      && p.results.sign == StreamIntoComponent && p.fixedStatus == active
                      && p.results.portType == Some(streamType)
                      && p.streamLimits == Some(LimitOrderAsWritten(ConsumerLimits(size)))
                      && p.valueProfiles == map[] && p.binaryProfile == map[]
  {
    r := NewSinglePortUnit(ConsumerUnit, streamType, size, active, active, StreamIntoComponent, None,
                           ConsumerLimits(size), counters, table);
  }

  /** `Grid.__init__`: one port of the given sign and unit that is never fixed. */
  method NewGrid(streamType: PortType, size: Option<real>, active: bool, sign: StreamDirection, unit: Option<Unit>,
                 counters: IdCounters, table: FractionTable) returns (r: Result<Component>)
    modifies counters`componentCount
    ensures counters.componentCount == old(counters.componentCount) + 1
    ensures streamType.EnergyType? ==> r.Ok?
    ensures r.Err? ==> r.error == KeyError || r.error == PortMassError
    ensures r.Ok? ==> fresh(r.value) && r.value.Valid() && r.value.kind == GridUnit && r.value.active == active
    ensures r.Ok? ==> |r.value.ports| == 1 && fresh(r.value.ports[0])
    ensures r.Ok? ==> var p := r.value.ports[0];
                      && p.results.sign == sign && !p.fixedStatus
                      && p.streamLimits == Some(LimitOrderAsWritten(GridLimits(size)))
                      && p.valueProfiles == map[] && p.binaryProfile == map[]
    ensures r.Ok? && (unit.None? || Some(unit.value) == GetStreamUnit(streamType)) ==>
              r.value.ports[0].results.portType == Some(streamType)
  {
    r := NewSinglePortUnit(GridUnit, streamType, size, active, false, sign, unit, GridLimits(size), counters, table);
  }

  /** The two ports of a gas storage, in the order `Storage_Gas.__init__` adds them: into, then out of the storage. */
  method AddStoragePorts(c: Component, portType: PortType, fixedStatus: bool, table: FractionTable) returns (r: Result<()>)
    requires c.Valid() && c.ports == [] && c.numberOfPorts == 0
    requires portType.MassType?
    modifies c`numberOfPorts, c`ports, c`portTypes
    ensures r.Err? ==> r.error == KeyError || r.error == PortMassError
    ensures r.Ok? ==> && c.Valid() && |c.ports| == 2 && fresh(c.ports[0]) && fresh(c.ports[1])
                      && c.ports[0].results.sign == StreamIntoComponent
                      && c.ports[1].results.sign == StreamOutOfComponent
                      && c.ports[0].fixedStatus == fixedStatus && c.ports[1].fixedStatus == fixedStatus
                      && c.ports[0].results.portType == Some(portType)
                      && c.ports[1].results.portType == Some(portType)
  {
    var into := c.AddPort(portType, fixedStatus, StreamIntoComponent, None, table);
    if into.Err? {
      return Err(into.error);
    }
    var p0 := into.value;
    assert c.ports == [p0];
    var out := c.AddPort(portType, fixedStatus, StreamOutOfComponent, None, table);
    if out.Err? {
      return Err(out.error);
    }
    assert c.ports == [p0, out.value];
    r := Ok(());
  }

  /**
   * `Storage.__init__` and `Storage_Gas.__init__` without the pressure,
   * volume and compression parameters: charge power, efficiency and the
   * initial level (0 without one) in all three buffers, then a port into and
   * a port out of the storage, both fixed exactly when the storage is active.
   */
  method NewStorageGas(streamType: StreamMass, size: Option<real>, chargePower: Option<real>, active: bool,
                       initialValue: Option<real>, efficiency: real, counters: IdCounters,
                       table: FractionTable) returns (r: Result<Component>)
    modifies counters`componentCount
    ensures counters.componentCount == old(counters.componentCount) + 1
    ensures r.Err? ==> r.error == KeyError || r.error == PortMassError
    ensures r.Ok? ==> fresh(r.value) && r.value.Valid() && r.value.kind == StorageGasUnit && r.value.active == active
    ensures r.Ok? ==> r.value.componentId == CreateId('C', counters.componentCount)
    ensures r.Ok? ==> && r.value.chargePower == chargePower && r.value.efficiency == efficiency
                      && var init := if initialValue.Some? then initialValue.value else 0.0;
                         r.value.bufferInit == init && r.value.buffers == Buffers(init, init, 0)
    ensures r.Ok? ==> && r.value.storageLevel == [] && !r.value.massPortsSet
                      && |r.value.ports| == 2 && fresh(r.value.ports[0]) && fresh(r.value.ports[1])
    ensures r.Ok? ==> && r.value.ports[0].results.sign == StreamIntoComponent
                      && r.value.ports[1].results.sign == StreamOutOfComponent
                      && r.value.ports[0].fixedStatus == active && r.value.ports[1].fixedStatus == active
                      && r.value.ports[0].results.portType == Some(MassType(streamType))
                      && r.value.ports[1].results.portType == Some(MassType(streamType))
  {
    var id := counters.NextComponentId();
    var c := new Component(StorageGasUnit, MassType(streamType), size, active, id);
    var init := if initialValue.Some? then initialValue.value else 0.0;
    SetStorageFields(c, chargePower, efficiency, init);
    var added := AddStoragePorts(c, MassType(streamType), active, table);
    r := if added.Err? then Err(added.error) else Ok(c);
  }

  /** The attributes `Storage.__init__` sets: charge power, efficiency and the initial level in all three buffers. */
  method SetStorageFields(c: Component, chargePower: Option<real>, efficiency: real, init: real)
    modifies c`chargePower, c`efficiency, c`bufferInit, c`buffers
    ensures c.chargePower == chargePower && c.efficiency == efficiency
    ensures c.bufferInit == init && c.buffers == Buffers(init, init, 0)
    ensures old(c.Valid()) ==> c.Valid()
  {
    c.chargePower, c.efficiency := chargePower, efficiency;
    c.bufferInit, c.buffers := init, Buffers(init, init, 0);
  }

  // ---------------------------------------------------------------------------
  // The run rule of a source, consumer or grid (Source.py:58-90,
  // Consumer.py:46-80, Grid.py:46-76)
  // ---------------------------------------------------------------------------

  /** How a run sets the stream of the port it acts on: to a value through `set_stream`, or from the profile. */
  datatype StreamOp = SetTo(value: Ext) | FromProfile

  /** The position of the port a run acts on, and how. */
  datatype RunStep = RunStep(at: nat, op: StreamOp)

  /**
   * The rule of one run, on the values it reads: the controlled port (the
   * port a profile was attached to) or else the branch's port found by id,
   * the loop-control override, and the limits and profile values of each
   * port at this step.
   *  - Under an override, the override value goes on the override port.
   *  - An active unit sets the controlled port from its stream profile, or
   *    else to its second limit (0 without limits); a grid whose port has no
   *    profile of its direction fails on the membership test (TypeError).
   *  - A passive source sets `get_stream_limited_value` of the request on
   *    the controlled port (IndexError without limits).
   *  - A passive consumer or grid sets the request on the branch's port.
   */
  function UnitStep(kind: ComponentKind, active: bool, controlled: Option<nat>, byId: Result<nat>,
                    loopControl: Option<(nat, real)>, requested: real, limits: seq<Option<Limits>>,
                    profiles: seq<Result<Option<map<PhysicalQuantity, real>>>>): (r: Result<RunStep>)
    requires kind != StorageGasUnit && |limits| == |profiles|
    requires controlled.Some? ==> controlled.value < |limits|
    requires byId.Ok? ==> byId.value < |limits|
    requires loopControl.Some? ==> loopControl.value.0 < |limits|
    ensures r.Ok? ==> r.value.at < |limits|
  {
    var port :- if controlled.Some? then Ok(controlled.value) else byId;
    if loopControl.Some? then Ok(RunStep(loopControl.value.0, SetTo(Fin(loopControl.value.1))))
    else if active then
      if kind == GridUnit && profiles[port] == Ok(None) then Err(TypeError)
      else
        var values :- profiles[port];
        if values.None? || Stream !in values.value then
          Ok(RunStep(port, SetTo(if limits[port].None? then Fin(0.0) else limits[port].value.1)))
        else Ok(RunStep(port, FromProfile))
    else if kind == SourceUnit then
      if limits[port].None? then Err(IndexError)
      else Ok(RunStep(port, SetTo(StreamLimited(Fin(requested), limits[port].value))))
    else
      var at :- byId;
      Ok(RunStep(at, SetTo(Fin(requested))))
  }

  /** Without a controlled port the branch's port must exist: `get_port_by_id` fails first. */
  lemma StepNeedsAPort(kind: ComponentKind, active: bool, byId: Result<nat>, loopControl: Option<(nat, real)>,
                       requested: real, limits: seq<Option<Limits>>,
                       profiles: seq<Result<Option<map<PhysicalQuantity, real>>>>)
    requires kind != StorageGasUnit && |limits| == |profiles| && byId.Err?
    requires loopControl.Some? ==> loopControl.value.0 < |limits|
    ensures UnitStep(kind, active, None, byId, loopControl, requested, limits, profiles) == Err(byId.error)
  {
  }

  /** An override puts its value on its port, whatever the unit and whether it is active. */
  lemma OverrideDecidesStep(kind: ComponentKind, active: bool, controlled: Option<nat>, byId: Result<nat>,
                            lcPort: nat, lcValue: real, requested: real, limits: seq<Option<Limits>>,
                            profiles: seq<Result<Option<map<PhysicalQuantity, real>>>>)
    requires kind != StorageGasUnit && |limits| == |profiles| && lcPort < |limits|
    requires controlled.Some? ==> controlled.value < |limits|
    requires byId.Ok? ==> byId.value < |limits|
    requires controlled.Some? || byId.Ok?
    ensures UnitStep(kind, active, controlled, byId, Some((lcPort, lcValue)), requested, limits, profiles)
            == Ok(RunStep(lcPort, SetTo(Fin(lcValue))))
  {
  }

  /**
   * An active unit without an override ignores the branch's request: it
   * follows its stream profile, or else runs at its second limit (0 without
   * limits), on the controlled port.
   */
  lemma ActiveStepIgnoresRequest(kind: ComponentKind, controlled: nat, byId: Result<nat>, requested: real,
                                 other: real, limits: seq<Option<Limits>>,
                                 profiles: seq<Result<Option<map<PhysicalQuantity, real>>>>)
    requires kind != StorageGasUnit && |limits| == |profiles| && controlled < |limits|
    requires byId.Ok? ==> byId.value < |limits|
    ensures UnitStep(kind, true, Some(controlled), byId, None, requested, limits, profiles)
            == UnitStep(kind, true, Some(controlled), byId, None, other, limits, profiles)
    ensures var r := UnitStep(kind, true, Some(controlled), byId, None, requested, limits, profiles);
            && (r.Ok? ==> r.value.at == controlled)
            && ((profiles[controlled].Ok? && profiles[controlled].value.Some?
                 && Stream in profiles[controlled].value.value) ==> r == Ok(RunStep(controlled, FromProfile)))
            && (profiles[controlled] == Ok(None) && kind != GridUnit ==>
                  r == Ok(RunStep(controlled, SetTo(if limits[controlled].None? then Fin(0.0)
                                                    else limits[controlled].value.1))))
  {
  }

  /**
   * A passive source without an override sets its port to the request as
   * `get_stream_limited_value` shapes it: 0 or a value inside the port's
   * limits, and a request inside the limits above the minimum load
   * unchanged; a port without limits stops the run (IndexError).
   */
  lemma PassiveSourceStaysWithinLimits(controlled: nat, byId: Result<nat>, requested: real,
                                       limits: seq<Option<Limits>>,
                                       profiles: seq<Result<Option<map<PhysicalQuantity, real>>>>)
    requires |limits| == |profiles| && controlled < |limits|
    requires byId.Ok? ==> byId.value < |limits|
    ensures var r := UnitStep(SourceUnit, false, Some(controlled), byId, None, requested, limits, profiles);
            && (r.Ok? <==> limits[controlled].Some?)
            && (r.Err? ==> r.error == IndexError)
            && (r.Ok? ==> var l := limits[controlled].value;
                          && r.value.at == controlled && r.value.op.SetTo?
                          && (r.value.op.value == Fin(0.0)
                              || (Le(Lo(l), r.value.op.value) && Le(r.value.op.value, Hi(l))))
                          && ((Le(Lo(l), Fin(requested)) && Le(Fin(requested), Hi(l))
                               && !BelowMinimumLoad(Fin(requested), l)) ==> r.value.op.value == Fin(requested)))
  {
    var r := UnitStep(SourceUnit, false, Some(controlled), byId, None, requested, limits, profiles);
    if r.Ok? {
      var l := limits[controlled].value;
      if Le(Lo(l), Fin(requested)) && Le(Fin(requested), Hi(l)) && !BelowMinimumLoad(Fin(requested), l) {
        StreamLimitedKeepsAdmissibleValues(Fin(requested), l);
      }
    }
  }

  /**
   * A passive consumer or grid without an override passes the request
   * unchanged to the port the branch names, whichever port is controlled.
   */
  lemma PassiveSinkPassesRequest(kind: ComponentKind, controlled: Option<nat>, byId: Result<nat>, requested: real,
                                 limits: seq<Option<Limits>>,
                                 profiles: seq<Result<Option<map<PhysicalQuantity, real>>>>)
    requires (kind == ConsumerUnit || kind == GridUnit) && |limits| == |profiles|
    requires controlled.Some? ==> controlled.value < |limits|
    requires byId.Ok? ==> byId.value < |limits|
    ensures UnitStep(kind, false, controlled, byId, None, requested, limits, profiles)
            == if byId.Ok? then Ok(RunStep(byId.value, SetTo(Fin(requested)))) else Err(byId.error)
  {
  }

  /** `get_port_by_id` as a position: KeyError when no port carries the id. */
  function IdPosition(ps: seq<Port>, id: string): (r: Result<nat>)
    ensures r.Ok? <==> HasId(ps, id)
    ensures r.Err? ==> r.error == KeyError
    ensures r.Ok? ==> r.value < |ps| && ps[r.value].results.portId == id
  {
    var p :- FindPort(ps, id);
    Ok(PositionOf(ps, p))
  }

  /** The stored limits of each port. */
  function LimitsOf(ps: seq<Port>): (r: seq<Option<Limits>>)
    reads ps`streamLimits
    ensures |r| == |ps| && forall i :: 0 <= i < |ps| ==> r[i] == ps[i].streamLimits
  {
    if ps == [] then [] else [ps[0].streamLimits] + LimitsOf(ps[1..])
  }

  /** `get_profile_values(runcount)` of each port. */
  function ProfilesOf(ps: seq<Port>, runcount: nat): (r: seq<Result<Option<map<PhysicalQuantity, real>>>>)
    reads ps`valueProfiles, set p | p in ps :: p.results
    ensures |r| == |ps| && forall i :: 0 <= i < |ps| ==> r[i] == ps[i].GetProfileValues(runcount, None)
  {
    if ps == [] then [] else [ps[0].GetProfileValues(runcount, None)] + ProfilesOf(ps[1..], runcount)
  }

  /** The rule applied to a component's state. */
  function StepOf(c: Component, portId: string, requested: real, runcount: nat): (r: Result<RunStep>)
    requires c.Valid() && c.kind != StorageGasUnit
    reads c`numberOfPorts, c`ports, c`portTypes, c`controlledPort, c`loopControl, c`massIn, c`massOut, c`active
    reads c.ports`streamLimits, c.ports`valueProfiles, set p | p in c.ports :: p.results
    ensures r.Ok? ==> r.value.at < |c.ports|
  {
    UnitStep(c.kind, c.active, c.controlledPort, IdPosition(c.ports, portId), c.loopControl, requested,
             LimitsOf(c.ports), ProfilesOf(c.ports, runcount))
  }

  /** The stream a step leaves on its port, or the error setting it stops with. */
  function Outcome(c: Component, step: Result<RunStep>, runcount: nat): (r: Result<real>)
    requires step.Ok? ==> step.value.at < |c.ports|
    reads c`ports, c.ports`streamLimits, c.ports`binaryProfile, c.ports`valueProfiles, set p | p in c.ports :: p.results
    ensures step.Err? ==> r == Err(step.error)
  {
    var s :- step;
    match s.op
    case SetTo(v) => c.ports[s.at].StreamOutcome(v, runcount)
    case FromProfile => c.ports[s.at].ProfileOutcome(runcount)
  }

  /**
   * The write a run ends with: `set_stream` of the value, `set_maximum_stream`
   * (which sets the second limit through `set_stream`) or
   * `set_profile_stream`, on the port at `at`; no other port changes.
   */
  method WriteStream(c: Component, at: nat, op: StreamOp, maximum: bool, runcount: nat) returns (written: Result<real>)
    requires at < |c.ports|
    requires maximum ==> op.SetTo? && c.ports[at].streamLimits.Some? && op.value == c.ports[at].streamLimits.value.1
    modifies c.ports`stream
    ensures written == old(Outcome(c, Ok(RunStep(at, op)), runcount))
    ensures forall i :: 0 <= i < |c.ports| ==>
              c.ports[i].stream == if written.Ok? && c.ports[i] == c.ports[at] then Some(written.value)
                                   else old(c.ports[i].stream)
  {
    var p := c.ports[at];
    match op
    case SetTo(v) =>
      if maximum {
        written := p.SetMaximumStream(runcount);
      } else {
        written := p.SetStream(runcount, Some(v));
      }
    case FromProfile =>
      written := p.SetProfileStream(runcount);
  }

  /**
   * The branches of `run` after `_calc_control_var`: which port receives
   * which stream, and whether a consumer's write goes through
   * `set_maximum_stream`.  The membership test on a grid's missing profile,
   * a profile that fails, a passive source without limits and a port id
   * that is not found stop the run.
   */
  method Decide(c: Component, portId: string, requested: real, runcount: nat,
                port: nat, controlled: nat, value: real, override: bool)
    returns (d: Result<(nat, StreamOp, bool)>)
    requires c.Valid() && c.kind != StorageGasUnit
    requires c.controlledPort.Some? ==> port == c.controlledPort.value
    requires c.controlledPort.None? ==> IdPosition(c.ports, portId) == Ok(port)
    requires override <==> c.loopControl.Some?
    requires override ==> controlled == c.loopControl.value.0 && value == c.loopControl.value.1
    requires !override ==> controlled == port && value == requested
    ensures d.Err? ==> StepOf(c, portId, requested, runcount) == Err(d.error)
    ensures d.Ok? ==> StepOf(c, portId, requested, runcount) == Ok(RunStep(d.value.0, d.value.1))
    ensures d.Ok? && d.value.2 ==> && d.value.1.SetTo? && c.ports[d.value.0].streamLimits.Some?
                                   && d.value.1.value == c.ports[d.value.0].streamLimits.value.1
  {
    var at, op, maximum := controlled, SetTo(Fin(value)), false;
    if c.active && !override {
      var p := c.ports[controlled];
      var values := p.GetProfileValues(runcount, None);
      if c.kind == GridUnit && values == Ok(None) {
        return Err(TypeError);
      }
      if values.Err? {
        return Err(values.error);
      }
      if values.value.None? || Stream !in values.value.value {
        var limits := p.GetStreamLimits();
        op := SetTo(if limits.None? then Fin(0.0) else limits.value.1);
        maximum := c.kind == ConsumerUnit && limits.Some?;
      } else {
        op := FromProfile;
      }
    } else if !override && c.kind == SourceUnit {
      var limited := c.ports[port].GetStreamLimitedValue(Fin(value));
      if limited.Err? {
        return Err(limited.error);
      }
      at, op := port, SetTo(limited.value);
    } else if !override {
      var found := IdPosition(c.ports, portId);
      if found.Err? {
        return Err(found.error);
      }
      at := found.value;
    }
    d := Ok((at, op, maximum));
  }

  /** `run` after `_calc_control_var`: the step the rule picks, then its write. */
  method RunAt(c: Component, portId: string, requested: real, runcount: nat,
               port: nat, controlled: nat, value: real, override: bool) returns (r: Result<()>)
    requires c.Valid() && c.kind != StorageGasUnit
    requires c.controlledPort.Some? ==> port == c.controlledPort.value
    requires c.controlledPort.None? ==> IdPosition(c.ports, portId) == Ok(port)
    requires override <==> c.loopControl.Some?
    requires override ==> controlled == c.loopControl.value.0 && value == c.loopControl.value.1
    requires !override ==> controlled == port && value == requested
    modifies c.ports`stream
    ensures var out := old(Outcome(c, StepOf(c, portId, requested, runcount), runcount));
            (r.Ok? <==> out.Ok?) && (r.Err? ==> r.error == out.error)
    ensures var step := old(StepOf(c, portId, requested, runcount));
            var out := old(Outcome(c, step, runcount));
            forall i :: 0 <= i < |c.ports| ==>
              c.ports[i].stream == if out.Ok? && c.ports[i] == c.ports[step.value.at] then Some(out.value)
                                   else old(c.ports[i].stream)
  {
    var d := Decide(c, portId, requested, runcount, port, controlled, value, override);
    if d.Err? {
      return Err(d.error);
    }
    var (at, op, maximum) := d.value;
    var written := WriteStream(c, at, op, maximum, runcount);
    r := if written.Ok? then Ok(()) else Err(written.error);
  }

  /**
   * `run` of a source, consumer or grid: the status is reset (and set to 1
   * under an override), and the port the rule picks receives the stream the
   * rule gives; every other port keeps its stream.
   */
  method RunUnit(c: Component, portId: string, requested: real, runcount: nat) returns (r: Result<()>)
    requires c.Valid() && c.kind != StorageGasUnit
    modifies c`status, c.ports`stream
    ensures c.status == if c.loopControl.Some? && (c.controlledPort.Some? || IdPosition(c.ports, portId).Ok?) then 1 else 0
    ensures var out := old(Outcome(c, StepOf(c, portId, requested, runcount), runcount));
            (r.Ok? <==> out.Ok?) && (r.Err? ==> r.error == out.error)
    ensures var step := old(StepOf(c, portId, requested, runcount));
            var out := old(Outcome(c, step, runcount));
            forall i :: 0 <= i < |c.ports| ==>
              c.ports[i].stream == if out.Ok? && c.ports[i] == c.ports[step.value.at] then Some(out.value)
                                   else old(c.ports[i].stream)
  {
    ghost var step := StepOf(c, portId, requested, runcount);
    ghost var out := Outcome(c, step, runcount);
    var prepared := Prepare(c, portId, requested);
    if prepared.Err? {
      return Err(prepared.error);
    }
    var (port, controlled, value, override) := prepared.value;
    assert StepOf(c, portId, requested, runcount) == step;
    assert Outcome(c, step, runcount) == out;
    assert c.ports == old(c.ports);
    r := RunAt(c, portId, requested, runcount, port, controlled, value, override);
  }

  /**
   * The start of `run`: the status is reset to 0, the port the branch named
   * is looked up (a KeyError when the unit has no such port), and
   * `_calc_control_var` picks the port and value to use.
   */
  method Prepare(c: Component, portId: string, requested: real) returns (r: Result<(nat, nat, real, bool)>)
    requires c.Valid()
    modifies c`status
    ensures c.status == if c.loopControl.Some? && (c.controlledPort.Some? || IdPosition(c.ports, portId).Ok?) then 1 else 0
    ensures r.Ok? <==> c.controlledPort.Some? || IdPosition(c.ports, portId).Ok?
    ensures r.Err? ==> r.error == KeyError
    ensures r.Ok? ==> var (port, controlled, value, override) := r.value;
                      && (c.controlledPort.Some? ==> port == c.controlledPort.value)
                      && (c.controlledPort.None? ==> IdPosition(c.ports, portId) == Ok(port))
                      && (override <==> c.loopControl.Some?)
                      && (override ==> controlled == c.loopControl.value.0 && value == c.loopControl.value.1)
                      && (!override ==> controlled == port && value == requested)
  {
    c.status := 0;
    var port: nat;
    if c.controlledPort.Some? {
      port := c.controlledPort.value;
    } else {
      var found := IdPosition(c.ports, portId);
      if found.Err? {
        return Err(found.error);
      }
      port := found.value;
    }
    var controlled, value, override := c.CalcControlVar(port, requested);
    r := Ok((port, controlled, value, override));
  }

  // ---------------------------------------------------------------------------
  // The run rule of a gas storage (Storage_Gas.py:325-448, without the
  // pressure and compression parts)
  // ---------------------------------------------------------------------------

  /** The position a mass port of a storage sits at, or the error reaching it stops with. */
  function MassPortAt(portsSet: bool, k: Option<nat>): (r: Result<nat>)
    ensures r.Ok? <==> portsSet && k.Some?
    ensures r.Ok? ==> r.value == k.value
    ensures r.Err? ==> r.error == (if !portsSet then KeyError else AttributeError)
  {
    if !portsSet then Err(KeyError) else if k.None? then Err(AttributeError) else Ok(k.value)
  }

  /**
   * The ports a storage exchanges a stream `e` through: a charging
   * (negative) stream enters through the in port, with the out port set to
   * 0 first; otherwise the in port is set to 0 and the out port carries the
   * stream, with the in port's pressure and temperature.  Only those two
   * ports change.
   */
  method ExchangeWithMassPorts(c: Component, e: real, runcount: nat) returns (r: Result<()>)
    requires c.Valid()
    modifies c.ports`stream, c.ports`pressure, c.ports`temperature, c.ports`pressureStatus,
             c.ports`temperatureStatus, c.ports`updatedFluid
    ensures var kin, kout := MassPortAt(c.massPortsSet, c.massIn), MassPortAt(c.massPortsSet, c.massOut);
            if kin.Err? || kout.Err? then
              r == Err(if !c.massPortsSet then KeyError else AttributeError)
            else
              var carrier := c.ports[if e < 0.0 then kin.value else kout.value];
              var idle := c.ports[if e < 0.0 then kout.value else kin.value];
              var out := carrier.StreamOutcome(Fin(e), runcount);
              && (r.Ok? <==> out.Ok?) && (r.Err? ==> r.error == out.error)
              && (r.Ok? ==> carrier.stream == Some(out.value) && (idle != carrier ==> idle.stream == Some(0.0)))
              && (r.Ok? && e >= 0.0 ==> carrier.pressure == old(idle.pressure) && carrier.temperature == old(idle.temperature))
    ensures forall i :: 0 <= i < |c.ports| && (c.massIn.None? || c.ports[i] != c.ports[c.massIn.value])
                                             && (c.massOut.None? || c.ports[i] != c.ports[c.massOut.value]) ==>
              c.ports[i].stream == old(c.ports[i].stream) && c.ports[i].pressure == old(c.ports[i].pressure)
              && c.ports[i].temperature == old(c.ports[i].temperature)
  {
    var kin, kout := MassPortAt(c.massPortsSet, c.massIn), MassPortAt(c.massPortsSet, c.massOut);
    if !c.massPortsSet {
      return Err(KeyError);
    }
    if e < 0.0 {
      if kout.Err? {
        return Err(AttributeError);
      }
      var zero := c.ports[kout.value].SetStream(runcount, Some(Fin(0.0)));
      assert zero.Ok?;
      if kin.Err? {
        return Err(AttributeError);
      }
      var written := c.ports[kin.value].SetStream(runcount, Some(Fin(e)));
      r := if written.Ok? then Ok(()) else Err(written.error);
    } else {
      if kin.Err? {
        return Err(AttributeError);
      }
      var zero := c.ports[kin.value].SetStream(runcount, Some(Fin(0.0)));
      assert zero.Ok?;
      if kout.Err? {
        return Err(AttributeError);
      }
      var pin, pout := c.ports[kin.value], c.ports[kout.value];
      var written := pout.SetStream(runcount, Some(Fin(e)));
      if written.Err? {
        return Err(written.error);
      }
      pout.SetPressure(pin.pressure);
      pout.SetTemperature(pin.temperature);
      r := Ok(());
    }
  }

  /**
   * The buffer bookkeeping of a storage run on the state it starts from:
   * under an override the override value is requested and the storage runs
   * passive.
   */
  function StoragePlanOf(c: Component, requested: real, runcount: nat): StorageStep
    reads c`buffers, c`bufferInit, c`storageLevel, c`active, c`loopControl, c`size, c`chargePower,
          c`timeResolution, c`efficiency
  {
    var override := c.loopControl.Some?;
    StoragePlan(c.buffers, c.bufferInit, c.storageLevel, runcount, c.active && !override,
                if override then c.loopControl.value.1 else requested,
                c.size, c.chargePower, c.timeResolution, c.efficiency)
  }

  /** Whether the level check after a run flags the storage (status 1). */
  predicate Flagged(plan: StorageStep, runcount: nat, eff: real)
  {
    && plan.outcome.Ok? && 0 < runcount < |plan.levels| && (plan.outcome.value < 0.0 || eff != 0.0)
    && LevelMismatch(plan.levels, runcount, plan.outcome.value, eff)
  }

  /**
   * `Storage_Gas.run` after `_calc_control_var`, on the value it returns:
   * the buffer bookkeeping, the exchange, the level check.
   */
  method StorageRunAt(c: Component, value: real, runcount: nat, ghost plan: StorageStep)
    returns (r: Result<()>, flagged: bool)
    requires c.Valid()
    requires plan == StoragePlanOf(c, value, runcount)
    requires c.loopControl.Some? ==> value == c.loopControl.value.1
    modifies c`buffers, c`storageLevel, c.ports`stream, c.ports`pressure, c.ports`temperature,
             c.ports`pressureStatus, c.ports`temperatureStatus, c.ports`updatedFluid
    ensures && c.buffers == plan.buffers && c.storageLevel == plan.levels
            && (plan.outcome.Err? ==> r == Err(plan.outcome.error))
            && flagged == (r.Ok? && Flagged(plan, runcount, c.efficiency))
    ensures var kin, kout := MassPortAt(c.massPortsSet, c.massIn), MassPortAt(c.massPortsSet, c.massOut);
            plan.outcome.Ok? ==>
              var e := plan.outcome.value;
              if kin.Err? || kout.Err? then
                r == Err(if !c.massPortsSet then KeyError else AttributeError)
              else
                var carrier := c.ports[if e < 0.0 then kin.value else kout.value];
                var idle := c.ports[if e < 0.0 then kout.value else kin.value];
                var out := carrier.StreamOutcome(Fin(e), runcount);
                && (r.Ok? <==> out.Ok?) && (r.Err? ==> r.error == out.error)
                && (r.Ok? ==> carrier.stream == Some(out.value) && (idle != carrier ==> idle.stream == Some(0.0)))
                && (r.Ok? && e >= 0.0 ==> carrier.pressure == old(idle.pressure) && carrier.temperature == old(idle.temperature))
    ensures forall i :: 0 <= i < |c.ports| && (c.massIn.None? || c.ports[i] != c.ports[c.massIn.value])
                                             && (c.massOut.None? || c.ports[i] != c.ports[c.massOut.value]) ==>
              c.ports[i].stream == old(c.ports[i].stream) && c.ports[i].pressure == old(c.ports[i].pressure)
              && c.ports[i].temperature == old(c.ports[i].temperature)
  {
    var override := c.loopControl.Some?;
    var step := StoragePlan(c.buffers, c.bufferInit, c.storageLevel, runcount, c.active && !override,
                            value, c.size, c.chargePower, c.timeResolution, c.efficiency);
    assert step == plan;
    c.buffers, c.storageLevel := step.buffers, step.levels;
    if step.outcome.Err? {
      return Err(step.outcome.error), false;
    }
    var e := step.outcome.value;
    r := ExchangeWithMassPorts(c, e, runcount);
    assert c.storageLevel == plan.levels && c.buffers == plan.buffers;
    flagged := r.Ok? && runcount > 0 && LevelMismatch(c.storageLevel, runcount, e, c.efficiency);
  }

  /**
   * The mass fractions a unit holds once `run` has looked up a port of kind
   * `kind` carrying `incoming`: a mass port's fractions replace the unit's
   * when their entries differ, an energy port leaves them alone.
   */
  function AdoptFractions(own: PyDict<StreamMass, real>, kind: PortKind, incoming: PyDict<StreamMass, real>)
    : (r: PyDict<StreamMass, real>)
    ensures kind == MassPort ==> r.entries == incoming.entries
    ensures kind == EnergyPort ==> r == own
    ensures r == own || r == incoming
  {
    if kind == MassPort && own.entries != incoming.entries then incoming else own
  }

  /**
   * The start of `Storage_Gas.run`: the status reset, the port lookup (a
   * missing id fails), the adoption of a mass port's fractions when they
   * differ from the storage's, and `_calc_control_var`, whose value the run
   * goes on with.
   */
  method StorageControl(c: Component, portId: string, requested: real) returns (found: Result<nat>, value: real)
    modifies c`status, c`massFraction
    ensures found == IdPosition(c.ports, portId)
    ensures found.Err? ==> c.status == 0 && c.massFraction == old(c.massFraction)
    ensures found.Ok? ==>
              var p := c.ports[found.value];
              && c.massFraction == AdoptFractions(old(c.massFraction), p.kind, old(p.massFraction))
              && c.status == (if c.loopControl.Some? then 1 else 0)
              && value == (if c.loopControl.Some? then c.loopControl.value.1 else requested)
  {
    c.status := 0;
    found := IdPosition(c.ports, portId);
    if found.Err? {
      return found, requested;
    }
    var p := c.ports[found.value];
    if p.kind == MassPort && c.massFraction.entries != p.massFraction.entries {
      c.massFraction := p.massFraction;
    }
    var controlled, override;
    controlled, value, override := c.CalcControlVar(found.value, requested);
  }

  /**
   * `Storage_Gas.run` from the buffer bookkeeping on: the step of
   * `StorageRunAt`, then status 1 when the level check flags it.
   */
  method RunAndCheckLevel(c: Component, value: real, runcount: nat, ghost plan: StorageStep) returns (r: Result<()>)
    requires c.Valid()
    requires plan == StoragePlanOf(c, value, runcount)
    requires c.loopControl.Some? ==> value == c.loopControl.value.1
    modifies c`status, c`buffers, c`storageLevel, c.ports`stream, c.ports`pressure, c.ports`temperature,
             c.ports`pressureStatus, c.ports`temperatureStatus, c.ports`updatedFluid
    ensures && c.buffers == plan.buffers && c.storageLevel == plan.levels
            && (plan.outcome.Err? ==> r == Err(plan.outcome.error))
            && c.status == if r.Ok? && Flagged(plan, runcount, c.efficiency) then 1 else old(c.status)
  {
    var flagged;
    r, flagged := StorageRunAt(c, value, runcount, plan);
    if flagged {
      c.status := 1;
    }
  }

  /**
   * `run` of a gas storage: the status is reset; a port id that is not
   * found fails before anything else; a mass port's fractions are adopted
   * when they differ from the storage's; then, under the override value if
   * one is set (status 1), the buffers and level history follow
   * `StoragePlan`, the stream goes through the mass ports, and a level that
   * does not match the stream sets status 1.
   */
  method RunStorageGas(c: Component, portId: string, requested: real, runcount: nat) returns (r: Result<()>)
    requires c.Valid() && c.kind == StorageGasUnit
    modifies c`status, c`massFraction, c`buffers, c`storageLevel, c.ports`stream, c.ports`pressure,
             c.ports`temperature, c.ports`pressureStatus, c.ports`temperatureStatus, c.ports`updatedFluid
    ensures IdPosition(c.ports, portId).Err? ==>
              && r == Err(KeyError) && c.status == 0 && c.massFraction == old(c.massFraction)
              && c.buffers == old(c.buffers) && c.storageLevel == old(c.storageLevel)
    ensures IdPosition(c.ports, portId).Ok? ==>
              var p := c.ports[IdPosition(c.ports, portId).value];
              var plan := old(StoragePlanOf(c, requested, runcount));
              && c.massFraction == AdoptFractions(old(c.massFraction), p.kind, old(p.massFraction))
              && c.buffers == plan.buffers && c.storageLevel == plan.levels
              && (plan.outcome.Err? ==> r == Err(plan.outcome.error))
              && c.status == if c.loopControl.Some? || (r.Ok? && Flagged(plan, runcount, c.efficiency)) then 1 else 0
  {
    ghost var plan := StoragePlanOf(c, requested, runcount);
    var found, value := StorageControl(c, portId, requested);
    if found.Err? {
      return Err(found.error);
    }
    assert StoragePlanOf(c, value, runcount) == plan;
    assert forall i :: 0 <= i < |c.ports| ==>
             c.ports[i].stream == old(c.ports[i].stream) && c.ports[i].pressure == old(c.ports[i].pressure)
             && c.ports[i].temperature == old(c.ports[i].temperature);
    r := RunAndCheckLevel(c, value, runcount, plan);
  }
}
