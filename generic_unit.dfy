/**
 * A component as `GenericUnit` (modules/GenericUnit.py) builds it: its ports
 * P00, P01, ... in creation order, the ids of each port type, the controlled
 * port a profile was attached to, the loop-control override a branch may set,
 * and the unit-specific state of the classes the flow balance drives (Source,
 * Consumer, Grid and the gas storage of Storage.py / Storage_Gas.py).
 *
 * One class stands for the hierarchy; `kind` records which unit class a
 * component was built as, and the storage fields are unused by the others.
 */
module GenericUnits {
  import opened Wrappers
  import opened CustomErrors
  import opened ExtReal
  import opened Streamtypes
  import opened Units
  import opened Quantities
  import opened Dicts
  import opened Misc
  import opened Ports
  import opened Counters
  import opened Components
  import opened Storages

  /** The id of the port at position `i`. */
  function IdAt(ps: seq<Port>, i: nat): string
    requires i < |ps|
  {
    ps[i].results.portId
  }

  /** The ports carry the ids P00, P01, ... in order. */
  predicate NumberedPorts(ps: seq<Port>)
  {
    forall i {:trigger IdAt(ps, i)} :: 0 <= i < |ps| ==> IdAt(ps, i) == CreateId('P', i)
  }

  /** Every id listed under a type is the id of one of the ports. */
  predicate TypesListed(ps: seq<Port>, portTypes: map<PortType, seq<string>>)
  {
    forall t, k :: t in portTypes && 0 <= k < |portTypes[t]| ==> HasId(ps, portTypes[t][k])
  }

  /** With numbered ports, each port is found by its own id. */
  lemma PortsFoundById(ps: seq<Port>, i: int)
    requires NumberedPorts(ps) && 0 <= i < |ps|
    ensures FindPort(ps, CreateId('P', i)) == Ok(ps[i])
  {
    assert IdAt(ps, i) == CreateId('P', i);
    assert HasId(ps, CreateId('P', i));
    var r := FindPort(ps, CreateId('P', i)).value;
    var j :| 0 <= j < |ps| && ps[j] == r;
    assert IdAt(ps, j) == CreateId('P', j);
    CreateIdInjective('P', i, j);
  }

  /** Appending the port numbered next keeps the numbering. */
  lemma NumberedAppend(ps: seq<Port>, p: Port)
    requires NumberedPorts(ps) && p.results.portId == CreateId('P', |ps|)
    ensures NumberedPorts(ps + [p])
  {
    forall i | 0 <= i < |ps| + 1
      ensures IdAt(ps + [p], i) == CreateId('P', i)
    {
      if i < |ps| {
        assert IdAt(ps + [p], i) == IdAt(ps, i);
      }
    }
  }

  /** The type table with `id` appended under type `t`. */
  function ListAdded(portTypes: map<PortType, seq<string>>, t: PortType, id: string): (r: map<PortType, seq<string>>)
    ensures r.Keys == portTypes.Keys + {t}
    ensures r[t] == (if t in portTypes then portTypes[t] else []) + [id]
    ensures forall u :: u in portTypes && u != t ==> r[u] == portTypes[u]
  {
    portTypes[t := (if t in portTypes then portTypes[t] else []) + [id]]
  }

  /** Listing the id of an appended port under a type keeps every listed id a port id. */
  lemma TypesListedAppend(ps: seq<Port>, portTypes: map<PortType, seq<string>>, t: PortType, p: Port)
    requires TypesListed(ps, portTypes)
    ensures TypesListed(ps + [p], ListAdded(portTypes, t, p.results.portId))
  {
    var listed := if t in portTypes then portTypes[t] else [];
    var m := portTypes[t := listed + [p.results.portId]];
    var qs := ps + [p];
    forall u, k | u in m && 0 <= k < |m[u]| ensures HasId(qs, m[u][k]) {
      if u == t && k == |listed| {
        assert qs[|ps|].results.portId == m[u][k];
      } else {
        var x := m[u][k];
        assert u in portTypes && x == portTypes[u][k];
        var j :| 0 <= j < |ps| && ps[j].results.portId == x;
        assert qs[j] == ps[j];
      }
    }
  }

  /** Appending a port does not change what an earlier match finds, and is found when nothing earlier matches. */
  lemma {:induction false} FindPortAppend(ps: seq<Port>, p: Port, id: string)
    ensures HasId(ps, id) ==> FindPort(ps + [p], id) == FindPort(ps, id)
    ensures !HasId(ps, id) && p.results.portId == id ==> FindPort(ps + [p], id) == Ok(p)
    decreases |ps|
  {
    if ps != [] {
      assert (ps + [p])[1..] == ps[1..] + [p];
      FindPortAppend(ps[1..], p, id);
      if ps[0].results.portId != id && HasId(ps, id) {
        var i :| 0 <= i < |ps| && ps[i].results.portId == id;
        assert ps[1..][i - 1] == ps[i];
      }
    }
  }

  /** The ports listed under one type, looked up by id; KeyError for an id no port carries. */
  function LookupAll(ps: seq<Port>, ids: seq<string>): (r: Result<seq<Port>>)
    ensures r.Ok? <==> forall k :: 0 <= k < |ids| ==> HasId(ps, ids[k])
    ensures r.Ok? ==> |r.value| == |ids| &&
                      forall k :: 0 <= k < |ids| ==> r.value[k] in ps && r.value[k].results.portId == ids[k]
    decreases |ids|
  {
    if ids == [] then Ok([])
    else
      var first := FindPort(ps, ids[0]);
      var rest := LookupAll(ps, ids[1..]);
      if first.Err? then Err(first.error)
      else if rest.Err? then
        assert !forall k :: 0 <= k < |ids| ==> HasId(ps, ids[k]) by {
          var k :| 0 <= k < |ids[1..]| && !HasId(ps, ids[1..][k]);
          assert ids[1..][k] == ids[k + 1];
        }
        Err(rest.error)
      else
        assert forall k :: 1 <= k < |ids| ==> ids[k] == ids[1..][k - 1];
        Ok([first.value] + rest.value)
  }

  /**
   * The invariant of a component's ports: one port per id P00, P01, ... in
   * creation order, every id listed under a type is a port, and the ports the
   * component refers to are its own.
   */
  predicate PortsWellFormed(n: nat, ps: seq<Port>, portTypes: map<PortType, seq<string>>, controlled: Option<nat>,
                            loopControl: Option<(nat, real)>, massIn: Option<nat>, massOut: Option<nat>)
  {
    && n == |ps|
    && NumberedPorts(ps)
    && TypesListed(ps, portTypes)
    && (controlled.Some? ==> controlled.value < n)
    && (loopControl.Some? ==> loopControl.value.0 < n)
    && (massIn.Some? ==> massIn.value < n)
    && (massOut.Some? ==> massOut.value < n)
  }

  /** `_add_port` keeps the invariant. */
  lemma WellFormedAppend(n: nat, ps: seq<Port>, portTypes: map<PortType, seq<string>>, controlled: Option<nat>,
                         loopControl: Option<(nat, real)>, massIn: Option<nat>, massOut: Option<nat>,
                         t: PortType, p: Port)
    requires PortsWellFormed(n, ps, portTypes, controlled, loopControl, massIn, massOut)
    requires p.results.portId == CreateId('P', n)
    ensures PortsWellFormed(n + 1, ps + [p], ListAdded(portTypes, t, p.results.portId),
                            controlled, loopControl, massIn, massOut)
  {
    NumberedAppend(ps, p);
    TypesListedAppend(ps, portTypes, t, p);
  }

  /** The position of a port in the list (ports are never removed, so a position names a port for good). */
  function PositionOf(ps: seq<Port>, p: Port): (i: nat)
    requires p in ps
    ensures i < |ps| && ps[i] == p
    decreases |ps|
  {
    if ps[0] == p then 0
    else
      assert p in ps[1..];
      1 + PositionOf(ps[1..], p)
  }

  /** The bound a size gives, infinite without a size. */
  function UpperBound(size: Option<real>): Ext
  {
    if size.Some? then Fin(size.value) else PosInf
  }

  /** The port `_add_port` builds: a `Port_Energy` for an energy type, a `Port_Mass` for a mass type. */
  method NewPort(componentId: string, id: string, portType: PortType, fixedStatus: bool, sign: StreamDirection,
                 unit: Option<Unit>, table: FractionTable) returns (r: Result<Port>)
    ensures r.Ok? ==> fresh(r.value) && fresh(r.value.results)
    ensures r.Ok? ==> && r.value.results.portId == id
                      && r.value.results.sign == sign && r.value.fixedStatus == fixedStatus
                      && r.value.stream == None && r.value.streamLimits == None
                      && r.value.results.branchId == None
                      && r.value.valueProfiles == map[] && r.value.binaryProfile == map[]
    ensures r.Ok? && (unit.None? || Some(unit.value) == GetStreamUnit(portType)) ==>
              r.value.results.portType == Some(portType)
    ensures portType.EnergyType? ==> r.Ok? && r.value.kind == EnergyPort
    ensures r.Ok? && portType.MassType? ==> r.value.kind == MassPort
    ensures r.Err? ==> r.error == KeyError || r.error == PortMassError
  {
    if portType.EnergyType? {
      var port := new Port.Energy(componentId, id, portType.energy, sign, unit, fixedStatus);
      return Ok(port);
    }
    r := NewMassPort(componentId, id, portType.mass, sign, unit, fixedStatus, PosInf, PosInf, table);
  }

  class Component {
    const kind: ComponentKind
    const componentId: string
    const streamType: PortType
    var active: bool
    var size: Option<real>
    var status: int
    var isSubComponent: bool
    var timeResolution: Option<int>
    var ports: seq<Port>
    var portTypes: map<PortType, seq<string>>
    var numberOfPorts: nat
    // The controlled port and the loop-control port, by position in `ports`.
    var controlledPort: Option<nat>
    var loopControl: Option<(nat, real)>
    // The storage state (Storage.py, Storage_Gas.py); None as charge power is the default infinity.
    var chargePower: Option<real>
    var efficiency: real
    var bufferInit: real
    var buffers: Buffers
    var storageLevel: seq<real>
    // The 'status' entry of `component_history`: one status per saved step.
    var statusHistory: seq<int>
    var massFraction: PyDict<StreamMass, real>
    // `mass_ports`: empty until `set_properties` fills in both entries (either may be None).
    var massPortsSet: bool
    var massIn: Option<nat>
    var massOut: Option<nat>
    // `branch_id` (the last branch a port of it was linked to) and `sub_components`.
    var branchId: Option<string>
    var subComponents: PyDict<string, Component>

    /**
     * The port bookkeeping: one port per id P00, P01, ... in creation order,
     * every id listed under a type is a port of this component, and the
     * positions the component refers to are positions of its ports.
     */
    ghost predicate Valid()
      reads this`numberOfPorts, this`ports, this`portTypes, this`controlledPort, this`loopControl, this`massIn, this`massOut
    {
      PortsWellFormed(numberOfPorts, ports, portTypes, controlledPort, loopControl, massIn, massOut)
    }

    /**
     * `GenericUnit.__init__`: status 0, no ports, no time resolution, no
     * controlled port and no override.  The id is the one `set_id` draws
     * from the shared counter (`IdCounters.NextComponentId`), which the unit
     * constructors draw just before.
     */
    constructor (kind: ComponentKind, streamType: PortType, size: Option<real>, active: bool, id: string)
      ensures componentId == id
      ensures this.kind == kind && this.streamType == streamType && this.size == size && this.active == active
      ensures status == 0 && !isSubComponent && timeResolution == None
      ensures ports == [] && portTypes == map[] && numberOfPorts == 0
      ensures controlledPort == None && loopControl == None && !massPortsSet && massIn == None && massOut == None
      ensures chargePower == None && efficiency == 1.0 && bufferInit == 0.0 && buffers == Buffers(0.0, 0.0, 0)
      ensures storageLevel == [] && statusHistory == [] && massFraction.keys == []
      ensures branchId == None && subComponents.keys == []
      ensures Valid()
    {
      this.kind := kind;
      componentId := id;
      this.streamType := streamType;
      this.active := active;
      this.size := size;
      status := 0;
      isSubComponent := false;
      timeResolution := None;
      ports := [];
      portTypes := map[];
      numberOfPorts := 0;
      controlledPort := None;
      loopControl := None;
      chargePower := None;
      efficiency := 1.0;
      bufferInit := 0.0;
      buffers := Buffers(0.0, 0.0, 0);
      storageLevel := [];
      statusHistory := [];
      massFraction := Dict([], map[]);
      massPortsSet, massIn, massOut := false, None, None;
      branchId := None;
      subComponents := Dict([], map[]);
    }

    /**
     * `_add_port`: the next id P<n>, counted even when building the port
     * fails; an energy or mass port of the type; the port registered under its
     * id and its id appended under its type.  A mass port whose type has no
     * valid fraction table stops the construction (KeyError, PortMassError).
     */
    method AddPort(portType: PortType, fixedStatus: bool, sign: StreamDirection, unit: Option<Unit>,
                   table: FractionTable) returns (r: Result<Port>)
      requires Valid()
      modifies this`numberOfPorts, this`ports, this`portTypes
      ensures numberOfPorts == old(numberOfPorts) + 1
      ensures r.Ok? ==> Valid() && fresh(r.value) && fresh(r.value.results) && ports == old(ports) + [r.value]
      ensures r.Ok? ==> && r.value.results.portId == CreateId('P', old(numberOfPorts))
                        && r.value.results.sign == sign && r.value.fixedStatus == fixedStatus
                        && r.value.stream == None && r.value.streamLimits == None
                        && r.value.results.branchId == None
                        && r.value.valueProfiles == map[] && r.value.binaryProfile == map[]
      ensures r.Ok? && (unit.None? || Some(unit.value) == GetStreamUnit(portType)) ==>
                r.value.results.portType == Some(portType)
      ensures r.Ok? ==> portTypes == ListAdded(old(portTypes), portType, r.value.results.portId)
      ensures portType.EnergyType? ==> r.Ok? && r.value.kind == EnergyPort
      ensures r.Ok? && portType.MassType? ==> r.value.kind == MassPort
      ensures r.Err? ==> ports == old(ports) && portTypes == old(portTypes) && (r.error == KeyError || r.error == PortMassError)
    {
      var id := CreateId('P', numberOfPorts);
      numberOfPorts := numberOfPorts + 1;
      var built := NewPort(componentId, id, portType, fixedStatus, sign, unit, table);
      if built.Err? {
        return Err(built.error);
      }
      var port := built.value;
      assert port.results.portId == id;
      var types := ListAdded(portTypes, portType, id);
      WellFormedAppend(numberOfPorts - 1, ports, portTypes, controlledPort, loopControl, massIn, massOut, portType, port);
      ports, portTypes := ports + [port], types;
      r := Ok(port);
    }

    /** `get_ports_by_type`: None for a type without ports, else the ports in the order listed. */
    function GetPortsByType(t: PortType): (r: Option<seq<Port>>)
      requires Valid()
      reads this`numberOfPorts, this`ports, this`portTypes, this`controlledPort, this`loopControl, this`massIn, this`massOut
      ensures r.Some? <==> t in portTypes
      ensures r.Some? ==> |r.value| == |portTypes[t]| &&
                          forall k :: 0 <= k < |r.value| ==> r.value[k] in ports && r.value[k].results.portId == portTypes[t][k]
    {
      if t in portTypes then Some(LookupAll(ports, portTypes[t]).value) else None
    }

    /** `get_adaptive_ports`: the ids of the ports that are not fixed, in creation order. */
    method GetAdaptivePorts() returns (ids: seq<string>)
      ensures ids == AdaptiveIds(ports)
    {
      ids := [];
      var i := 0;
      while i < |ports|
        invariant 0 <= i <= |ports|
        invariant ids == AdaptiveIds(ports[..i])
      {
        assert ports[..i + 1][..i] == ports[..i];
        if !ports[i].fixedStatus {
          ids := ids + [ports[i].results.portId];
        }
        i := i + 1;
      }
      assert ports[..|ports|] == ports;
    }

    /** The position `get_ports_by_type_and_sign` picks among this component's ports. */
    function Pick(t: PortType, s: StreamDirection): (r: Option<nat>)
      reads this`ports, set p | p in ports :: p.results
      ensures r.Some? ==> r.value < |ports|
    {
      PickIndex(Views(ports), t, s)
    }

    /**
     * `_set_fixed_port`: the port the lookup by type and sign picks becomes
     * fixed; when there is none the call fails on None (AttributeError).
     */
    method SetFixedPort(t: PortType, s: StreamDirection) returns (r: Result<()>)
      modifies ports`fixedStatus
      ensures old(Pick(t, s)).None? <==> r == Err(AttributeError)
      ensures var k := old(Pick(t, s));
              forall i :: 0 <= i < |ports| ==>
                ports[i].fixedStatus == (if k.Some? && ports[i] == ports[k.value] then true else old(ports[i].fixedStatus))
    {
      var k := Pick(t, s);
      if k.None? {
        return Err(AttributeError);
      }
      ports[k.value].SetFixedStatus(true);
      r := Ok(());
    }

    /** `_set_adaptive_port`: exactly the ports of the type and sign become adaptive, all others fixed. */
    method SetAdaptivePort(t: PortType, s: StreamDirection)
      modifies ports`fixedStatus
      ensures forall i :: 0 <= i < |ports| ==>
                ports[i].fixedStatus == !(ports[i].results.sign == s && ports[i].results.portType == Some(t))
    {
      var i := 0;
      while i < |ports|
        invariant 0 <= i <= |ports|
        invariant forall k :: 0 <= k < i ==>
                    ports[k].fixedStatus == !(ports[k].results.sign == s && ports[k].results.portType == Some(t))
      {
        var p := ports[i];
        p.SetFixedStatus(!(p.results.sign == s && p.results.portType == Some(t)));
        i := i + 1;
      }
    }

    /** `set_controlled_active_port`: the override a branch sets during loop control. */
    method SetControlledActivePort(port: Port, value: real)
      requires Valid() && port in ports
      modifies this`loopControl
      ensures loopControl.Some? && loopControl.value.0 < |ports| && ports[loopControl.value.0] == port && loopControl.value.1 == value
      ensures Valid()
    {
      loopControl := Some((PositionOf(ports, port), value));
    }

    /** `clear_controlled_active_port`. */
    method ClearControlledActivePort()
      requires Valid()
      modifies this`loopControl
      ensures loopControl == None && Valid()
    {
      loopControl := None;
    }

    /**
     * `_calc_control_var`: under an override its port and value, with the
     * status set to 1; otherwise the given port and value.  The flag says
     * whether an override was in force.
     */
    method CalcControlVar(port: nat, value: real) returns (controlled: nat, controlledValue: real, override: bool)
      modifies this`status
      ensures override <==> loopControl.Some?
      ensures override ==> controlled == loopControl.value.0 && controlledValue == loopControl.value.1 && status == 1
      ensures !override ==> controlled == port && controlledValue == value && status == old(status)
    {
      if loopControl.Some? {
        controlled, controlledValue, override := loopControl.value.0, loopControl.value.1, true;
        status := 1;
      } else {
        controlled, controlledValue, override := port, value, false;
      }
    }

    /** `make_sub_component`: the flag, and every port linked to the given id. */
    method MakeSubComponent(linkId: string)
      modifies this`isSubComponent, (set p | p in ports :: p.results)`branchId
      ensures isSubComponent
      ensures forall i :: 0 <= i < |ports| ==> ports[i].results.branchId == Some(linkId)
    {
      isSubComponent := true;
      var i := 0;
      while i < |ports|
        invariant 0 <= i <= |ports| && isSubComponent
        invariant forall k :: 0 <= k < i ==> ports[k].results.branchId == Some(linkId)
      {
        ports[i].SetLinkedBranch(Some(linkId));
        i := i + 1;
      }
    }

    /** `set_branch_id`. */
    method SetBranchId(id: string)
      modifies this`branchId
      ensures branchId == Some(id)
    {
      branchId := Some(id);
    }

    /**
     * `set_sub_component`: the sub-component is registered under the given
     * name, or under its class name when none is given, and is made a
     * sub-component linked to 'sub_component'.
     */
    method SetSubComponent(sub: Component, name: Option<string>)
      modifies this`subComponents, sub`isSubComponent, (set p | p in sub.ports :: p.results)`branchId
      ensures var key := if name.Some? then name.value else ClassName(sub.kind);
              subComponents == old(subComponents).Put(key, sub)
      ensures sub.isSubComponent
      ensures forall i :: 0 <= i < |sub.ports| ==> sub.ports[i].results.branchId == Some("sub_component")
    {
      var key := if name.Some? then name.value else ClassName(sub.kind);
      subComponents := subComponents.Put(key, sub);
      sub.MakeSubComponent("sub_component");
    }

    /**
     * `_reset_component_history`: every entry of the component history, the
     * status and (for storages) the storage level, starts empty again.
     */
    method ResetHistory()
      modifies this`statusHistory, this`storageLevel
      ensures statusHistory == [] && storageLevel == []
    {
      statusHistory := [];
      storageLevel := [];
    }

    /** `save_state`: the current status is appended to the status history. */
    method SaveState()
      modifies this`statusHistory
      ensures statusHistory == old(statusHistory) + [status]
      ensures |statusHistory| == |old(statusHistory)| + 1 && statusHistory[|statusHistory| - 1] == status
    {
      statusHistory := statusHistory + [status];
    }

    /** `set_time_resolution`. */
    method SetTimeResolution(tr: int)
      modifies this`timeResolution
      ensures timeResolution == Some(tr)
    {
      timeResolution := Some(tr);
    }

    // ----- profiles and properties -----

    /**
     * `set_profile_to_port`: no matching port only logs a warning.  Otherwise
     * the port becomes the controlled port and receives the profile (its error
     * stops the call there), the component takes the given activity, and the
     * time resolution is adopted when none is set or it is the same; a
     * different one is a ComponentError.
     */
    method SetProfileToPort(profile: seq<real>, t: PortType, s: StreamDirection, q: PhysicalQuantity,
                            tr: Option<int>, active: bool) returns (r: Result<()>)
      requires Valid()
      modifies this`controlledPort, this`active, this`timeResolution, ports`valueProfiles
      ensures Valid()
      ensures old(Pick(t, s)).None? ==>
                r == Ok(()) && controlledPort == old(controlledPort) && this.active == old(this.active) &&
                timeResolution == old(timeResolution)
      ensures old(Pick(t, s)).Some? ==>
                var p := ports[old(Pick(t, s)).value];
                var stored := StoreProfile(old(p.valueProfiles), p.results.sign, q, profile);
                && controlledPort == old(Pick(t, s))
                && (stored.Err? ==> r == Err(stored.error) && this.active == old(this.active) &&
                                    timeResolution == old(timeResolution) && p.valueProfiles == old(p.valueProfiles))
                && (stored.Ok? ==> p.valueProfiles == stored.value && this.active == active)
                && (stored.Ok? && (old(timeResolution).None? || old(timeResolution) == tr) ==>
                      r == Ok(()) && timeResolution == tr)
                && (stored.Ok? && old(timeResolution).Some? && old(timeResolution) != tr ==>
                      r == Err(ComponentError) && timeResolution == old(timeResolution))
      ensures var k := old(Pick(t, s));
              forall i :: 0 <= i < |ports| && (k.None? || ports[i] != ports[k.value]) ==>
                ports[i].valueProfiles == old(ports[i].valueProfiles)
    {
      var k := Pick(t, s);
      if k.None? {
        return Ok(());
      }
      controlledPort := k;
      var stored := ports[k.value].SetPortProfile(q, profile);
      if stored.Err? {
        return Err(stored.error);
      }
      this.active := active;
      if timeResolution.None? || timeResolution == tr {
        timeResolution := tr;
        r := Ok(());
      } else {
        r := Err(ComponentError);
      }
    }

    /** `set_binary_profile_to_port`: the picked port stores the profile under the sign; no port fails (AttributeError). */
    method SetBinaryProfileToPort(profile: seq<real>, t: PortType, s: StreamDirection) returns (r: Result<()>)
      modifies ports`binaryProfile
      ensures r == if old(Pick(t, s)).None? then Err(AttributeError) else Ok(())
      ensures old(Pick(t, s)).Some? ==>
                var p := ports[old(Pick(t, s)).value];
                p.binaryProfile == old(p.binaryProfile)[s := profile]
      ensures var k := old(Pick(t, s));
              forall i :: 0 <= i < |ports| && (k.None? || ports[i] != ports[k.value]) ==>
                ports[i].binaryProfile == old(ports[i].binaryProfile)
    {
      var k := Pick(t, s);
      if k.None? {
        return Err(AttributeError);
      }
      ports[k.value].SetPortBinaryProfile(profile, s);
      r := Ok(());
    }

    /**
     * `set_properties` of each unit.  A source bounds its output port by its
     * size (no such port fails on None); a consumer and a grid change nothing
     * that matters to the balance; a gas storage looks up its in and out ports
     * (an in port that is None fails where its fluid is created) and caps its
     * initial level at its size.
     */
    method SetProperties() returns (r: Result<()>)
      requires Valid()
      modifies ports`streamLimits, this`massPortsSet, this`massIn, this`massOut, this`bufferInit
      ensures Valid()
      ensures kind == SourceUnit ==>
                var k := old(Pick(streamType, StreamOutOfComponent));
                (k.None? ==> r == Err(AttributeError)) &&
                (k.Some? ==> r == Ok(()) && ports[k.value].streamLimits == Some(LimitOrderAsWritten((Fin(0.0), UpperBound(size)))))
      ensures var k := old(Pick(streamType, StreamOutOfComponent));
              forall i :: 0 <= i < |ports| && (kind != SourceUnit || k.None? || ports[i] != ports[k.value]) ==>
                ports[i].streamLimits == old(ports[i].streamLimits)
      ensures kind == ConsumerUnit || kind == GridUnit ==> r == Ok(())
      ensures kind == StorageGasUnit ==>
                && massPortsSet
                && massIn == old(Pick(streamType, StreamIntoComponent))
                && massOut == old(Pick(streamType, StreamOutOfComponent))
                && (massIn.None? ==> r == Err(AttributeError) && bufferInit == old(bufferInit))
                && (massIn.Some? ==>
                      r == Ok(()) &&
                      bufferInit == if size.Some? && old(bufferInit) > size.value then size.value else old(bufferInit))
      ensures kind != StorageGasUnit ==>
                massPortsSet == old(massPortsSet) && massIn == old(massIn) && massOut == old(massOut) &&
                bufferInit == old(bufferInit)
    {
      r := Ok(());
      if kind == SourceUnit {
        r := BoundOutputPort();
      } else if kind == StorageGasUnit {
        r := SetMassPorts();
      }
    }

    /** The source part of `set_properties`: the output port is bounded by `[0, size]`. */
    method BoundOutputPort() returns (r: Result<()>)
      modifies ports`streamLimits
      ensures var k := old(Pick(streamType, StreamOutOfComponent));
              (k.None? ==> r == Err(AttributeError)) &&
              (k.Some? ==> r == Ok(()) && ports[k.value].streamLimits == Some(LimitOrderAsWritten((Fin(0.0), UpperBound(size)))))
      ensures var k := old(Pick(streamType, StreamOutOfComponent));
              forall i :: 0 <= i < |ports| && (k.None? || ports[i] != ports[k.value]) ==>
                ports[i].streamLimits == old(ports[i].streamLimits)
    {
      var k := Pick(streamType, StreamOutOfComponent);
      if k.None? {
        return Err(AttributeError);
      }
      ports[k.value].UpdateStreamLimit((Fin(0.0), UpperBound(size)));
      r := Ok(());
    }

    /** The gas storage part of `set_properties`: its mass ports, and the initial level capped at the size. */
    method SetMassPorts() returns (r: Result<()>)
      requires Valid()
      modifies this`massPortsSet, this`massIn, this`massOut, this`bufferInit
      ensures Valid()
      ensures massPortsSet
      ensures massIn == old(Pick(streamType, StreamIntoComponent))
      ensures massOut == old(Pick(streamType, StreamOutOfComponent))
      ensures massIn.None? ==> r == Err(AttributeError) && bufferInit == old(bufferInit)
      ensures massIn.Some? ==>
                r == Ok(()) && bufferInit == if size.Some? && old(bufferInit) > size.value then size.value else old(bufferInit)
    {
      var pin, pout := Pick(streamType, StreamIntoComponent), Pick(streamType, StreamOutOfComponent);
      massPortsSet, massIn, massOut := true, pin, pout;
      if massIn.None? {
        return Err(AttributeError);
      }
      if size.Some? && bufferInit > size.value {
        bufferInit := size.value;
      }
      r := Ok(());
    }

    /** `set_size`: the new size, then `set_properties`. */
    method SetSize(newSize: Option<real>) returns (r: Result<()>)
      requires Valid()
      modifies this`size, ports`streamLimits, this`massPortsSet, this`massIn, this`massOut, this`bufferInit
      ensures Valid() && size == newSize
      ensures kind == SourceUnit ==>
                var k := old(Pick(streamType, StreamOutOfComponent));
                (k.None? ==> r == Err(AttributeError)) &&
                (k.Some? ==> r == Ok(()) && ports[k.value].streamLimits == Some(LimitOrderAsWritten((Fin(0.0), UpperBound(newSize)))))
      ensures kind == StorageGasUnit && r.Ok? ==>
                bufferInit == if newSize.Some? && old(bufferInit) > newSize.value then newSize.value else old(bufferInit)
    {
      size := newSize;
      r := SetProperties();
    }

    /** `Storage.set_initial_value`: the new initial level, then `set_properties`, which caps it at the size. */
    method SetInitialValue(buffer: real) returns (r: Result<()>)
      requires Valid() && kind == StorageGasUnit
      modifies ports`streamLimits, this`massPortsSet, this`massIn, this`massOut, this`bufferInit
      ensures Valid()
      ensures r.Ok? ==> bufferInit == if size.Some? && buffer > size.value then size.value else buffer
      ensures r == Err(AttributeError) <==> massIn.None?
    {
      bufferInit := buffer;
      r := SetProperties();
    }
  }
}
