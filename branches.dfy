/**
 * A branch (model_base/Branches.py): the ports of one commodity that exchange
 * streams with each other, and the procedure that balances them within one
 * timestep.  The pure parts come first: the two sign tests, the limit clamp,
 * folding a port into the branch balance, the loop-control value policy and
 * the promotion of loop-controlled components to the fixed side.  The
 * `Branch` class at the end drives the components.
 */
module Branches {
  import opened Wrappers
  import opened CustomErrors
  import opened ExtReal
  import opened RangeLimits
  import opened Streamtypes
  import opened Dicts
  import opened Misc
  import opened Ports
  import opened Components
  import opened GenericUnits
  import opened UnitRules
  import opened Settings

  function AbsR(x: real): (r: real)
    ensures r >= 0.0 && (r == x || r == -x)
  {
    if x < 0.0 then -x else x
  }

  // ---------------------------------------------------------------------------
  // The two sign tests (Branches.py:493-530)
  // ---------------------------------------------------------------------------

  /**
   * `check_port_sign`: a port can take up the balance when it is
   * bidirectional, when there is nothing to take up, or when the balance is a
   * surplus and the port leads into its component, or a deficit and the port
   * leads out of it.
   */
  function CheckPortSign(sign: StreamDirection, balance: real): (ok: bool)
    ensures ok <==> || sign == StreamBidirectional || balance == 0.0
                    || (sign == StreamIntoComponent && balance > 0.0)
                    || (sign == StreamOutOfComponent && balance < 0.0)
  {
    sign == StreamBidirectional || (sign.Value() as real) * balance <= 0.0
  }

  /**
   * `check_port_sign_change_validity`: a one-way port admits only a value of
   * its own direction, and never 0; a bidirectional port admits any value.
   */
  function CheckPortSignChangeValidity(sign: StreamDirection, value: Ext): (ok: bool)
    ensures ok <==> || sign == StreamBidirectional
                    || (sign == StreamIntoComponent && Lt(value, Fin(0.0)))
                    || (sign == StreamOutOfComponent && Lt(Fin(0.0), value))
  {
    sign == StreamBidirectional || sign.Value() * Sign(value) > 0
  }

  /**
   * For a one-way port the tests are two views of one rule: the port can take
   * up a non-zero balance exactly when the request that cancels it is a value
   * the port admits.
   */
  lemma SignTestsAgree(sign: StreamDirection, balance: real)
    requires balance != 0.0
    ensures CheckPortSign(sign, balance) <==> CheckPortSignChangeValidity(sign, Fin(-balance))
    ensures sign != StreamBidirectional ==>
              (CheckPortSign(sign, balance) <==> !CheckPortSignChangeValidity(sign, Fin(balance)))
  {
  }

  // ---------------------------------------------------------------------------
  // The limit clamp of loop control (Branches.py:201-224)
  // ---------------------------------------------------------------------------

  /**
   * `get_port_limited_value`: with stream limits, the value clamped into the
   * sorted limits; without, the value.  The guard `port.get_sign() != 0`
   * compares an enum member with an integer and therefore always holds, so a
   * bidirectional port is clamped like a one-way port.
   */
  function PortLimitedValue(limits: Option<Limits>, value: real): (r: Ext)
    ensures limits.None? ==> r == Fin(value)
    ensures limits.Some? ==> var s := Sorted2(limits.value.0, limits.value.1);
                             && Le(s.0, r) && Le(r, s.1)
                             && (r == Fin(value) <==> InRange(Fin(value), Some(s.0), Some(s.1)))
  {
    match limits
    case None => Fin(value)
    case Some(l) =>
      var s := Sorted2(l.0, l.1);
      InRangeIffFixedPoint(Fin(value), s.0, s.1);
      RangeLimit(Fin(value), s.0, s.1)
  }

  /** The clamp ignores the direction of the port: a bidirectional port with limits is clamped too. */
  lemma BidirectionalPortsAreClamped(l: Limits, value: real)
    requires Le(l.0, l.1) && Lt(l.1, Fin(value))
    ensures PortLimitedValue(Some(l), value) == l.1
  {
  }

  // ---------------------------------------------------------------------------
  // The branch balance and folding a port into it (Branches.py:126-141, 532-603)
  // ---------------------------------------------------------------------------

  /**
   * The mass fractions of a balance.  `set_balance` stores the port's
   * dictionary; an empty one is later replaced by the `.items()` view of the
   * next port's dictionary, which is no longer subscriptable.
   */
  datatype Fractions = AsDict(d: PyDict<StreamMass, real>) | AsItems(d: PyDict<StreamMass, real>)

  /**
   * `self.balance`: empty, the stream of an energy branch, or the stream and
   * the fluid properties of a mass branch.  A stream of `None` comes from a
   * port that has not been given one.
   */
  datatype Balance =
    | NoBalance
    | EnergyBalance(stream: Option<real>)
    | MassBalance(stream: Option<real>, pressure: Ext, temperature: Ext, fractions: Fractions)

  /** The balance is within the tolerance: a known stream of magnitude at most `tol`. */
  predicate Balanced(b: Balance, tol: real)
  {
    !b.NoBalance? && b.stream.Some? && AbsR(b.stream.value) <= tol
  }

  /** What folding reads of a port. */
  datatype PortReading = PortReading(kind: PortKind, stream: Option<real>, pressure: Ext, temperature: Ext,
                                     pressureStatus: int, temperatureStatus: int,
                                     fractions: PyDict<StreamMass, real>)

  /** `set_balance`: the balance taken over from the first port folded in. */
  function Opened(p: PortReading): (b: Balance)
    ensures !b.NoBalance? && b.stream == p.stream
    ensures b.MassBalance? <==> p.kind == MassPort
    ensures b.MassBalance? ==> b.pressure == p.pressure && b.temperature == p.temperature && b.fractions == AsDict(p.fractions)
  {
    if p.kind == MassPort then MassBalance(p.stream, p.pressure, p.temperature, AsDict(p.fractions))
    else EnergyBalance(p.stream)
  }

  /** How a pressure or temperature of the balance is reconciled with the port's. */
  datatype Reconcile = Agree | Adopt(value: Ext) | Impose | Clash

  /**
   * Equal values agree.  Otherwise a finite port value of uncalculated status
   * is adopted (as its absolute value) by a branch value that is still
   * infinite, and clashes with a finite one; in every other case the branch
   * value is imposed on the port.
   */
  function ReconcileProperty(branchValue: Ext, portValue: Ext, portStatus: int): (r: Reconcile)
    ensures r == Agree <==> branchValue == portValue
    ensures r.Adopt? <==> branchValue != portValue && portValue.Fin? && portStatus == 0 && !branchValue.Fin?
    ensures r.Adopt? ==> r.value == Abs(portValue)
    ensures r == Clash <==> branchValue != portValue && portValue.Fin? && portStatus == 0 && branchValue.Fin?
    ensures r == Impose <==> branchValue != portValue && !(portValue.Fin? && portStatus == 0)
  {
    if branchValue == portValue then Agree
    else if Abs(portValue) != PosInf && portStatus == 0 then
      (if Abs(branchValue) == PosInf then Adopt(Abs(portValue)) else Clash)
    else Impose
  }

  /** The branch value after reconciling. */
  function BranchAfter(branchValue: Ext, step: Reconcile): Ext
  {
    if step.Adopt? then step.value else branchValue
  }

  /** The value written into the port when reconciling, if any. */
  function PortWrite(branchValue: Ext, step: Reconcile): Option<Ext>
  {
    if step == Impose then Some(branchValue) else None
  }

  /**
   * After a reconciliation that does not clash, port and branch carry the
   * same value, unless the branch adopted the absolute value of a negative one.
   */
  lemma ReconcileLeavesAgreement(branchValue: Ext, portValue: Ext, portStatus: int)
    requires ReconcileProperty(branchValue, portValue, portStatus) != Clash
    ensures var step := ReconcileProperty(branchValue, portValue, portStatus);
            var portNow := if PortWrite(branchValue, step).Some? then PortWrite(branchValue, step).value else portValue;
            BranchAfter(branchValue, step) == portNow || (step.Adopt? && BranchAfter(branchValue, step) == Abs(portValue))
  {
  }

  /** The fraction tolerance of `check_balance_validity`. */
  const FractionTolerance: real := 0.0000000001

  /**
   * The scan of a port's mass fractions against the balance's, in the port's
   * key order: a key the balance lacks stops it with KeyError, a key whose
   * |port value| - |balance value| exceeds the tolerance with BranchError.
   */
  function FractionMismatch(keys: seq<StreamMass>, port: map<StreamMass, real>, branch: map<StreamMass, real>): (r: Option<ErrorClass>)
    requires forall k | k in keys :: k in port
    ensures r.None? <==> forall k | k in keys :: k in branch && AbsR(port[k]) - AbsR(branch[k]) <= FractionTolerance
    ensures r.Some? ==> r.value == KeyError || r.value == BranchError
  {
    if |keys| == 0 then None
    else
      var k := keys[0];
      if k !in branch then Some(KeyError)
      else if !(AbsR(port[k]) - AbsR(branch[k]) <= FractionTolerance) then Some(BranchError)
      else
        var rest := FractionMismatch(keys[1..], port, branch);
        assert forall x :: x in keys <==> x == k || x in keys[1..];
        rest
  }

  /** The comparison is one-sided: a port fraction well below the balance's passes. */
  lemma FractionCheckIsOneSided(m: StreamMass)
    ensures FractionMismatch([m], map[m := 0.5], map[m := 0.9]).None?
  {
  }

  /** Folding the mass fractions of a port into those of a mass balance. */
  function MergeFractions(f: Fractions, port: PyDict<StreamMass, real>): (r: Result<Fractions>)
    ensures f.AsDict? && f.d.entries == map[] ==> r == Ok(AsItems(port))
    ensures f.AsDict? && f.d.entries != map[] ==>
              r == (var e := FractionMismatch(port.keys, port.entries, f.d.entries); if e.None? then Ok(f) else Err(e.value))
    ensures f.AsItems? ==> r == if port.keys == [] then Ok(f) else Err(TypeError)
  {
    match f
    case AsDict(d) =>
      if d.entries == map[] then Ok(AsItems(port))
      else
        var e := FractionMismatch(port.keys, port.entries, d.entries);
        if e.None? then Ok(f) else Err(e.value)
    case AsItems(_) => if port.keys == [] then Ok(f) else Err(TypeError)
  }

  /** The new balance and the pressure and temperature written into the port, if any. */
  datatype Merged = Merged(balance: Balance, pressure: Option<Ext>, temperature: Option<Ext>)

  /**
   * Folding one port into the balance: `set_balance` on an empty balance,
   * `check_balance_validity` otherwise.  Streams are added (a missing one is a
   * TypeError); a mass balance reconciles pressure, then temperature, then the
   * mass fractions, and a mismatch raises.
   */
  function Merge(b: Balance, p: PortReading): (r: Result<Merged>)
    ensures b.NoBalance? ==> r == Ok(Merged(Opened(p), None, None))
    ensures !b.NoBalance? && (b.stream.None? || p.stream.None?) ==> r == Err(TypeError)
    ensures r.Ok? && !b.NoBalance? ==> !r.value.balance.NoBalance? && r.value.balance.stream == Some(b.stream.value + p.stream.value)
    ensures r.Ok? && b.EnergyBalance? ==> r.value.balance.EnergyBalance? && r.value.pressure.None? && r.value.temperature.None?
    ensures b.MassBalance? && b.stream.Some? && p.stream.Some? && p.kind == EnergyPort ==> r == Err(AttributeError)
    ensures r.Ok? && b.MassBalance? ==>
              var ps := ReconcileProperty(b.pressure, p.pressure, p.pressureStatus);
              var ts := ReconcileProperty(b.temperature, p.temperature, p.temperatureStatus);
              && ps != Clash && ts != Clash && r.value.balance.MassBalance?
              && r.value.balance.pressure == BranchAfter(b.pressure, ps) && r.value.pressure == PortWrite(b.pressure, ps)
              && r.value.balance.temperature == BranchAfter(b.temperature, ts) && r.value.temperature == PortWrite(b.temperature, ts)
              && MergeFractions(b.fractions, p.fractions) == Ok(r.value.balance.fractions)
    ensures b.MassBalance? && p.kind == MassPort && b.stream.Some? && p.stream.Some? ==>
              (r.Err? <==> || ReconcileProperty(b.pressure, p.pressure, p.pressureStatus) == Clash
                           || ReconcileProperty(b.temperature, p.temperature, p.temperatureStatus) == Clash
                           || MergeFractions(b.fractions, p.fractions).Err?)
  {
    match b
    case NoBalance => Ok(Merged(Opened(p), None, None))
    case EnergyBalance(s) =>
      if s.None? || p.stream.None? then Err(TypeError)
      else Ok(Merged(EnergyBalance(Some(s.value + p.stream.value)), None, None))
    case MassBalance(s, pressure, temperature, fractions) =>
      if s.None? || p.stream.None? then Err(TypeError)
      else if p.kind == EnergyPort then Err(AttributeError)
      else
        var ps := ReconcileProperty(pressure, p.pressure, p.pressureStatus);
        var ts := ReconcileProperty(temperature, p.temperature, p.temperatureStatus);
        if ps == Clash || ts == Clash then Err(BranchError)
        else
          var f :- MergeFractions(fractions, p.fractions);
          Ok(Merged(MassBalance(Some(s.value + p.stream.value), BranchAfter(pressure, ps), BranchAfter(temperature, ts), f),
                    PortWrite(pressure, ps), PortWrite(temperature, ts)))
  }

  /** Folding a port twice into a balance counts its stream twice. */
  lemma MergeCountsEveryFold(b: Balance, p: PortReading)
    requires Merge(b, p).Ok? && !b.NoBalance?
    requires Merge(Merge(b, p).value.balance, p).Ok?
    ensures Merge(Merge(b, p).value.balance, p).value.balance.stream == Some(b.stream.value + 2.0 * p.stream.value)
  {
  }

  // ---------------------------------------------------------------------------
  // What the fixed and the adaptive phase request (Branches.py:346-404)
  // ---------------------------------------------------------------------------

  /**
   * The stream a fixed component is offered: the negated balance, or 0 when
   * the balance is empty; negating a missing stream is a TypeError.
   */
  function FixedRequest(b: Balance): (r: Result<real>)
    ensures b.NoBalance? ==> r == Ok(0.0)
    ensures !b.NoBalance? && b.stream.Some? ==> r == Ok(-b.stream.value)
    ensures !b.NoBalance? && b.stream.None? ==> r == Err(TypeError)
  {
    if b.NoBalance? then Ok(0.0)
    else if b.stream.None? then Err(TypeError)
    else Ok(-b.stream.value)
  }

  /**
   * The port an adaptive component runs on and the stream it is offered: the
   * first of its ports (from position `i` on) that can take up the balance,
   * offered the negated balance; when none can, its first port, offered 0.
   * A failed port lookup, an empty balance (KeyError) and a missing stream
   * (TypeError) stop the scan at the port where they are met.
   */
  function AdaptiveChoiceFrom(b: Balance, signs: seq<Result<StreamDirection>>, i: nat): (r: Result<(nat, real)>)
    requires i < |signs|
    ensures r.Ok? ==> r.value.0 < |signs|
    decreases |signs| - i
  {
    if signs[i].Err? then Err(signs[i].error)
    else if b.NoBalance? then Err(KeyError)
    else if b.stream.None? then Err(TypeError)
    else if CheckPortSign(signs[i].value, b.stream.value) then Ok((i, -b.stream.value))
    else if i + 1 == |signs| then Ok((0, 0.0))
    else AdaptiveChoiceFrom(b, signs, i + 1)
  }

  /** The choice over all ports of an adaptive component; no port at all is an IndexError. */
  function AdaptiveChoice(b: Balance, signs: seq<Result<StreamDirection>>): (r: Result<(nat, real)>)
    ensures |signs| == 0 ==> r == Err(IndexError)
    ensures r.Ok? ==> r.value.0 < |signs|
  {
    if |signs| == 0 then Err(IndexError) else AdaptiveChoiceFrom(b, signs, 0)
  }

  /**
   * What the scan from position `i` finds: the first port whose direction can
   * take up the balance, offered the negated balance, every port before it
   * unable to; or, when no port can, the first port offered 0.  An error
   * comes from a failed lookup, an empty balance or a missing stream.
   */
  lemma {:induction false} AdaptiveChoiceFromMeaning(b: Balance, signs: seq<Result<StreamDirection>>, i: nat)
    requires i < |signs|
    ensures var r := AdaptiveChoiceFrom(b, signs, i);
            && (r.Ok? ==> !b.NoBalance? && b.stream.Some?)
            && (r.Ok? ==> forall j | i <= j < |signs| && j < r.value.0 ::
                            signs[j].Ok? && !CheckPortSign(signs[j].value, b.stream.value))
            && (r.Ok? ==> || (i <= r.value.0 && signs[r.value.0].Ok? && CheckPortSign(signs[r.value.0].value, b.stream.value)
                              && r.value.1 == -b.stream.value)
                          || (r.value == (0, 0.0) && forall j | i <= j < |signs| ::
                                                       signs[j].Ok? && !CheckPortSign(signs[j].value, b.stream.value)))
            && (r.Err? ==> r.error == KeyError || r.error == TypeError || exists j | i <= j < |signs| :: signs[j] == Err(r.error))
    decreases |signs| - i
  {
    if signs[i].Ok? && !b.NoBalance? && b.stream.Some? && !CheckPortSign(signs[i].value, b.stream.value)
       && i + 1 < |signs| {
      AdaptiveChoiceFromMeaning(b, signs, i + 1);
    }
  }

  /** `AdaptiveChoiceFromMeaning` over all the ports. */
  lemma AdaptiveChoiceMeaning(b: Balance, signs: seq<Result<StreamDirection>>)
    ensures var r := AdaptiveChoice(b, signs);
            && (r.Ok? ==> !b.NoBalance? && b.stream.Some?)
            && (r.Ok? ==> forall j | 0 <= j < r.value.0 :: signs[j].Ok? && !CheckPortSign(signs[j].value, b.stream.value))
            && (r.Ok? ==> || (signs[r.value.0].Ok? && CheckPortSign(signs[r.value.0].value, b.stream.value)
                              && r.value.1 == -b.stream.value)
                          || (r.value == (0, 0.0) && forall j | 0 <= j < |signs| ::
                                                       signs[j].Ok? && !CheckPortSign(signs[j].value, b.stream.value)))
  {
    if |signs| > 0 {
      AdaptiveChoiceFromMeaning(b, signs, 0);
    }
  }

  // ---------------------------------------------------------------------------
  // The loop-control value policy (Branches.py:435-469)
  // ---------------------------------------------------------------------------

  /**
   * The position of the port loop control works on: the first connected port
   * whose stream has the opposite sign of the residual, else the last one.  A
   * port without a stream stops the scan with a TypeError.
   */
  function ControlPortFrom(streams: seq<Option<real>>, residual: real, i: nat): (r: Result<nat>)
    requires i < |streams|
    ensures r.Ok? ==> i <= r.value < |streams| && streams[r.value].Some?
    ensures r.Err? ==> r.error == TypeError
    decreases |streams| - i
  {
    if streams[i].None? then Err(TypeError)
    else if Opposes(streams[i].value, residual) || i == |streams| - 1 then Ok(i)
    else ControlPortFrom(streams, residual, i + 1)
  }

  /** A stream of the opposite sign of the residual. */
  predicate Opposes(stream: real, residual: real)
  {
    stream * residual < 0.0
  }

  /**
   * The port picked is the first one from `i` whose stream has the opposite
   * sign of the residual, or the last one; every port passed over has a
   * stream that does not oppose the residual.
   */
  lemma {:induction false} ControlPortFromPicksFirst(streams: seq<Option<real>>, residual: real, i: nat)
    requires i < |streams|
    ensures var r := ControlPortFrom(streams, residual, i);
            r.Ok? ==> && (forall j | i <= j < r.value :: streams[j].Some? && !Opposes(streams[j].value, residual))
                      && (Opposes(streams[r.value].value, residual) || r.value == |streams| - 1)
    decreases |streams| - i
  {
    if streams[i].Some? && !Opposes(streams[i].value, residual) && i < |streams| - 1 {
      ControlPortFromPicksFirst(streams, residual, i + 1);
    }
  }

  /** The scan fails exactly at a port without a stream met before any choice. */
  lemma {:induction false} ControlPortFromFails(streams: seq<Option<real>>, residual: real, i: nat)
    requires i < |streams|
    ensures ControlPortFrom(streams, residual, i).Err? ==>
              exists j | i <= j < |streams| :: streams[j].None? &&
                forall k | i <= k < j :: streams[k].Some? && !Opposes(streams[k].value, residual)
    decreases |streams| - i
  {
    if streams[i].None? {
    } else if !Opposes(streams[i].value, residual) && i < |streams| - 1 && ControlPortFrom(streams, residual, i).Err? {
      ControlPortFromFails(streams, residual, i + 1);
      var j :| i + 1 <= j < |streams| && streams[j].None? &&
               forall k | i + 1 <= k < j :: streams[k].Some? && !Opposes(streams[k].value, residual);
      assert forall k | i <= k < j :: streams[k].Some? && !Opposes(streams[k].value, residual);
    }
  }

  /**
   * The value loop control gives the port: its stream minus the residual.  On
   * the first attempt a non-zero candidate is replaced by its clamped value;
   * on later attempts a candidate the clamp would change becomes 0; and a
   * value the port's direction does not admit becomes 0.
   */
  function ControlValue(sign: StreamDirection, limits: Option<Limits>, current: real, residual: real, attempt: int): (r: Ext)
    ensures r == Fin(0.0) || CheckPortSignChangeValidity(sign, r)
    ensures attempt == 1 ==> r == Fin(0.0) || r == PortLimitedValue(limits, current - residual)
    ensures attempt > 1 ==> r == Fin(0.0) || (r == Fin(current - residual) && PortLimitedValue(limits, current - residual) == r)
    ensures attempt >= 1 && limits.Some? ==> var s := Sorted2(limits.value.0, limits.value.1);
                                             r == Fin(0.0) || (Le(s.0, r) && Le(r, s.1))
  {
    var candidate := current - residual;
    var limited := PortLimitedValue(limits, candidate);
    var policed := if candidate != 0.0 && attempt == 1 then limited
                   else if limited != Fin(candidate) && attempt > 1 then Fin(0.0)
                   else Fin(candidate);
    if CheckPortSignChangeValidity(sign, policed) then policed else Fin(0.0)
  }

  /**
   * A candidate that is neither clamped nor zeroed closes the residual: after
   * `balance_value -= (component_value - component_value_new)` it is 0.
   */
  lemma UntouchedCandidateClosesResidual(sign: StreamDirection, limits: Option<Limits>, current: real, residual: real, attempt: int)
    requires ControlValue(sign, limits, current, residual, attempt) == Fin(current - residual)
    ensures residual - (current - ControlValue(sign, limits, current, residual, attempt).r) == 0.0
  {
  }

  /** On a later attempt a candidate outside the limits is zeroed rather than clamped. */
  lemma LaterAttemptsZeroClampedCandidates(sign: StreamDirection, l: Limits, current: real, residual: real, attempt: int)
    requires attempt > 1 && PortLimitedValue(Some(l), current - residual) != Fin(current - residual)
    ensures ControlValue(sign, Some(l), current, residual, attempt) == Fin(0.0)
  {
  }

  // ---------------------------------------------------------------------------
  // Promotion of loop-controlled components to the fixed side (Branches.py:473-490)
  // ---------------------------------------------------------------------------

  type PortMap = PyDict<string, seq<string>>

  /** One component moved: if it is not fixed yet, it becomes fixed with all its connected ports and leaves the adaptive side. */
  function PromoteOne(fixed: PortMap, adaptive: PortMap, name: string, ids: seq<string>): (r: (PortMap, PortMap))
    ensures name in r.0.entries
    ensures name in fixed.entries ==> r == (fixed, adaptive)
    ensures name !in fixed.entries ==> r.0 == fixed.Put(name, ids) && r.1.entries == adaptive.entries - {name}
  {
    if name in fixed.entries then (fixed, adaptive)
    else (fixed.Put(name, ids), if name in adaptive.entries then adaptive.Remove(name) else adaptive)
  }

  /** Every listed component moved in turn, in list order. */
  function Promote(fixed: PortMap, adaptive: PortMap, names: seq<string>, ids: map<string, seq<string>>): (r: (PortMap, PortMap))
    requires forall n | n in names :: n in ids
    ensures forall n | n in names :: n in r.0.entries
    ensures forall n | n in fixed.entries :: n in r.0.entries && r.0.entries[n] == fixed.entries[n]
    decreases |names|
  {
    if |names| == 0 then (fixed, adaptive)
    else
      var front := names[..|names| - 1];
      var last := names[|names| - 1];
      assert forall n | n in front :: n in names;
      var m := Promote(fixed, adaptive, front, ids);
      PromoteOne(m.0, m.1, last, ids[last])
  }

  /**
   * What promotion does: a listed component that was not fixed ends up fixed
   * with all its connected ports and no longer adaptive; the fixed side keeps
   * what it had, in its order, and components not listed keep their side.
   */
  lemma {:induction false} PromoteEffect(fixed: PortMap, adaptive: PortMap, names: seq<string>, ids: map<string, seq<string>>)
    requires forall n | n in names :: n in ids
    ensures var r := Promote(fixed, adaptive, names, ids);
            && (forall n | n in names :: n in r.0.entries)
            && (forall n | n in fixed.entries :: n in r.0.entries && r.0.entries[n] == fixed.entries[n])
            && (forall n | n in names && n !in fixed.entries :: r.0.entries[n] == ids[n])
            && (forall n | n !in names :: (n in r.0.entries <==> n in fixed.entries))
            && (forall n :: n in r.1.entries <==> n in adaptive.entries && (n !in names || n in fixed.entries))
            && |r.0.keys| >= |fixed.keys| && r.0.keys[..|fixed.keys|] == fixed.keys
    decreases |names|
  {
    if |names| > 0 {
      var front := names[..|names| - 1];
      var last := names[|names| - 1];
      assert forall n :: n in names <==> n in front || n == last;
      PromoteEffect(fixed, adaptive, front, ids);
    }
  }

  /** Promoting components that are all fixed already changes nothing. */
  lemma {:induction false} PromoteFixedIsNoop(fixed: PortMap, adaptive: PortMap, names: seq<string>, ids: map<string, seq<string>>)
    requires forall n | n in names :: n in ids && n in fixed.entries
    ensures Promote(fixed, adaptive, names, ids) == (fixed, adaptive)
    decreases |names|
  {
    if |names| > 0 {
      var front := names[..|names| - 1];
      assert forall n | n in front :: n in names;
      PromoteFixedIsNoop(fixed, adaptive, front, ids);
    }
  }

  /**
   * Promotion is idempotent, which is why the second pass of `loop_control`
   * over the same list has no effect.
   */
  lemma PromoteIdempotent(fixed: PortMap, adaptive: PortMap, names: seq<string>, ids: map<string, seq<string>>)
    requires forall n | n in names :: n in ids
    ensures var m := Promote(fixed, adaptive, names, ids);
            Promote(m.0, m.1, names, ids) == m
  {
    var m := Promote(fixed, adaptive, names, ids);
    PromoteEffect(fixed, adaptive, names, ids);
    PromoteFixedIsNoop(m.0, m.1, names, ids);
  }

  // ---------------------------------------------------------------------------
  // Bookkeeping helpers of the branch
  // ---------------------------------------------------------------------------

  /** The ids of a list of ports, in order. */
  function PortIds(ps: seq<Port>): (r: seq<string>)
    ensures |r| == |ps| && forall i | 0 <= i < |ps| :: r[i] == ps[i].results.portId
  {
    seq(|ps|, i requires 0 <= i < |ps| => ps[i].results.portId)
  }

  /** The streams of a list of ports, in order. */
  function StreamsOf(ps: seq<Port>): (r: seq<Option<real>>)
    reads ps`stream
    ensures |r| == |ps| && forall i | 0 <= i < |ps| :: r[i] == ps[i].stream
    decreases |ps|
  {
    if |ps| == 0 then [] else StreamsOf(ps[..|ps| - 1]) + [ps[|ps| - 1].stream]
  }

  /**
   * `ports_connected[name][port.get_id()] = port`: a port with the same id is
   * replaced in place, a new id is appended.
   */
  function WithPort(ps: seq<Port>, p: Port): (r: seq<Port>)
    ensures FindPort(r, p.results.portId) == Ok(p)
    ensures forall q | q in r :: q in ps || q == p
    decreases |ps|
  {
    if |ps| == 0 then [p]
    else if ps[0].results.portId == p.results.portId then [p] + ps[1..]
    else [ps[0]] + WithPort(ps[1..], p)
  }

  /** Storing a port leaves the entry of every other id as it was. */
  lemma {:induction false} WithPortKeepsOthers(ps: seq<Port>, p: Port)
    ensures forall id | id != p.results.portId :: FindPort(WithPort(ps, p), id) == FindPort(ps, id)
    decreases |ps|
  {
    if |ps| > 0 && ps[0].results.portId != p.results.portId {
      WithPortKeepsOthers(ps[1..], p);
    }
  }

  /** A new id is appended at the end; a known id keeps the list's length. */
  lemma {:induction false} WithPortAppendsNew(ps: seq<Port>, p: Port)
    ensures !HasId(ps, p.results.portId) ==> WithPort(ps, p) == ps + [p]
    ensures HasId(ps, p.results.portId) ==> |WithPort(ps, p)| == |ps|
    decreases |ps|
  {
    var id := p.results.portId;
    if |ps| > 0 && ps[0].results.portId != id {
      WithPortAppendsNew(ps[1..], p);
      assert HasId(ps, id) <==> HasId(ps[1..], id) by {
        if HasId(ps, id) {
          var i :| 0 <= i < |ps| && ps[i].results.portId == id;
          assert ps[1..][i - 1] == ps[i];
        }
        if HasId(ps[1..], id) {
          var i :| 0 <= i < |ps[1..]| && ps[1..][i].results.portId == id;
          assert ps[i + 1] == ps[1..][i];
        }
      }
      assert [ps[0]] + (ps[1..] + [p]) == ps + [p];
    } else if |ps| > 0 {
      assert ps[0].results.portId == id;
    }
  }

  /** What folding reads of a port. */
  function Reading(p: Port): PortReading
    reads p`stream, p`pressure, p`temperature, p`pressureStatus, p`temperatureStatus, p`massFraction
  {
    PortReading(p.kind, p.stream, p.pressure, p.temperature, p.pressureStatus, p.temperatureStatus, p.massFraction)
  }

  /** The port a lookup found, as a frame. */
  function Found(r: Result<Port>): set<Port>
  {
    if r.Ok? then {r.value} else {}
  }

  /** The keys of a dictionary that have not run yet, in key order. */
  function NotRun(keys: seq<string>, ran: seq<string>): seq<string>
    decreases |keys|
  {
    if |keys| == 0 then []
    else NotRun(keys[..|keys| - 1], ran) + (if keys[|keys| - 1] in ran then [] else [keys[|keys| - 1]])
  }

  lemma {:induction false} NotRunMembers(keys: seq<string>, ran: seq<string>)
    ensures forall n :: n in NotRun(keys, ran) <==> n in keys && n !in ran
    decreases |keys|
  {
    if |keys| > 0 {
      var front := keys[..|keys| - 1];
      assert forall n :: n in keys <==> n in front || n == keys[|keys| - 1];
      NotRunMembers(front, ran);
    }
  }

  /**
   * One step of a phase loop over distinct keys: the next key has run iff it
   * had run before the phase, and the names grow by it exactly when it runs.
   */
  lemma NamesStep(keys: seq<string>, i: nat, names0: seq<string>, names: seq<string>)
    requires i < |keys| && forall a, b | 0 <= a < b < |keys| :: keys[a] != keys[b]
    requires names == names0 + NotRun(keys[..i], names0)
    ensures keys[i] in names <==> keys[i] in names0
    ensures keys[i] in names ==> NotRun(keys[..i + 1], names0) == NotRun(keys[..i], names0)
    ensures keys[i] !in names ==> NotRun(keys[..i + 1], names0) == NotRun(keys[..i], names0) + [keys[i]]
    ensures keys[i] !in names ==> names + [keys[i]] == names0 + NotRun(keys[..i + 1], names0)
  {
    assert keys[..i + 1][..i] == keys[..i];
    NotRunMembers(keys[..i], names0);
    assert keys[i] !in keys[..i];
  }

  /** The names a phase returns include every key of its dictionary. */
  lemma NotRunCovers(keys: seq<string>, names0: seq<string>)
    ensures forall n | n in keys :: n in names0 + NotRun(keys, names0)
  {
    NotRunMembers(keys, names0);
  }

  /** One run of a component the branch asked for: the component's name, the port id and the requested stream. */
  datatype Dispatched = Dispatched(name: string, portId: string, requested: real)

  /** The fixed phase ran each listed component once, in order, on the first of its fixed ports. */
  predicate FixedCalls(calls: seq<Dispatched>, names: seq<string>, fixed: PortMap)
  {
    && |calls| == |names|
    && forall j | 0 <= j < |calls| ::
         && calls[j].name == names[j] && names[j] in fixed.entries && fixed.entries[names[j]] != []
         && calls[j].portId == fixed.entries[names[j]][0]
  }

  /** The adaptive phase ran each listed component once, in order, on one of its adaptive ports. */
  predicate AdaptiveCalls(calls: seq<Dispatched>, names: seq<string>, adaptive: PortMap)
  {
    && |calls| == |names|
    && forall j | 0 <= j < |calls| ::
         calls[j].name == names[j] && names[j] in adaptive.entries && calls[j].portId in adaptive.entries[names[j]]
  }

  lemma FixedCallsAppend(calls: seq<Dispatched>, names: seq<string>, fixed: PortMap, d: Dispatched)
    requires FixedCalls(calls, names, fixed)
    requires d.name in fixed.entries && fixed.entries[d.name] != [] && d.portId == fixed.entries[d.name][0]
    ensures FixedCalls(calls + [d], names + [d.name], fixed)
  {
  }

  lemma AdaptiveCallsAppend(calls: seq<Dispatched>, names: seq<string>, adaptive: PortMap, d: Dispatched)
    requires AdaptiveCalls(calls, names, adaptive)
    requires d.name in adaptive.entries && d.portId in adaptive.entries[d.name]
    ensures AdaptiveCalls(calls + [d], names + [d.name], adaptive)
  {
  }

  /** One loop-control override: the component, the port it holds and the stream it holds it at. */
  datatype Control = Control(name: string, unit: Component, port: Port, value: real)

  /** The names of the controlled components, in order. */
  function NamesOf(ctls: seq<Control>): (r: seq<string>)
    ensures |r| == |ctls| && forall i | 0 <= i < |ctls| :: r[i] == ctls[i].name
    decreases |ctls|
  {
    if |ctls| == 0 then [] else NamesOf(ctls[..|ctls| - 1]) + [ctls[|ctls| - 1].name]
  }

  /** The last override given to a component, if any. */
  function LastFor(ctls: seq<Control>, c: Component): (r: Option<Control>)
    ensures r.Some? ==> r.value in ctls && r.value.unit == c
    ensures r.None? ==> forall i | 0 <= i < |ctls| :: ctls[i].unit != c
    decreases |ctls|
  {
    if |ctls| == 0 then None
    else if ctls[|ctls| - 1].unit == c then Some(ctls[|ctls| - 1])
    else
      var r := LastFor(ctls[..|ctls| - 1], c);
      assert forall i | 0 <= i < |ctls| - 1 :: ctls[..|ctls| - 1][i] == ctls[i];
      r
  }

  /** Growing a prefix of the overrides by one: the last override given to a component and the names. */
  lemma PrefixStep(ctls: seq<Control>, i: nat, units: set<Component>)
    requires i < |ctls|
    ensures NamesOf(ctls[..i + 1]) == NamesOf(ctls[..i]) + [ctls[i].name]
    ensures forall u | u in units :: LastFor(ctls[..i + 1], u) == if ctls[i].unit == u then Some(ctls[i]) else LastFor(ctls[..i], u)
  {
    assert ctls[..i + 1][..i] == ctls[..i];
    forall u | u in units
      ensures LastFor(ctls[..i + 1], u) == if ctls[i].unit == u then Some(ctls[i]) else LastFor(ctls[..i], u)
    {
      var s := ctls[..i + 1];
      assert |s| == i + 1 && s[i] == ctls[i] && s[..i] == ctls[..i];
      assert LastFor(s, u) == if s[i].unit == u then Some(s[i]) else LastFor(s[..i], u);
    }
  }

  /** The component holds the port at the value. */
  predicate Carries(c: Component, port: Port, value: real)
    reads c`loopControl, c`ports
  {
    c.loopControl.Some? && c.loopControl.value.0 < |c.ports| && c.ports[c.loopControl.value.0] == port
    && c.loopControl.value.1 == value
  }

  /** A plan with some controls already done in front of it. */
  function After(done: seq<Control>, plan: Result<(seq<Control>, real)>): Result<(seq<Control>, real)>
  {
    if plan.Err? then plan else Ok((done + plan.value.0, plan.value.1))
  }

  // ---------------------------------------------------------------------------
  // The branch (Branches.py:19-491)
  // ---------------------------------------------------------------------------

  /**
   * `component.run(port_id, required_port_value, runcount)`: a gas storage
   * runs its own rules, every other unit the generic ones.  What a run does
   * is stated by `RunStorageGas` and `RunUnit`; here only its frame matters.
   */
  method RunComponent(c: Component, portId: string, requested: real, runcount: nat) returns (r: Result<()>)
    requires c.Valid()
    modifies c`status, c`massFraction, c`buffers, c`storageLevel, c.ports`stream, c.ports`pressure,
             c.ports`temperature, c.ports`pressureStatus, c.ports`temperatureStatus, c.ports`updatedFluid
  {
    if c.kind == StorageGasUnit {
      r := RunStorageGas(c, portId, requested, runcount);
    } else {
      r := RunUnit(c, portId, requested, runcount);
    }
  }

  class Branch {
    const branchType: PortType
    const branchName: string
    const branchId: string
    const connections: seq<(string, StreamDirection)>
    const settings: BasicTechnicalSettings
    var runcount: nat
    var calculated: bool
    var loopControlRules: seq<string>
    var loopControlled: seq<string>
    var connected: map<string, Component>
    /** The connected ports of each component, in the order they were connected. */
    var portsConnected: map<string, seq<Port>>
    var fixedPorts: PortMap
    var adaptivePorts: PortMap
    var tempFixed: PortMap
    var tempAdaptive: PortMap
    var balance: Balance
    /** The component runs the branch has asked for, oldest first. */
    ghost var trace: seq<Dispatched>
    /** Every port of a connected component: what running the components may change. */
    ghost var unitPorts: set<Port>

    /**
     * Every connected component has its connected ports, all of them its own
     * ports; a loop-controlled name is a connected one.
     */
    ghost predicate Shaped()
      reads this`connected, this`portsConnected, this`loopControlled, this`unitPorts, connected.Values`ports
    {
      && connected.Keys == portsConnected.Keys
      && (forall n | n in portsConnected :: |portsConnected[n]| > 0)
      && (forall n, p | n in portsConnected && p in portsConnected[n] :: p in connected[n].ports)
      && (forall c, p | c in connected.Values && p in c.ports :: p in unitPorts)
      && (forall n | n in loopControlled :: n in portsConnected)
    }

    /** The branch is shaped and its connected components are well formed. */
    ghost predicate Valid()
      reads this`connected, this`portsConnected, this`loopControlled, this`unitPorts
      reads connected.Values`numberOfPorts, connected.Values`ports, connected.Values`portTypes,
            connected.Values`controlledPort, connected.Values`loopControl, connected.Values`massIn,
            connected.Values`massOut
    {
      Shaped() && forall c | c in connected.Values :: c.Valid()
    }

    /** The connected components. */
    ghost function Units(): set<Component>
      reads this`connected
    {
      connected.Values
    }

    /** The ports connected to this branch. */
    function ConnectedPorts(): set<Port>
      reads this`portsConnected
    {
      set n, p | n in portsConnected && p in portsConnected[n] :: p
    }

    lemma ConnectedPortsAreUnitPorts()
      requires Valid()
      ensures ConnectedPorts() <= unitPorts
    {
      forall p | p in ConnectedPorts() ensures p in unitPorts {
        var n :| n in portsConnected && p in portsConnected[n];
        assert connected[n] in connected.Values && p in connected[n].ports;
      }
    }

    /** The ids of the connected ports of every component. */
    function IdMap(): (m: map<string, seq<string>>)
      reads this`portsConnected
      ensures m.Keys == portsConnected.Keys
    {
      map n | n in portsConnected :: PortIds(portsConnected[n])
    }

    /**
     * `Branch.__init__`: nothing connected, no rules, an empty balance.  The
     * id is the one `Branch.set_id` draws from the shared counter
     * (`IdCounters.NextBranchId`); the caller draws it just before.
     */
    constructor (branchType: PortType, branchName: string, connections: seq<(string, StreamDirection)>,
                 settings: BasicTechnicalSettings, id: string)
      ensures branchId == id
      ensures this.branchType == branchType && this.branchName == branchName
      ensures this.connections == connections && this.settings == settings
      ensures runcount == 0 && !calculated && loopControlRules == [] && loopControlled == []
      ensures connected == map[] && portsConnected == map[] && balance == NoBalance
      ensures fixedPorts.keys == [] && adaptivePorts.keys == [] && tempFixed.keys == [] && tempAdaptive.keys == []
      ensures trace == []
      ensures Valid()
    {
      this.connections := connections;
      this.branchType := branchType;
      this.branchName := branchName;
      runcount := 0;
      branchId := id;
      this.settings := settings;
      calculated := false;
      loopControlRules := [];
      loopControlled := [];
      connected := map[];
      fixedPorts := Empty();
      tempFixed := Empty();
      adaptivePorts := Empty();
      tempAdaptive := Empty();
      portsConnected := map[];
      balance := NoBalance;
      trace := [];
      unitPorts := {};
    }

    /** `set_fixed_ports`. */
    method SetFixedPorts(m: PortMap)
      modifies this`fixedPorts
      ensures fixedPorts == m
    {
      fixedPorts := m;
    }

    /** `set_adaptive_ports`. */
    method SetAdaptivePorts(m: PortMap)
      modifies this`adaptivePorts
      ensures adaptivePorts == m
    {
      adaptivePorts := m;
    }

    /** `set_loop_control_rules`. */
    method SetLoopControlRules(rules: seq<string>)
      modifies this`loopControlRules
      ensures loopControlRules == rules
    {
      loopControlRules := rules;
    }

    /** `set_loop_controlled_components_empty`. */
    method SetLoopControlledComponentsEmpty()
      requires Valid()
      modifies this`loopControlled
      ensures loopControlled == [] && Valid()
    {
      loopControlled := [];
    }

    /**
     * `add_port_connection`: the component is registered under the name and
     * the port is stored under its id among the component's connected ports.
     * A name stands for one component throughout.
     */
    method AddPortConnection(name: string, c: Component, port: Port)
      requires Valid() && c.Valid() && port in c.ports
      requires name in connected ==> connected[name] == c
      modifies this`connected, this`portsConnected, this`unitPorts
      ensures Valid()
      ensures connected == old(connected)[name := c]
      ensures var before := if name in old(portsConnected) then old(portsConnected)[name] else [];
              portsConnected == old(portsConnected)[name := WithPort(before, port)]
      ensures Lookup(name, port.results.portId) == Ok(port)
    {
      var before := if name in portsConnected then portsConnected[name] else [];
      var units := connected[name := c];
      var stored := portsConnected[name := WithPort(before, port)];
      var covered := unitPorts + (set q | q in c.ports);
      assert forall u | u in units.Values :: u == c || u in connected.Values;
      assert forall u | u in units.Values :: u.Valid();
      assert forall u, q | u in units.Values && q in u.ports :: q in covered;
      assert forall n, q | n in stored && q in stored[n] :: q in units[n].ports;
      connected, unitPorts, portsConnected := units, covered, stored;
    }

    /** `ports_connected[name][port_id]`: KeyError for an unknown name or id. */
    function Lookup(name: string, id: string): (r: Result<Port>)
      reads this`portsConnected
      ensures r.Ok? ==> name in portsConnected && r.value in portsConnected[name] && r.value.results.portId == id
      ensures r.Ok? <==> name in portsConnected && HasId(portsConnected[name], id)
      ensures r.Err? ==> r.error == KeyError
    {
      if name in portsConnected then FindPort(portsConnected[name], id) else Err(KeyError)
    }

    /**
     * `get_ports_of_connected_component`: the connected ports of a component,
     * BranchError for a name that is not connected.
     */
    function GetPortsOfConnectedComponent(name: string): (r: Result<seq<Port>>)
      reads this`portsConnected
      ensures r.Ok? <==> name in portsConnected
      ensures r.Ok? ==> r.value == portsConnected[name]
      ensures r.Err? ==> r.error == BranchError
    {
      if name in portsConnected then Ok(portsConnected[name]) else Err(BranchError)
    }

    /** The sign of each listed port of a component, or the lookup error. */
    function SignsOf(name: string, ids: seq<string>): (r: seq<Result<StreamDirection>>)
      reads this`portsConnected, set p | p in ConnectedPorts() :: p.results
      ensures |r| == |ids|
      ensures forall i | 0 <= i < |ids| ::
                r[i] == (if Lookup(name, ids[i]).Ok? then Ok(Lookup(name, ids[i]).value.results.sign) else Err(KeyError))
      decreases |ids|
    {
      if |ids| == 0 then []
      else
        var front := SignsOf(name, ids[..|ids| - 1]);
        var found := Lookup(name, ids[|ids| - 1]);
        front + [if found.Ok? then Ok(found.value.results.sign) else Err(KeyError)]
    }

    // -------------------------------------------------------------------------
    // Folding ports into the balance
    // -------------------------------------------------------------------------

    /**
     * Folding one connected port into the balance: the balance becomes what
     * `Merge` gives, and the pressure and temperature `Merge` imposes are
     * written into the port.
     */
    method Fold(name: string, portId: string) returns (r: Result<()>)
      modifies this`balance, Found(Lookup(name, portId))`pressure, Found(Lookup(name, portId))`pressureStatus,
               Found(Lookup(name, portId))`temperature, Found(Lookup(name, portId))`temperatureStatus,
               Found(Lookup(name, portId))`updatedFluid
      ensures Lookup(name, portId).Err? ==> r == Err(KeyError) && balance == old(balance)
      ensures Lookup(name, portId).Ok? ==>
                var p := Lookup(name, portId).value;
                var m := old(Merge(balance, Reading(p)));
                && (m.Err? ==> r == Err(m.error) && balance == old(balance))
                && (m.Ok? ==> && r == Ok(()) && balance == m.value.balance
                              && p.pressure == (if m.value.pressure.Some? then m.value.pressure.value else old(p.pressure))
                              && p.temperature == (if m.value.temperature.Some? then m.value.temperature.value else old(p.temperature)))
    {
      var found := Lookup(name, portId);
      if found.Err? {
        return Err(found.error);
      }
      var p := found.value;
      var m := Merge(balance, Reading(p));
      if m.Err? {
        return Err(m.error);
      }
      balance := m.value.balance;
      if m.value.pressure.Some? {
        p.SetPressure(m.value.pressure.value);
      }
      if m.value.temperature.Some? {
        p.SetTemperature(m.value.temperature.value);
      }
      r := Ok(());
    }

    /** `Fold` seen from a loop over ports: the branch stays well formed and a success leaves a balance. */
    method FoldStep(name: string, portId: string) returns (r: Result<()>)
      requires Valid()
      modifies this`balance, unitPorts`pressure, unitPorts`pressureStatus, unitPorts`temperature,
               unitPorts`temperatureStatus, unitPorts`updatedFluid
      ensures Valid()
      ensures r.Ok? ==> !balance.NoBalance?
    {
      ConnectedPortsAreUnitPorts();
      assert Found(Lookup(name, portId)) <= ConnectedPorts();
      r := Fold(name, portId);
    }

    /** Folding every listed port of a component, in order; the first failure stops. */
    method FoldAll(name: string, ids: seq<string>) returns (r: Result<()>)
      requires Valid()
      modifies this`balance, unitPorts`pressure, unitPorts`pressureStatus, unitPorts`temperature,
               unitPorts`temperatureStatus, unitPorts`updatedFluid
      ensures Valid()
      ensures r.Ok? && ids != [] ==> !balance.NoBalance?
      ensures r.Ok? && !old(balance).NoBalance? ==> !balance.NoBalance?
    {
      var i := 0;
      while i < |ids|
        invariant 0 <= i <= |ids|
        invariant Valid()
        invariant (i > 0 || !old(balance).NoBalance?) ==> !balance.NoBalance?
      {
        r := FoldStep(name, ids[i]);
        if r.Err? {
          return;
        }
        i := i + 1;
      }
      r := Ok(());
    }

    // -------------------------------------------------------------------------
    // Running the connected components
    // -------------------------------------------------------------------------

    /**
     * `connected_components[name].run(port_id, required_port_value, runcount)`:
     * an unknown name is a KeyError; a gas storage runs its own rules, every
     * other unit the generic ones.  A successful run is recorded in the trace.
     */
    method Dispatch(name: string, portId: string, requested: real, runcount: nat) returns (r: Result<()>)
      requires Valid()
      modifies this`trace, Units()`status, Units()`massFraction, Units()`buffers, Units()`storageLevel,
               unitPorts`stream, unitPorts`pressure, unitPorts`temperature, unitPorts`pressureStatus,
               unitPorts`temperatureStatus, unitPorts`updatedFluid
      ensures Valid()
      ensures name !in connected ==> r == Err(KeyError)
      ensures r.Ok? ==> trace == old(trace) + [Dispatched(name, portId, requested)]
      ensures r.Err? ==> trace == old(trace)
    {
      if name !in connected {
        return Err(KeyError);
      }
      var c := connected[name];
      assert c in connected.Values;
      r := RunComponent(c, portId, requested, runcount);
      assert forall d | d in connected.Values :: d.ports == old(d.ports) && d.Valid();
      if r.Ok? {
        trace := trace + [Dispatched(name, portId, requested)];
      }
    }

    /** Runs the component on its `k`-th listed port, then folds every listed port into the balance. */
    method DispatchAndFold(name: string, ids: seq<string>, k: nat, requested: real, runcount: nat) returns (r: Result<()>)
      requires Valid() && k < |ids|
      modifies this`balance, this`trace, Units()`status, Units()`massFraction, Units()`buffers, Units()`storageLevel,
               unitPorts`stream, unitPorts`pressure, unitPorts`temperature, unitPorts`pressureStatus,
               unitPorts`temperatureStatus, unitPorts`updatedFluid
      ensures Valid()
      ensures name !in connected ==> r.Err?
      ensures r.Ok? ==> trace == old(trace) + [Dispatched(name, ids[k], requested)] && !balance.NoBalance?
    {
      r := Dispatch(name, ids[k], requested, runcount);
      if r.Ok? {
        r := FoldAll(name, ids);
      }
    }

    /**
     * One fixed component: it runs on the first of its fixed ports, offered
     * the negated balance (0 when there is none yet), and then every listed
     * port is folded into the balance.
     */
    method RunFixedOne(name: string, ids: seq<string>, runcount: nat) returns (r: Result<()>)
      requires Valid()
      modifies this`balance, this`trace, Units()`status, Units()`massFraction, Units()`buffers, Units()`storageLevel,
               unitPorts`stream, unitPorts`pressure, unitPorts`temperature, unitPorts`pressureStatus,
               unitPorts`temperatureStatus, unitPorts`updatedFluid
      ensures Valid()
      ensures ids == [] ==> r == Err(IndexError)
      ensures ids != [] && FixedRequest(old(balance)).Err? ==> r == Err(TypeError)
      ensures name !in connected ==> r.Err?
      ensures r.Ok? ==> && ids != [] && FixedRequest(old(balance)).Ok? && !balance.NoBalance?
                        && trace == old(trace) + [Dispatched(name, ids[0], FixedRequest(old(balance)).value)]
    {
      if ids == [] {
        return Err(IndexError);
      }
      var request := FixedRequest(balance);
      if request.Err? {
        return Err(request.error);
      }
      r := DispatchAndFold(name, ids, 0, request.value, runcount);
    }

    /**
     * One adaptive component: it runs on the first of its adaptive ports whose
     * direction can take up the balance, offered the negated balance, or on
     * its first port offered 0 when none can; then every listed port is
     * folded into the balance.
     */
    method RunAdaptiveOne(name: string, ids: seq<string>, signs: seq<Result<StreamDirection>>, runcount: nat)
      returns (r: Result<()>, ghost d: Dispatched)
      requires Valid() && signs == SignsOf(name, ids)
      modifies this`balance, this`trace, Units()`status, Units()`massFraction, Units()`buffers, Units()`storageLevel,
               unitPorts`stream, unitPorts`pressure, unitPorts`temperature, unitPorts`pressureStatus,
               unitPorts`temperatureStatus, unitPorts`updatedFluid
      ensures Valid()
      ensures r.Ok? ==> trace == old(trace) + [d] && d.name == name && d.portId in ids
      ensures var choice := AdaptiveChoice(old(balance), signs);
              && (choice.Err? ==> r == Err(choice.error))
              && (r.Ok? ==> choice.Ok? && d == Dispatched(name, ids[choice.value.0], choice.value.1))
      ensures name !in connected ==> r.Err?
    {
      var choice := AdaptiveChoice(balance, signs);
      if choice.Err? {
        r, d := Err(choice.error), Dispatched(name, "", 0.0);
      } else {
        d := Dispatched(name, ids[choice.value.0], choice.value.1);
        r := DispatchAndFold(name, ids, choice.value.0, choice.value.1, runcount);
      }
    }

    /** One key of the fixed phase: the step its loop repeats. */
    method FixedStep(keys: seq<string>, i: nat, names0: seq<string>, names: seq<string>, runcount: nat,
                      ghost t0: seq<Dispatched>, ghost calls: seq<Dispatched>)
      returns (r: Result<seq<string>>, ghost calls': seq<Dispatched>)
      requires Valid() && keys == tempFixed.keys && i < |keys|
      requires names == names0 + NotRun(keys[..i], names0)
      requires trace == t0 + calls && FixedCalls(calls, NotRun(keys[..i], names0), tempFixed)
      modifies this`balance, this`trace, Units()`status, Units()`massFraction, Units()`buffers, Units()`storageLevel,
               unitPorts`stream, unitPorts`pressure, unitPorts`temperature, unitPorts`pressureStatus,
               unitPorts`temperatureStatus, unitPorts`updatedFluid
      ensures Valid()
      ensures r.Ok? ==> r.value == names0 + NotRun(keys[..i + 1], names0)
      ensures r.Ok? ==> trace == t0 + calls' && FixedCalls(calls', NotRun(keys[..i + 1], names0), tempFixed)
    {
      var name := keys[i];
      NamesStep(keys, i, names0, names);
      calls' := calls;
      if name in names {
        return Ok(names), calls';
      }
      var one := RunFixedOne(name, tempFixed.entries[name], runcount);
      if one.Err? {
        return Err(one.error), calls';
      }
      FixedCallsAppend(calls, NotRun(keys[..i], names0), tempFixed, trace[|trace| - 1]);
      calls' := calls + [trace[|trace| - 1]];
      r := Ok(names + [name]);
    }

    /**
     * The fixed phase: every fixed component that has not run yet runs, in
     * the order of the fixed map, and is added to the names that have run.
     */
    method RunFixed(names0: seq<string>, runcount: nat) returns (r: Result<seq<string>>)
      requires Valid()
      modifies this`balance, this`trace, Units()`status, Units()`massFraction, Units()`buffers, Units()`storageLevel,
               unitPorts`stream, unitPorts`pressure, unitPorts`temperature, unitPorts`pressureStatus,
               unitPorts`temperatureStatus, unitPorts`updatedFluid
      ensures Valid()
      ensures r.Ok? ==> r.value == names0 + NotRun(tempFixed.keys, names0)
      ensures r.Ok? ==> |trace| >= |old(trace)| && FixedCalls(trace[|old(trace)|..], NotRun(tempFixed.keys, names0), tempFixed)
    {
      var keys := tempFixed.keys;
      var names := names0;
      ghost var calls: seq<Dispatched> := [];
      var i := 0;
      while i < |keys|
        invariant 0 <= i <= |keys|
        invariant Valid()
        invariant names == names0 + NotRun(keys[..i], names0)
        invariant trace == old(trace) + calls && FixedCalls(calls, NotRun(keys[..i], names0), tempFixed)
      {
        var step;
        step, calls := FixedStep(keys, i, names0, names, runcount, old(trace), calls);
        if step.Err? {
          return Err(step.error);
        }
        names := step.value;
        i := i + 1;
      }
      assert keys[..i] == keys;
      assert trace[|old(trace)|..] == calls;
      return Ok(names);
    }

    /** One key of the adaptive phase: the step its loop repeats. */
    method AdaptiveStep(keys: seq<string>, i: nat, names0: seq<string>, names: seq<string>, runcount: nat,
                      ghost t0: seq<Dispatched>, ghost calls: seq<Dispatched>)
      returns (r: Result<seq<string>>, ghost calls': seq<Dispatched>)
      requires Valid() && keys == tempAdaptive.keys && i < |keys|
      requires names == names0 + NotRun(keys[..i], names0)
      requires trace == t0 + calls && AdaptiveCalls(calls, NotRun(keys[..i], names0), tempAdaptive)
      modifies this`balance, this`trace, Units()`status, Units()`massFraction, Units()`buffers, Units()`storageLevel,
               unitPorts`stream, unitPorts`pressure, unitPorts`temperature, unitPorts`pressureStatus,
               unitPorts`temperatureStatus, unitPorts`updatedFluid
      ensures Valid()
      ensures r.Ok? ==> r.value == names0 + NotRun(keys[..i + 1], names0)
      ensures r.Ok? ==> trace == t0 + calls' && AdaptiveCalls(calls', NotRun(keys[..i + 1], names0), tempAdaptive)
    {
      var name := keys[i];
      NamesStep(keys, i, names0, names);
      calls' := calls;
      if name in names {
        return Ok(names), calls';
      }
      var ids := tempAdaptive.entries[name];
      var one, d := RunAdaptiveOne(name, ids, SignsOf(name, ids), runcount);
      if one.Err? {
        return Err(one.error), calls';
      }
      AdaptiveCallsAppend(calls, NotRun(keys[..i], names0), tempAdaptive, trace[|trace| - 1]);
      calls' := calls + [trace[|trace| - 1]];
      r := Ok(names + [name]);
    }

    /**
     * The adaptive phase: every adaptive component that has not run yet runs,
     * in the order of the adaptive map, and is added to the names that have run.
     */
    method RunAdaptive(names0: seq<string>, runcount: nat) returns (r: Result<seq<string>>)
      requires Valid()
      modifies this`balance, this`trace, Units()`status, Units()`massFraction, Units()`buffers, Units()`storageLevel,
               unitPorts`stream, unitPorts`pressure, unitPorts`temperature, unitPorts`pressureStatus,
               unitPorts`temperatureStatus, unitPorts`updatedFluid
      ensures Valid()
      ensures r.Ok? ==> r.value == names0 + NotRun(tempAdaptive.keys, names0)
      ensures r.Ok? ==> |trace| >= |old(trace)| && AdaptiveCalls(trace[|old(trace)|..], NotRun(tempAdaptive.keys, names0), tempAdaptive)
    {
      var keys := tempAdaptive.keys;
      var names := names0;
      ghost var calls: seq<Dispatched> := [];
      var i := 0;
      while i < |keys|
        invariant 0 <= i <= |keys|
        invariant Valid()
        invariant names == names0 + NotRun(keys[..i], names0)
        invariant trace == old(trace) + calls && AdaptiveCalls(calls, NotRun(keys[..i], names0), tempAdaptive)
      {
        var step;
        step, calls := AdaptiveStep(keys, i, names0, names, runcount, old(trace), calls);
        if step.Err? {
          return Err(step.error);
        }
        names := step.value;
        i := i + 1;
      }
      assert keys[..i] == keys;
      assert trace[|old(trace)|..] == calls;
      return Ok(names);
    }

    /**
     * Components that already ran in another branch are not run again: their
     * fixed ports, or else their adaptive ports, are folded into the balance.
     */
    method Absorb(names: seq<string>) returns (r: Result<()>)
      requires Valid()
      modifies this`balance, unitPorts`pressure, unitPorts`pressureStatus, unitPorts`temperature,
               unitPorts`temperatureStatus, unitPorts`updatedFluid
      ensures Valid()
      ensures r.Ok? && (exists n | n in names :: n in connected && n in tempFixed.entries && tempFixed.entries[n] != [])
              ==> !balance.NoBalance?
    {
      var i := 0;
      while i < |names|
        invariant 0 <= i <= |names|
        invariant Valid()
        invariant (exists n | n in names[..i] :: n in connected && n in tempFixed.entries && tempFixed.entries[n] != [])
                  ==> !balance.NoBalance?
      {
        var name := names[i];
        assert names[..i + 1] == names[..i] + [name];
        if name in connected {
          if name in tempFixed.entries {
            r := FoldAll(name, tempFixed.entries[name]);
            if r.Err? {
              return;
            }
          } else if name in tempAdaptive.entries {
            r := FoldAll(name, tempAdaptive.entries[name]);
            if r.Err? {
              return;
            }
          }
        }
        i := i + 1;
      }
      assert names[..i] == names;
      r := Ok(());
    }

    /** Every connected mass port is marked calculated (`set_status_calculated`). */
    method MarkCalculated()
      requires Valid()
      modifies unitPorts`pressureStatus, unitPorts`temperatureStatus, unitPorts`massFractionStatus,
               unitPorts`massStreamStatus
      ensures Valid()
      ensures forall p | p in ConnectedPorts() && p.kind == MassPort ::
                p.pressureStatus == 1 && p.temperatureStatus == 1 && p.massFractionStatus == 1 && p.massStreamStatus == 1
    {
      ConnectedPortsAreUnitPorts();
      var all := ConnectedPorts();
      var todo := all;
      while todo != {}
        invariant todo <= all
        invariant forall p | p in all - todo && p.kind == MassPort ::
                    p.pressureStatus == 1 && p.temperatureStatus == 1 && p.massFractionStatus == 1 && p.massStreamStatus == 1
        decreases |todo|
      {
        var p :| p in todo;
        p.SetStatusCalculated();
        todo := todo - {p};
      }
    }

    /**
     * The dictionaries an attempt works on.  A first run copies the
     * configured ones; a rerun keeps what loop control has left and refills
     * only an empty one, and starts from an empty balance.
     */
    method Prepare(rerun: bool)
      requires Valid()
      modifies this`tempFixed, this`tempAdaptive, this`balance
      ensures Valid()
      ensures !rerun ==> tempFixed == fixedPorts && tempAdaptive == adaptivePorts && balance == old(balance)
      ensures rerun ==> && tempFixed == (if old(tempFixed).entries == map[] then fixedPorts else old(tempFixed))
                        && tempAdaptive == (if old(tempAdaptive).entries == map[] then adaptivePorts else old(tempAdaptive))
                        && balance == NoBalance
    {
      tempAdaptive := if !rerun || tempAdaptive.entries == map[] then adaptivePorts else tempAdaptive;
      tempFixed := if !rerun || tempFixed.entries == map[] then fixedPorts else tempFixed;
      balance := if rerun then NoBalance else balance;
    }

    // -------------------------------------------------------------------------
    // Loop control (Branches.py:424-491)
    // -------------------------------------------------------------------------

    /**
     * One rule of `loop_control`: the override for the named component and
     * the residual left after it.  The port is the one `ControlPortFrom`
     * picks among the component's connected ports and the value the one
     * `ControlValue` gives it; the residual drops by what the override takes
     * off the port's stream.  A name that is not connected is a BranchError,
     * a port without a stream a TypeError, and a clamp to an infinite limit
     * is refused.
     */
    function ControlStep(name: string, residual: real, attempt: int): (r: Result<(Control, real)>)
      reads this`portsConnected, this`connected, ConnectedPorts()`stream, ConnectedPorts()`streamLimits,
            set p | p in ConnectedPorts() :: p.results
      ensures name !in portsConnected ==> r == Err(BranchError)
      ensures r.Ok? ==> && name in portsConnected && name in connected && |portsConnected[name]| > 0
                        && var ports := portsConnected[name];
                           var k := ControlPortFrom(StreamsOf(ports), residual, 0);
                           && k.Ok? && r.value.0 == Control(name, connected[name], ports[k.value], r.value.0.value)
                           && ports[k.value].stream.Some?
                           && Fin(r.value.0.value) == ControlValue(ports[k.value].results.sign, ports[k.value].streamLimits,
                                                                   ports[k.value].stream.value, residual, attempt)
                           && r.value.1 == residual - (ports[k.value].stream.value - r.value.0.value)
    {
      if name !in portsConnected then Err(BranchError)
      else
        var ports := portsConnected[name];
        assert forall q | q in ports :: q in ConnectedPorts();
        if |ports| == 0 then Err(UnboundLocalError)
        else
          var k := ControlPortFrom(StreamsOf(ports), residual, 0);
          if k.Err? then Err(k.error)
          else
            var port := ports[k.value];
            var current := port.stream.value;
            var value := ControlValue(port.results.sign, port.streamLimits, current, residual, attempt);
            if !value.Fin? then Err(InfiniteStream)
            else if name !in connected then Err(KeyError)
            else Ok((Control(name, connected[name], port, value.r), residual - (current - value.r)))
    }

    /**
     * The overrides `loop_control` gives for the listed rules, starting from
     * a residual, and the residual left: it stops before the next rule as
     * soon as the residual is within the tolerance.
     */
    ghost function Controls(rules: seq<string>, residual: real, attempt: int, tol: real): (r: Result<(seq<Control>, real)>)
      reads this`portsConnected, this`connected, ConnectedPorts()`stream, ConnectedPorts()`streamLimits,
            set p | p in ConnectedPorts() :: p.results
      decreases |rules|
    {
      if |rules| == 0 || AbsR(residual) <= tol then Ok(([], residual))
      else
        var step := ControlStep(rules[0], residual, attempt);
        if step.Err? then Err(step.error)
        else
          var rest := Controls(rules[1..], step.value.1, attempt, tol);
          if rest.Err? then rest else Ok(([step.value.0] + rest.value.0, rest.value.1))
    }

    /**
     * The overrides follow the rules in order, one per rule reached.
     */
    lemma {:induction false} ControlsFollowRules(rules: seq<string>, residual: real, attempt: int, tol: real)
      ensures var r := Controls(rules, residual, attempt, tol);
              r.Ok? ==> && |r.value.0| <= |rules|
                        && forall j | 0 <= j < |r.value.0| :: r.value.0[j].name == rules[j]
      decreases |rules|
    {
      var r := Controls(rules, residual, attempt, tol);
      if |rules| > 0 && AbsR(residual) > tol && r.Ok? {
        var step := ControlStep(rules[0], residual, attempt);
        ControlsFollowRules(rules[1..], step.value.1, attempt, tol);
        var rest := Controls(rules[1..], step.value.1, attempt, tol);
        assert r.value.0 == [step.value.0] + rest.value.0;
        forall j | 1 <= j < |r.value.0| ensures r.value.0[j].name == rules[j] {
          assert r.value.0[j] == rest.value.0[j - 1] && rules[j] == rules[1..][j - 1];
        }
      }
    }

    /**
     * Loop control stops early only within the tolerance, and overrides
     * nothing when it starts within it.
     */
    lemma {:induction false} ControlsStopWithinTolerance(rules: seq<string>, residual: real, attempt: int, tol: real)
      ensures var r := Controls(rules, residual, attempt, tol);
              r.Ok? ==> && (|r.value.0| < |rules| ==> AbsR(r.value.1) <= tol)
                        && (|r.value.0| > 0 ==> AbsR(residual) > tol)
      decreases |rules|
    {
      var r := Controls(rules, residual, attempt, tol);
      if |rules| > 0 && AbsR(residual) > tol && r.Ok? {
        var step := ControlStep(rules[0], residual, attempt);
        ControlsStopWithinTolerance(rules[1..], step.value.1, attempt, tol);
      }
    }

    /** Overrides that name connected components, hold one of their connected ports, and can be applied. */
    ghost predicate Applicable(ctls: seq<Control>)
      reads this`portsConnected, this`connected
    {
      forall j | 0 <= j < |ctls| ::
        && ctls[j].name in portsConnected && ctls[j].name in connected
        && ctls[j].unit == connected[ctls[j].name] && ctls[j].port in portsConnected[ctls[j].name]
    }

    /**
     * The rule loop of `loop_control`, computing the overrides: it yields
     * the plan `Controls` describes, or, when a rule fails, the overrides of
     * the rules before it and the error.
     */
    method PlanControls(residual0: real, attempt: int, ghost plan: Result<(seq<Control>, real)>)
      returns (ctls: seq<Control>, r: Result<real>)
      requires plan == Controls(loopControlRules, residual0, attempt, settings.absoluteModelError)
      ensures Applicable(ctls)
      ensures plan.Err? ==> r == Err(plan.error)
      ensures plan.Ok? ==> r == Ok(plan.value.1) && ctls == plan.value.0
    {
      var tol := settings.absoluteModelError;
      var rules := loopControlRules;
      var residual := residual0;
      assert rules[0..] == rules;
      assert plan.Ok? ==> [] + plan.value.0 == plan.value.0;
      ctls := [];
      var i := 0;
      while i < |rules| && AbsR(residual) > tol
        invariant 0 <= i <= |rules|
        invariant plan == After(ctls, Controls(rules[i..], residual, attempt, tol))
        invariant Applicable(ctls)
      {
        assert rules[i..][0] == rules[i] && rules[i..][1..] == rules[i + 1..];
        var step := ControlStep(rules[i], residual, attempt);
        ghost var rest := Controls(rules[i + 1..], if step.Ok? then step.value.1 else 0.0, attempt, tol);
        assert step.Err? ==> Controls(rules[i..], residual, attempt, tol) == Err(step.error);
        if step.Err? {
          return ctls, Err(step.error);
        }
        assert Controls(rules[i..], residual, attempt, tol) ==
               if rest.Err? then rest else Ok(([step.value.0] + rest.value.0, rest.value.1));
        assert rest.Ok? ==> ctls + ([step.value.0] + rest.value.0) == (ctls + [step.value.0]) + rest.value.0;
        ctls := ctls + [step.value.0];
        residual := step.value.1;
        i := i + 1;
      }
      return ctls, Ok(residual);
    }

    /** One override applied: the component holds it and its name is recorded; no other component changes. */
    method ApplyOne(ctl: Control)
      requires Valid() && ctl.name in portsConnected && ctl.name in connected
      requires ctl.unit == connected[ctl.name] && ctl.port in portsConnected[ctl.name]
      modifies this`loopControlled, Units()`loopControl
      ensures Valid()
      ensures loopControlled == old(loopControlled) + [ctl.name]
      ensures Carries(ctl.unit, ctl.port, ctl.value)
      ensures forall u | u in Units() && u != ctl.unit :: u.loopControl == old(u.loopControl)
    {
      assert ctl.unit in connected.Values;
      ctl.unit.SetControlledActivePort(ctl.port, ctl.value);
      loopControlled := loopControlled + [ctl.name];
    }

    /**
     * Applying the overrides in order (`set_controlled_active_port` and the
     * append to `loop_controlled_components`): each component ends up
     * holding the last override it was given.
     */
    method ApplyControls(ctls: seq<Control>)
      requires Valid() && Applicable(ctls)
      modifies this`loopControlled, Units()`loopControl
      ensures Valid()
      ensures loopControlled == old(loopControlled) + NamesOf(ctls)
      ensures forall u | u in Units() ::
                && (LastFor(ctls, u).Some? ==> Carries(u, LastFor(ctls, u).value.port, LastFor(ctls, u).value.value))
                && (LastFor(ctls, u).None? ==> u.loopControl == old(u.loopControl))
    {
      var i := 0;
      while i < |ctls|
        invariant 0 <= i <= |ctls|
        invariant Valid()
        invariant loopControlled == old(loopControlled) + NamesOf(ctls[..i])
        invariant forall u | u in Units() ::
                    && (LastFor(ctls[..i], u).Some? ==> Carries(u, LastFor(ctls[..i], u).value.port, LastFor(ctls[..i], u).value.value))
                    && (LastFor(ctls[..i], u).None? ==> u.loopControl == old(u.loopControl))
      {
        var ctl := ctls[i];
        ApplyOne(ctl);
        PrefixStep(ctls, i, Units());
        i := i + 1;
      }
      assert ctls[..i] == ctls;
    }

    /**
     * The promotion pass of `loop_control`: each loop-controlled component
     * that is not on the fixed side yet is moved there with all its
     * connected ports.
     */
    method MoveToFixed()
      requires Valid()
      modifies this`tempFixed, this`tempAdaptive
      ensures (tempFixed, tempAdaptive) == Promote(old(tempFixed), old(tempAdaptive), loopControlled, IdMap())
    {
      var i := 0;
      while i < |loopControlled|
        invariant 0 <= i <= |loopControlled|
        invariant (tempFixed, tempAdaptive) == Promote(old(tempFixed), old(tempAdaptive), loopControlled[..i], IdMap())
      {
        var name := loopControlled[i];
        assert loopControlled[..i + 1][..i] == loopControlled[..i];
        if name !in tempFixed.entries {
          tempFixed := tempFixed.Put(name, PortIds(portsConnected[name]));
          if name in tempAdaptive.entries {
            tempAdaptive := tempAdaptive.Remove(name);
          }
        }
        i := i + 1;
      }
      assert loopControlled[..i] == loopControlled;
    }

    /**
     * The rule loop of `loop_control`: the overrides the plan gives are
     * applied, also those before a failing rule, and the residual left is
     * returned.
     */
    method RunRules(residual0: real, attempt: int) returns (r: Result<real>, ctls: seq<Control>)
      requires Valid()
      modifies this`loopControlled, Units()`loopControl
      ensures Valid()
      ensures var plan := old(Controls(loopControlRules, residual0, attempt, settings.absoluteModelError));
              && (plan.Err? ==> r == Err(plan.error))
              && (plan.Ok? ==> r == Ok(plan.value.1) && ctls == plan.value.0)
      ensures loopControlled == old(loopControlled) + NamesOf(ctls)
      ensures forall u | u in Units() ::
                && (LastFor(ctls, u).Some? ==> Carries(u, LastFor(ctls, u).value.port, LastFor(ctls, u).value.value))
                && (LastFor(ctls, u).None? ==> u.loopControl == old(u.loopControl))
    {
      ghost var plan := Controls(loopControlRules, residual0, attempt, settings.absoluteModelError);
      ctls, r := PlanControls(residual0, attempt, plan);
      ApplyControls(ctls);
    }

    /**
     * The end of `loop_control`: a rerun is asked for when the signed
     * residual left is within the tolerance or this is not the first
     * attempt, and then every loop-controlled component is promoted to the
     * fixed side (the source does it twice, to no further effect).
     */
    method Settle(left: real, attempt: int) returns (rerun: bool)
      requires Valid()
      modifies this`tempFixed, this`tempAdaptive
      ensures Valid()
      ensures rerun == (left <= settings.absoluteModelError || attempt > 1)
      ensures rerun ==> (tempFixed, tempAdaptive) == Promote(old(tempFixed), old(tempAdaptive), loopControlled, IdMap())
      ensures !rerun ==> tempFixed == old(tempFixed) && tempAdaptive == old(tempAdaptive)
    {
      rerun := left <= settings.absoluteModelError || attempt > 1;
      if rerun {
        MoveToFixed();
        MoveToFixed();
        PromoteIdempotent(old(tempFixed), old(tempAdaptive), loopControlled, IdMap());
      }
    }

    /** `loop_control`: the rules are run, then the branch settles whether to rerun. */
    method LoopControl(residual0: real, attempt: int) returns (r: Result<bool>, ctls: seq<Control>)
      requires Valid()
      modifies this`loopControlled, this`tempFixed, this`tempAdaptive, Units()`loopControl
      ensures Valid()
      ensures var plan := old(Controls(loopControlRules, residual0, attempt, settings.absoluteModelError));
              && (plan.Err? ==> r == Err(plan.error))
              && (plan.Ok? ==> && ctls == plan.value.0
                               && r == Ok(plan.value.1 <= settings.absoluteModelError || attempt > 1))
      ensures loopControlled == old(loopControlled) + NamesOf(ctls)
      ensures forall u | u in Units() ::
                && (LastFor(ctls, u).Some? ==> Carries(u, LastFor(ctls, u).value.port, LastFor(ctls, u).value.value))
                && (LastFor(ctls, u).None? ==> u.loopControl == old(u.loopControl))
      ensures r == Ok(true) ==> (tempFixed, tempAdaptive) == Promote(old(tempFixed), old(tempAdaptive), loopControlled, IdMap())
      ensures r != Ok(true) ==> tempFixed == old(tempFixed) && tempAdaptive == old(tempAdaptive)
    {
      var left;
      left, ctls := RunRules(residual0, attempt);
      if left.Err? {
        return Err(left.error), ctls;
      }
      var rerun := Settle(left.value, attempt);
      r := Ok(rerun);
    }

    // -------------------------------------------------------------------------
    // The attempt loop (Branches.py:270-422)
    // -------------------------------------------------------------------------

    /**
     * One pass of the `while` loop of `run`: the dictionaries are prepared
     * (and the connected ports marked calculated on a rerun), components run
     * by other branches are folded in, the fixed and then the adaptive
     * components run, and the balance is checked.  Within the tolerance, the
     * branch is calculated and the names run are handed on; outside it, loop
     * control decides whether to rerun and the names are dropped.  An empty
     * balance is a KeyError, a balance without a stream a TypeError.
     */
    method Attempt(names0: seq<string>, runcount: nat, rerun: bool, attempt: int) returns (r: Result<(bool, seq<string>, bool)>)
      requires Valid()
      modifies this`balance, this`trace, this`tempFixed, this`tempAdaptive, this`calculated, this`loopControlled,
               Units()`status, Units()`massFraction, Units()`buffers, Units()`storageLevel, Units()`loopControl,
               unitPorts`stream, unitPorts`pressure, unitPorts`temperature, unitPorts`pressureStatus,
               unitPorts`temperatureStatus, unitPorts`updatedFluid, unitPorts`massFractionStatus, unitPorts`massStreamStatus
      ensures Valid()
      ensures r.Err? ==> calculated == old(calculated)
      ensures r.Ok? ==> !balance.NoBalance? && balance.stream.Some?
      ensures r.Ok? && r.value.2 ==> && calculated && Balanced(balance, settings.absoluteModelError) && r.value.0 == rerun
                                     && var names1 := names0 + NotRun(tempFixed.keys, names0);
                                        r.value.1 == names1 + NotRun(tempAdaptive.keys, names1)
      ensures r.Ok? && !r.value.2 ==> && calculated == old(calculated) && !Balanced(balance, settings.absoluteModelError)
                                      && r.value.1 == [] && (attempt > 1 ==> r.value.0)
    {
      Setup(rerun);
      var names := RunComponents(names0, runcount);
      if names.Err? {
        return Err(names.error);
      }
      r := Conclude(names.value, rerun, attempt);
    }

    /** The start of an attempt: the dictionaries, and on a rerun the port statuses. */
    method Setup(rerun: bool)
      requires Valid()
      modifies this`tempFixed, this`tempAdaptive, this`balance, unitPorts`pressureStatus, unitPorts`temperatureStatus,
               unitPorts`massFractionStatus, unitPorts`massStreamStatus
      ensures Valid()
    {
      Prepare(rerun);
      if rerun {
        MarkCalculated();
      }
    }

    /**
     * The components of an attempt: those run by other branches are folded
     * in, then the fixed and the adaptive ones run; the names run grow by
     * the fixed and then the adaptive components not run before.
     */
    method RunComponents(names0: seq<string>, runcount: nat) returns (r: Result<seq<string>>)
      requires Valid()
      modifies this`balance, this`trace, Units()`status, Units()`massFraction, Units()`buffers, Units()`storageLevel,
               unitPorts`stream, unitPorts`pressure, unitPorts`temperature, unitPorts`pressureStatus,
               unitPorts`temperatureStatus, unitPorts`updatedFluid
      ensures Valid()
      ensures r.Ok? ==> var names1 := names0 + NotRun(tempFixed.keys, names0);
                        r.value == names1 + NotRun(tempAdaptive.keys, names1)
    {
      var absorbed := Absorb(names0);
      if absorbed.Err? {
        return Err(absorbed.error);
      }
      var names1 := RunFixed(names0, runcount);
      if names1.Err? {
        return Err(names1.error);
      }
      r := RunAdaptive(names1.value, runcount);
    }

    /**
     * The end of an attempt: within the tolerance the branch is calculated;
     * outside it loop control runs.  An empty balance is a KeyError, a
     * balance without a stream a TypeError.
     */
    method Conclude(names: seq<string>, rerun: bool, attempt: int) returns (r: Result<(bool, seq<string>, bool)>)
      requires Valid()
      modifies this`calculated, this`loopControlled, this`tempFixed, this`tempAdaptive, Units()`loopControl
      ensures Valid()
      ensures balance.NoBalance? ==> r == Err(KeyError)
      ensures !balance.NoBalance? && balance.stream.None? ==> r == Err(TypeError)
      ensures r.Err? ==> calculated == old(calculated)
      ensures r.Ok? && r.value.2 ==> && calculated && Balanced(balance, settings.absoluteModelError)
                                     && r.value == (rerun, names, true)
                                     && tempFixed == old(tempFixed) && tempAdaptive == old(tempAdaptive)
      ensures r.Ok? && !r.value.2 ==> && calculated == old(calculated) && !Balanced(balance, settings.absoluteModelError)
                                      && r.value.1 == [] && (attempt > 1 ==> r.value.0)
      ensures r.Ok? ==> (r.value.2 <==> Balanced(balance, settings.absoluteModelError))
    {
      if balance.NoBalance? {
        return Err(KeyError);
      }
      if balance.stream.None? {
        return Err(TypeError);
      }
      if AbsR(balance.stream.value) > settings.absoluteModelError {
        var lc, _ := LoopControl(balance.stream.value, attempt);
        if lc.Err? {
          return Err(lc.error);
        }
        r := Ok((lc.value, [], false));
      } else {
        calculated := true;
        r := Ok((rerun, names, true));
      }
    }

    /**
     * `Branch.run`: the balance is emptied and the branch marked
     * uncalculated, then attempts are made until one balances or
     * `timeout_max` attempts have been made.  Reaching `timeout_max` is a
     * BranchError even when the last attempt balanced; with `timeout_max`
     * 0 the error message refers to names no attempt has bound, an
     * UnboundLocalError.  The result is the rerun flag, the names run and
     * whether loop control reset the run.
     */
    method Run(names0: seq<string>, runcount: nat, rerun0: bool) returns (r: Result<(bool, seq<string>, bool)>, ghost attempts: int)
      requires Valid()
      modifies this`runcount, this`balance, this`trace, this`tempFixed, this`tempAdaptive, this`calculated, this`loopControlled,
               Units()`status, Units()`massFraction, Units()`buffers, Units()`storageLevel, Units()`loopControl,
               unitPorts`stream, unitPorts`pressure, unitPorts`temperature, unitPorts`pressureStatus,
               unitPorts`temperatureStatus, unitPorts`updatedFluid, unitPorts`massFractionStatus, unitPorts`massStreamStatus
      ensures Valid()
      ensures this.runcount == runcount
      ensures settings.timeoutMax <= 0 ==> attempts == 0 && balance == NoBalance && !calculated
      ensures settings.timeoutMax == 0 ==> r == Err(UnboundLocalError)
      ensures settings.timeoutMax < 0 ==> r == Ok((rerun0, names0, false))
      ensures settings.timeoutMax > 0 ==> 1 <= attempts <= settings.timeoutMax
      ensures calculated ==> Balanced(balance, settings.absoluteModelError)
      ensures attempts == settings.timeoutMax ==> r.Err?
      ensures calculated && attempts == settings.timeoutMax ==> r == Err(BranchError)
      ensures r.Ok? && settings.timeoutMax > 0 ==> calculated && attempts < settings.timeoutMax && (r.value.2 <==> attempts > 1)
    {
      balance, calculated, this.runcount := NoBalance, false, runcount;
      var tmax := settings.timeoutMax;
      var reset, runAgain, timeout := false, true, 0;
      var rerun, names := rerun0, names0;
      while runAgain && timeout < tmax
        invariant Valid() && this.runcount == runcount
        invariant 0 <= timeout && (tmax >= 0 ==> timeout <= tmax) && (tmax <= 0 ==> timeout == 0)
        invariant timeout == 0 ==> balance == NoBalance && !calculated && rerun == rerun0 && names == names0
        invariant runAgain ==> !calculated
        invariant !runAgain ==> calculated && timeout > 0
        invariant calculated ==> Balanced(balance, settings.absoluteModelError)
        invariant reset <==> timeout > 1 || (timeout == 1 && runAgain)
        decreases tmax - timeout
      {
        timeout := timeout + 1;
        var a := Attempt(names, runcount, rerun, timeout);
        if a.Err? {
          return Err(a.error), timeout;
        }
        if a.value.2 {
          names, runAgain := a.value.1, false;
        } else {
          rerun, reset, names := a.value.0, true, [];
        }
      }
      attempts := timeout;
      if timeout == tmax {
        r := if tmax == 0 then Err(UnboundLocalError) else Err(BranchError);
      } else {
        r := Ok((rerun, names, reset));
      }
    }
  }
}
