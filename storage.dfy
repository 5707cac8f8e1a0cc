/**
 * The arithmetic of a storage step (modules/Storage.py, modules/Storage_Gas.py):
 * the power/energy conversions, the buffer levels a run starts from, the
 * energy the storage is asked for, the clamp to its charge power, the buffer
 * update with its overflow and underflow corrections, and the level history.
 *
 * Charge power `None` stands for the default `math.inf`.
 */
module Storages {
  import opened Wrappers
  import opened CustomErrors
  import opened ExtReal
  import opened RangeLimits

  /** `power_to_energy`: a power held over one timestep of `tr` minutes. */
  function PowerToEnergy(value: real, tr: int): (r: real)
    ensures r * 60.0 == value * (tr as real)
  {
    value * (tr as real) / 60.0
  }

  /** `energy_to_power`: ZeroDivisionError for a zero time resolution. */
  function EnergyToPower(value: real, tr: int): (r: Result<real>)
    ensures r.Err? <==> tr == 0
    ensures r.Err? ==> r.error == ZeroDivisionError
  {
    if tr == 0 then Err(ZeroDivisionError) else Ok(value * 60.0 / (tr as real))
  }

  /** The two conversions undo each other whenever the time resolution is not zero. */
  lemma EnergyPowerRoundTrip(value: real, tr: int)
    requires tr != 0
    ensures EnergyToPower(PowerToEnergy(value, tr), tr) == Ok(value)
    ensures EnergyToPower(value, tr).Ok? && PowerToEnergy(EnergyToPower(value, tr).value, tr) == value
  {
    var t := tr as real;
    var e := value * t / 60.0;
    assert PowerToEnergy(value, tr) == e;
    assert e * 60.0 == value * t;
    assert e * 60.0 / t == value;
    assert EnergyToPower(e, tr) == Ok(e * 60.0 / t);
    var p := value * 60.0 / t;
    assert p * t == value * 60.0;
    assert p * t / 60.0 == value;
  }

  // ---------------------------------------------------------------------------
  // The levels a run starts from (Storage_Gas.py:340-349)
  // ---------------------------------------------------------------------------

  /** `buffer_old`, `buffer_new` and `runcount_old` of a storage. */
  datatype Buffers = Buffers(bufferOld: real, bufferNew: real, runcountOld: int)

  /**
   * Runcount 0 restarts from the initial level; a runcount other than the
   * last one seen moves the level reached so far into `buffer_old`.
   */
  function StartBuffers(b: Buffers, init: real, runcount: nat): (r: Buffers)
    ensures r.runcountOld == runcount
    ensures runcount == 0 ==> r.bufferOld == init && r.bufferNew == init
    ensures runcount != 0 && runcount == b.runcountOld ==> r == b
    ensures runcount != 0 && runcount != b.runcountOld ==> r.bufferOld == b.bufferNew && r.bufferNew == b.bufferNew
  {
    var reset := if runcount == 0 then Buffers(init, init, 0) else b;
    if runcount != reset.runcountOld then Buffers(reset.bufferNew, reset.bufferNew, runcount) else reset
  }

  /**
   * A rerun of the same timestep starts from the level the first run started
   * from, whatever level that first run reached.
   */
  lemma RerunStartsFromSameLevel(b: Buffers, init: real, runcount: nat, reached: real)
    ensures var first := StartBuffers(b, init, runcount);
            StartBuffers(first.(bufferNew := reached), init, runcount).bufferOld == first.bufferOld
  {
  }

  /** Moving to a new timestep starts from the level the previous run reached. */
  lemma NextStepStartsFromReachedLevel(b: Buffers, init: real, runcount: nat, reached: real)
    requires runcount > 0
    ensures var first := StartBuffers(b, init, runcount);
            StartBuffers(first.(bufferNew := reached), init, runcount + 1).bufferOld == reached
  {
  }

  // ---------------------------------------------------------------------------
  // The energy of one run (Storage_Gas.py:351-362)
  // ---------------------------------------------------------------------------

  /**
   * An active storage outside loop control asks for its full size when its
   * charge power exceeds the power that empties it in one step, else for one
   * step of charge power.  Without a size or a time resolution the conversion
   * fails with TypeError, and a zero time resolution divides by zero.
   */
  function StorageRequest(activeRun: bool, requested: real, size: Option<real>, chargePower: Option<real>,
                          tr: Option<int>): (r: Result<real>)
    ensures !activeRun ==> r == Ok(requested)
    ensures activeRun ==> (r.Err? <==> size.None? || tr.None? || tr.value == 0)
    ensures activeRun && r.Ok? ==>
              r.value == size.value || (chargePower.Some? && r.value == PowerToEnergy(chargePower.value, tr.value))
    ensures activeRun && r.Ok? && chargePower.None? ==> r.value == size.value
  {
    if !activeRun then Ok(requested)
    else if size.None? || tr.None? then Err(TypeError)
    else
      var full :- EnergyToPower(size.value, tr.value);
      if chargePower.None? || chargePower.value > full then Ok(size.value)
      else Ok(PowerToEnergy(chargePower.value, tr.value))
  }

  /**
   * The clamp to ± one step of charge power.  With the default infinite charge
   * power the bounds are infinite for a positive resolution and not a number
   * for a zero one, so nothing is clamped; a negative resolution turns the
   * bounds around, which drives the stream to minus infinity.
   */
  function ChargeClamp(e: real, chargePower: Option<real>, tr: Option<int>): (r: Result<real>)
    ensures r.Err? <==> tr.None? || (chargePower.None? && tr.value < 0)
    ensures r.Err? ==> r.error == TypeError || r.error == InfiniteStream
    ensures r.Ok? && chargePower.None? ==> r.value == e
    ensures r.Ok? && chargePower.Some? && PowerToEnergy(chargePower.value, tr.value) >= 0.0 ==>
              var bound := PowerToEnergy(chargePower.value, tr.value);
              -bound <= r.value <= bound && (-bound <= e <= bound ==> r.value == e)
  {
    if tr.None? then Err(TypeError)
    else if chargePower.None? then
      if tr.value < 0 then Err(InfiniteStream) else Ok(e)
    else
      var bound := PowerToEnergy(chargePower.value, tr.value);
      Ok(RangeLimit(Fin(e), Fin(-bound), Fin(bound)).r)
  }

  // ---------------------------------------------------------------------------
  // The buffer update (Storage_Gas.py:364-380)
  // ---------------------------------------------------------------------------

  /** The stream actually exchanged and the level it leaves. */
  datatype Exchange = Exchange(stream: real, level: real)

  /** The level before any correction: charging is scaled by the efficiency, discharging divided by it. */
  function Uncorrected(bufferOld: real, e: real, eff: real): (r: Result<real>)
    ensures r.Err? <==> e >= 0.0 && eff == 0.0
    ensures r.Err? ==> r.error == ZeroDivisionError
  {
    if e < 0.0 then Ok(bufferOld - e * eff)
    else if eff == 0.0 then Err(ZeroDivisionError)
    else Ok(bufferOld - e / eff)
  }

  /**
   * The buffer update as written: an overflow adds `buffer_new - size / eff` to
   * the stream, an underflow adds `buffer_new * eff`.
   */
  function BufferStepAsWritten(bufferOld: real, e: real, eff: real, size: Option<real>): (r: Result<Exchange>)
    ensures r.Err? <==> eff == 0.0 && (e >= 0.0 || (size.Some? && bufferOld > size.value))
    ensures r.Err? ==> r.error == ZeroDivisionError
    ensures r.Ok? && size.Some? && size.value >= 0.0 ==> 0.0 <= r.value.level <= size.value
    ensures r.Ok? && size.None? ==> r.value.stream == e
    ensures r.Ok? && r.value.stream >= 0.0 ==> eff != 0.0
  {
    var level :- Uncorrected(bufferOld, e, eff);
    if size.None? then Ok(Exchange(e, level))
    else if level > size.value then
      if eff == 0.0 then Err(ZeroDivisionError)
      else Ok(Exchange(e + (level - size.value / eff), size.value))
    else if level < 0.0 then Ok(Exchange(e + level * eff, 0.0))
    else Ok(Exchange(e, level))
  }

  /**
   * The buffer update with the overflow correction `(buffer_new - size) / eff`,
   * the stream that fills the storage exactly to its size.
   */
  function BufferStep(bufferOld: real, e: real, eff: real, size: Option<real>): (r: Result<Exchange>)
    ensures r.Err? <==> eff == 0.0 && (e >= 0.0 || (size.Some? && bufferOld > size.value))
    ensures r.Err? ==> r.error == ZeroDivisionError
    ensures r.Ok? && size.Some? && size.value >= 0.0 ==> 0.0 <= r.value.level <= size.value
    ensures r.Ok? && size.None? ==> r.value.stream == e
    ensures r.Ok? && r.value.stream >= 0.0 ==> eff != 0.0
  {
    var level :- Uncorrected(bufferOld, e, eff);
    if size.None? then Ok(Exchange(e, level))
    else if level > size.value then
      if eff == 0.0 then Err(ZeroDivisionError)
      else Ok(Exchange(e + (level - size.value) / eff, size.value))
    else if level < 0.0 then Ok(Exchange(e + level * eff, 0.0))
    else Ok(Exchange(e, level))
  }

  /** The uncorrected level would exceed the storage's size, so the overflow correction applies. */
  predicate Overflows(bufferOld: real, e: real, eff: real, size: Option<real>)
  {
    size.Some? && Uncorrected(bufferOld, e, eff).Ok? && Uncorrected(bufferOld, e, eff).value > size.value
  }

  /**
   * The update as written and the corrected one differ only in the overflow
   * correction, and there only when the efficiency is not 1.
   */
  lemma BufferStepAgreesUnlessLossyOverflow(bufferOld: real, e: real, eff: real, size: Option<real>)
    ensures !Overflows(bufferOld, e, eff, size) || eff == 1.0 ==>
              BufferStepAsWritten(bufferOld, e, eff, size) == BufferStep(bufferOld, e, eff, size)
  {
  }

  /** The level change a stream causes: charging scaled by the efficiency, discharging divided by it. */
  function Drawn(stream: real, eff: real): real
    requires stream < 0.0 || eff != 0.0
  {
    if stream < 0.0 then stream * eff else stream / eff
  }

  /**
   * With a positive efficiency and a level within the storage, the corrected
   * update conserves: the new level is the old one less what the exchanged
   * stream draws.  The exchanged stream keeps the requested direction and never
   * exceeds it in magnitude.
   */
  lemma BufferStepConserves(bufferOld: real, e: real, eff: real, size: Option<real>)
    requires eff > 0.0
    requires size.Some? ==> 0.0 <= bufferOld <= size.value
    ensures BufferStep(bufferOld, e, eff, size).Ok?
    ensures var x := BufferStep(bufferOld, e, eff, size).value;
            x.level == bufferOld - Drawn(x.stream, eff)
    ensures var x := BufferStep(bufferOld, e, eff, size).value;
            (e <= 0.0 ==> e <= x.stream <= 0.0) && (e >= 0.0 ==> 0.0 <= x.stream <= e)
  {
    if e >= 0.0 {
      DischargeConserves(bufferOld, e, eff, size);
    } else {
      ChargeConserves(bufferOld, e, eff, size);
    }
  }

  lemma DischargeConserves(bufferOld: real, e: real, eff: real, size: Option<real>)
    requires eff > 0.0 && e >= 0.0
    requires size.Some? ==> 0.0 <= bufferOld <= size.value
    ensures var x := BufferStep(bufferOld, e, eff, size);
            x.Ok? && x.value.level == bufferOld - x.value.stream / eff && 0.0 <= x.value.stream <= e
  {
    var level := bufferOld - e / eff;
    assert Uncorrected(bufferOld, e, eff) == Ok(level);
    if size.Some? && level < 0.0 {
      UnderflowConserves(bufferOld, e, eff);
    } else {
      assert level <= bufferOld by { DivNonNegative(e, eff); }
    }
  }

  lemma ChargeConserves(bufferOld: real, e: real, eff: real, size: Option<real>)
    requires eff > 0.0 && e < 0.0
    requires size.Some? ==> 0.0 <= bufferOld <= size.value
    ensures var x := BufferStep(bufferOld, e, eff, size);
            x.Ok? && x.value.level == bufferOld - Drawn(x.value.stream, eff) && e <= x.value.stream <= 0.0
  {
    var level := bufferOld - e * eff;
    assert Uncorrected(bufferOld, e, eff) == Ok(level);
    if size.Some? && level > size.value {
      OverflowConserves(bufferOld, e, eff, size.value);
    }
  }

  lemma DivNonNegative(x: real, y: real)
    requires x >= 0.0 && y > 0.0
    ensures x / y >= 0.0
  {
  }

  /** Filling up to the size: the corrected stream charges exactly the free room. */
  lemma OverflowConserves(bufferOld: real, e: real, eff: real, size: real)
    requires eff > 0.0 && e < 0.0
    requires bufferOld <= size < bufferOld - e * eff
    ensures var s := e + ((bufferOld - e * eff) - size) / eff;
            e <= s <= 0.0 && s < 0.0 ==> size == bufferOld - s * eff
    ensures var s := e + ((bufferOld - e * eff) - size) / eff;
            e <= s <= 0.0 && (s < 0.0 ==> size == bufferOld - s * eff) && (s >= 0.0 ==> size == bufferOld - s / eff)
  {
    var over := (bufferOld - e * eff) - size;
    var s := e + over / eff;
    assert over > 0.0;
    assert over / eff * eff == over;
    assert s * eff == e * eff + over;
    assert s * eff == bufferOld - size;
    assert s <= 0.0;
    assert over / eff > 0.0;
    if s >= 0.0 {
      assert s == 0.0;
    }
  }

  /** Emptying the storage: the corrected stream discharges exactly what is left. */
  lemma UnderflowConserves(bufferOld: real, e: real, eff: real)
    requires eff > 0.0 && e >= 0.0 && bufferOld >= 0.0
    requires bufferOld - e / eff < 0.0
    ensures var s := e + (bufferOld - e / eff) * eff;
            0.0 <= s <= e && (s < 0.0 ==> 0.0 == bufferOld - s * eff) && (s >= 0.0 ==> 0.0 == bufferOld - s / eff)
  {
    var level := bufferOld - e / eff;
    var s := e + level * eff;
    assert e / eff * eff == e;
    assert level * eff == bufferOld * eff - e;
    assert s == bufferOld * eff;
    assert s / eff == bufferOld;
    assert s >= 0.0;
    assert level * eff < 0.0;
  }

  /**
   * The update as written conserves as the corrected one does, except when a
   * lossy storage (efficiency not 1) overflows.
   */
  lemma BufferStepAsWrittenConserves(bufferOld: real, e: real, eff: real, size: Option<real>)
    requires eff > 0.0
    requires size.Some? ==> 0.0 <= bufferOld <= size.value
    ensures BufferStepAsWritten(bufferOld, e, eff, size).Ok?
    ensures !Overflows(bufferOld, e, eff, size) || eff == 1.0 ==>
              var x := BufferStepAsWritten(bufferOld, e, eff, size).value;
              && x.level == bufferOld - Drawn(x.stream, eff)
              && (e <= 0.0 ==> e <= x.stream <= 0.0) && (e >= 0.0 ==> 0.0 <= x.stream <= e)
  {
    BufferStepConserves(bufferOld, e, eff, size);
    BufferStepAgreesUnlessLossyOverflow(bufferOld, e, eff, size);
  }

  /**
   * The overflow correction as written loses conservation: a storage of size 10
   * at level 9 with efficiency 0.5, charged with 10, is filled to 10 while the
   * corrected stream of -16 would have added 8.
   */
  lemma BufferStepAsWrittenBreaksConservation()
    ensures BufferStepAsWritten(9.0, -10.0, 0.5, Some(10.0)) == Ok(Exchange(-16.0, 10.0))
    ensures 9.0 - Drawn(-16.0, 0.5) != 10.0
    ensures BufferStep(9.0, -10.0, 0.5, Some(10.0)) == Ok(Exchange(-2.0, 10.0))
    ensures 9.0 - Drawn(-2.0, 0.5) == 10.0
  {
    assert Uncorrected(9.0, -10.0, 0.5) == Ok(14.0);
  }

  // ---------------------------------------------------------------------------
  // The level history (Storage_Gas.py:412-417, 429-448)
  // ---------------------------------------------------------------------------

  /**
   * Records the level at `runcount`: past the end a 0 is appended first, so
   * the slot `runcount` exists exactly when the history was at most that
   * short by one; otherwise the 0 stays and the write fails (IndexError).
   */
  function RecordLevel(levels: seq<real>, runcount: nat, level: real): (r: (seq<real>, bool))
    ensures r.1 <==> runcount <= |levels|
    ensures r.1 ==> |r.0| == if runcount < |levels| then |levels| else |levels| + 1
    ensures r.1 ==> r.0[runcount] == level
    ensures r.1 ==> forall i :: 0 <= i < |r.0| && i != runcount ==> r.0[i] == levels[i]
    ensures !r.1 ==> r.0 == levels + [0.0]
  {
    var grown := if runcount >= |levels| then levels + [0.0] else levels;
    if runcount < |grown| then (grown[runcount := level], true) else (grown, false)
  }

  /** Rerunning a timestep overwrites its entry: recording twice is recording the second value once. */
  lemma RecordLevelOverwrites(levels: seq<real>, runcount: nat, first: real, second: real)
    requires runcount <= |levels|
    ensures RecordLevel(RecordLevel(levels, runcount, first).0, runcount, second) == RecordLevel(levels, runcount, second)
  {
    var once := RecordLevel(levels, runcount, first).0;
    if runcount == |levels| {
      assert once == levels + [first];
      assert once[runcount := second] == (levels + [0.0])[runcount := second];
    } else {
      assert once == levels[runcount := first];
      assert once[runcount := second] == levels[runcount := second];
    }
  }

  /**
   * The consistency check after a run: the level change must match what the
   * stream draws within 1e-2.
   */
  predicate LevelMismatch(levels: seq<real>, runcount: nat, stream: real, eff: real)
    requires 0 < runcount < |levels|
    requires stream < 0.0 || eff != 0.0
  {
    var gap := levels[runcount] - levels[runcount - 1] + Drawn(stream, eff);
    gap > 0.01 || gap < -0.01
  }

  /** A level recorded by the corrected update, on top of the level it started from, passes the check. */
  lemma CorrectedStepPassesCheck(levels: seq<real>, runcount: nat, e: real, eff: real, size: Option<real>)
    requires 0 < runcount <= |levels|
    requires eff > 0.0
    requires size.Some? ==> 0.0 <= levels[runcount - 1] <= size.value
    ensures var x := BufferStep(levels[runcount - 1], e, eff, size);
            x.Ok? && !LevelMismatch(RecordLevel(levels, runcount, x.value.level).0, runcount, x.value.stream, eff)
  {
    BufferStepConserves(levels[runcount - 1], e, eff, size);
  }

  /** The run of the example above is flagged by the source's own check. */
  lemma AsWrittenStepFailsCheck()
    ensures LevelMismatch([9.0, 10.0], 1, -16.0, 0.5)
  {
  }

  // ---------------------------------------------------------------------------
  // One run of the gas storage, without its ports (Storage_Gas.py:339-417)
  // ---------------------------------------------------------------------------

  /** The buffers and level history a run leaves, and the stream it exchanges or the error it stops with. */
  datatype StorageStep = StorageStep(buffers: Buffers, levels: seq<real>, outcome: Result<real>)

  /**
   * The buffer bookkeeping of one run: the buffers are started for the
   * timestep, the stream requested (the full demand of an active storage),
   * clamped to the charge power and applied to the buffer, and the level
   * recorded at `runcount`.  An error stops the run where Python raises: a
   * failed charging step has already stored its uncorrected level, and a
   * history too short has already grown by a 0.
   */
  function StoragePlan(b: Buffers, init: real, levels: seq<real>, runcount: nat, activeRun: bool, requested: real,
                       size: Option<real>, chargePower: Option<real>, tr: Option<int>, eff: real): (r: StorageStep)
    ensures r.buffers.runcountOld == runcount
    ensures r.buffers.bufferOld == StartBuffers(b, init, runcount).bufferOld
    ensures r.outcome.Ok? ==> runcount < |r.levels| && r.levels[runcount] == r.buffers.bufferNew
    ensures r.outcome.Ok? ==> |levels| <= |r.levels| && forall i :: 0 <= i < |levels| && i != runcount ==> r.levels[i] == levels[i]
    ensures r.outcome.Ok? && size.Some? && size.value >= 0.0 ==> 0.0 <= r.buffers.bufferNew <= size.value
    ensures r.outcome.Ok? ==> r.outcome.value < 0.0 || eff != 0.0
  {
    var start := StartBuffers(b, init, runcount);
    var req := StorageRequest(activeRun, requested, size, chargePower, tr);
    if req.Err? then StorageStep(start, levels, Err(req.error))
    else
      var e := ChargeClamp(req.value, chargePower, tr);
      if e.Err? then StorageStep(start, levels, Err(e.error))
      else ApplyStep(start, levels, runcount, e.value, eff, size)
  }

  /** The buffer update as written and the history entry for a clamped stream `e`. */
  function ApplyStep(start: Buffers, levels: seq<real>, runcount: nat, e: real, eff: real, size: Option<real>): (r: StorageStep)
    ensures r.buffers.runcountOld == start.runcountOld && r.buffers.bufferOld == start.bufferOld
    ensures r.outcome.Ok? <==> BufferStepAsWritten(start.bufferOld, e, eff, size).Ok? && runcount <= |levels|
    ensures r.outcome.Ok? ==> var x := BufferStepAsWritten(start.bufferOld, e, eff, size).value;
                              r.outcome.value == x.stream && r.buffers.bufferNew == x.level
    ensures r.outcome.Ok? ==> runcount < |r.levels| && r.levels[runcount] == r.buffers.bufferNew
    ensures r.outcome.Ok? ==> |levels| <= |r.levels| && forall i :: 0 <= i < |levels| && i != runcount ==> r.levels[i] == levels[i]
    ensures r.outcome.Ok? && size.Some? && size.value >= 0.0 ==> 0.0 <= r.buffers.bufferNew <= size.value
    ensures r.outcome.Ok? ==> r.outcome.value < 0.0 || eff != 0.0
  {
    var x := BufferStepAsWritten(start.bufferOld, e, eff, size);
    if x.Err? then
      var failed := if e < 0.0 then start.bufferOld - e * eff else start.bufferNew;
      StorageStep(start.(bufferNew := failed), levels, Err(x.error))
    else
      var rec := RecordLevel(levels, runcount, x.value.level);
      var next := start.(bufferNew := x.value.level);
      if rec.1 then StorageStep(next, rec.0, Ok(x.value.stream)) else StorageStep(next, rec.0, Err(IndexError))
  }

  /**
   * A run that succeeds conserves unless a lossy storage overflows: with a
   * positive efficiency and a starting level within the storage, the new level
   * is the starting level less what the exchanged stream draws, and the
   * exchanged stream never exceeds the clamped request in magnitude nor
   * reverses it.
   */
  lemma StoragePlanConserves(b: Buffers, init: real, levels: seq<real>, runcount: nat, activeRun: bool, requested: real,
                             size: Option<real>, chargePower: Option<real>, tr: Option<int>, eff: real)
    requires eff > 0.0
    requires var start := StartBuffers(b, init, runcount).bufferOld; size.Some? ==> 0.0 <= start <= size.value
    ensures var r := StoragePlan(b, init, levels, runcount, activeRun, requested, size, chargePower, tr, eff);
            var req := StorageRequest(activeRun, requested, size, chargePower, tr);
            r.outcome.Ok? ==> req.Ok? && ChargeClamp(req.value, chargePower, tr).Ok? &&
                              var e := ChargeClamp(req.value, chargePower, tr).value;
                              (!Overflows(r.buffers.bufferOld, e, eff, size) || eff == 1.0) ==>
                                && r.buffers.bufferNew == r.buffers.bufferOld - Drawn(r.outcome.value, eff)
                                && (e <= 0.0 ==> e <= r.outcome.value <= 0.0)
                                && (e >= 0.0 ==> 0.0 <= r.outcome.value <= e)
  {
    var start := StartBuffers(b, init, runcount);
    var req := StorageRequest(activeRun, requested, size, chargePower, tr);
    if req.Ok? {
      var e := ChargeClamp(req.value, chargePower, tr);
      if e.Ok? {
        BufferStepAsWrittenConserves(start.bufferOld, e.value, eff, size);
      }
    }
  }

  /**
   * Without size, charge-power or resolution problems, a storage outside
   * loop control that is passive and unbounded passes the requested stream
   * through unchanged and records the level it reaches.
   */
  lemma UnboundedPassiveStoragePassesRequest(b: Buffers, init: real, levels: seq<real>, runcount: nat, requested: real,
                                             tr: int, eff: real)
    requires eff > 0.0 && tr >= 0 && runcount <= |levels|
    ensures var r := StoragePlan(b, init, levels, runcount, false, requested, None, None, Some(tr), eff);
            r.outcome == Ok(requested) &&
            r.buffers.bufferNew == StartBuffers(b, init, runcount).bufferOld - Drawn(requested, eff)
  {
  }
}
