/**
 * Ports of components: the checks a stream value passes before it is stored,
 * stream limits, value and binary profiles, the per-property calculation flags
 * and the history bookkeeping (model_base/Port.py, Port_Mass.py, Port_Energy.py).
 *
 * `Port_Energy` and `Port_Mass` are one class here, told apart by `kind`; the
 * fields only a mass port uses (pressure, temperature, mass fractions, status
 * flags) are present but unused on an energy port.
 */
module Ports {
  import opened CustomErrors
  import opened Wrappers
  import opened ExtReal
  import opened RangeLimits
  import opened Streamtypes
  import opened Units
  import opened Quantities
  import opened Dicts
  import opened ExportDataclasses

  /** The two concrete port classes. */
  datatype PortKind = EnergyPort | MassPort

  /** A stored pair of stream limits; a port without limits holds `None` (the empty tuple). */
  type Limits = (Ext, Ext)

  /** The smaller of the two limits (`sorted(limits)[0]`). */
  function Lo(l: Limits): Ext
  {
    Sorted2(l.0, l.1).0
  }

  /** The larger of the two limits (`sorted(limits)[1]`). */
  function Hi(l: Limits): Ext
  {
    Sorted2(l.0, l.1).1
  }

  // ---------------------------------------------------------------------------
  // Stream limits: the reordering on storage
  // ---------------------------------------------------------------------------

  /**
   * The reordering `set_stream_limit` and `update_stream_limit` apply as
   * written: when the first bound has the larger magnitude the pair is sorted
   * in descending order.
   */
  function LimitOrderAsWritten(l: Limits): (r: Limits)
    ensures r == l || r == (l.1, l.0)
    ensures Le(r.1, r.0) || r == l
  {
    if Lt(Abs(l.1), Abs(l.0)) then SortedDesc2(l.0, l.1) else l
  }

  /**
   * For a positive pair given largest first the descending sort keeps the far
   * bound first, so the bound of larger magnitude stays in front.
   */
  lemma LimitOrderAsWrittenKeepsFarBoundFirst()
    ensures LimitOrderAsWritten((Fin(10.0), Fin(5.0))) == (Fin(10.0), Fin(5.0))
    ensures Lt(Abs(Fin(5.0)), Abs(Fin(10.0)))
  {
  }

  /**
   * The reordering the magnitude test asks for: the bound of smaller magnitude
   * (the minimum load) first, the bound of larger magnitude (the maximum
   * stream, read as `limits[1]`) second.
   */
  function LimitOrder(l: Limits): (r: Limits)
    ensures Le(Abs(r.0), Abs(r.1))
    ensures r == l || r == (l.1, l.0)
    ensures Le(Abs(l.0), Abs(l.1)) ==> r == l
  {
    if Lt(Abs(l.1), Abs(l.0)) then (l.1, l.0) else l
  }

  /**
   * The two reorderings differ exactly on the pairs whose first bound is both
   * larger in magnitude and larger in value; in particular they agree on every
   * (min, max) pair, which is the form the components pass.
   */
  lemma LimitOrderDiffersOnlyOnDescendingPairs(l: Limits)
    ensures LimitOrderAsWritten(l) != LimitOrder(l) <==> Lt(Abs(l.1), Abs(l.0)) && Lt(l.1, l.0)
    ensures Le(l.0, l.1) ==> LimitOrderAsWritten(l) == LimitOrder(l)
  {
    if Lt(Abs(l.1), Abs(l.0)) {
      assert l.0 != l.1;
    }
  }

  // ---------------------------------------------------------------------------
  // The value checks (Port.py:369-402 and 448-492)
  // ---------------------------------------------------------------------------

  /**
   * The minimum-load cutoff: a positive value below a positive lower limit, or
   * a negative value whose magnitude is below that of a negative upper limit.
   */
  predicate BelowMinimumLoad(value: Ext, l: Limits)
  {
    || (Lt(Fin(0.0), value) && Lt(Fin(0.0), Lo(l)) && Lt(value, Lo(l)))
    || (Lt(value, Fin(0.0)) && Lt(Hi(l), Fin(0.0)) && Lt(Hi(l), value))
  }

  /**
   * `get_stream_limited_value` once limits exist: the value clamped into the
   * sorted limits, or 0 when it falls short of the minimum load.
   */
  function StreamLimited(value: Ext, l: Limits): (r: Ext)
    ensures r == Fin(0.0) || (Le(Lo(l), r) && Le(r, Hi(l)))
    ensures BelowMinimumLoad(value, l) ==> r == Fin(0.0)
    ensures !BelowMinimumLoad(value, l) ==> r == RangeLimit(value, Lo(l), Hi(l))
  {
    var lo, hi := Lo(l), Hi(l);
    var clamped := RangeLimit(value, lo, hi);
    if Sign(value) > 0 && Sign(value) == Sign(lo) && Lt(Abs(value), Abs(lo)) then Fin(0.0)
    else if Sign(value) < 0 && Sign(value) == Sign(hi) && Lt(Abs(value), Abs(hi)) then Fin(0.0)
    else clamped
  }

  /** A value inside the limits and above the minimum load passes unchanged. */
  lemma StreamLimitedKeepsAdmissibleValues(value: Ext, l: Limits)
    requires Le(Lo(l), value) && Le(value, Hi(l)) && !BelowMinimumLoad(value, l)
    ensures StreamLimited(value, l) == value
  {
  }

  /** Limits on one side of zero keep the result on that side (or at 0). */
  lemma StreamLimitedKeepsSide(value: Ext, l: Limits)
    ensures Le(Fin(0.0), Lo(l)) ==> Le(Fin(0.0), StreamLimited(value, l))
    ensures Le(Hi(l), Fin(0.0)) ==> Le(StreamLimited(value, l), Fin(0.0))
  {
    var r := StreamLimited(value, l);
    LeTotalOrder(Fin(0.0), Lo(l), r);
    LeTotalOrder(r, Hi(l), Fin(0.0));
  }

  /** Whether a value is zero or points against a one-way port's direction. */
  predicate ZeroOrOpposite(sign: StreamDirection, value: Ext)
  {
    value == Fin(0.0) || sign.Value() * Sign(value) < 0
  }

  /**
   * `check_port_value` up to the binary profile (Port.py:465-481): zero and
   * opposite values become 0; with limits set, a one-way port goes through
   * `get_stream_limited_value` and a bidirectional one through `range_limit`
   * on the stored order; without limits the value passes unchanged.
   */
  function LimitedValue(sign: StreamDirection, limits: Option<Limits>, value: Ext): (r: Ext)
    ensures ZeroOrOpposite(sign, value) ==> r == Fin(0.0)
    ensures !ZeroOrOpposite(sign, value) && limits.None? ==> r == value
    ensures !ZeroOrOpposite(sign, value) && limits.Some? && sign != StreamBidirectional ==>
              r == StreamLimited(value, limits.value)
    ensures !ZeroOrOpposite(sign, value) && limits.Some? && sign == StreamBidirectional ==>
              r == RangeLimit(value, limits.value.0, limits.value.1)
  {
    if value == Fin(0.0) then Fin(0.0)
    else if sign.Value() * Sign(value) < 0 then Fin(0.0)
    else if limits.Some? then
      if sign != StreamBidirectional then StreamLimited(value, limits.value)
      else RangeLimit(value, limits.value.0, limits.value.1)
    else value
  }

  /** The direction a non-zero value flows in: out of the component when positive. */
  function DirectionOf(value: Ext): StreamDirection
  {
    if Lt(Fin(0.0), value) then StreamOutOfComponent else StreamIntoComponent
  }

  /**
   * The binary-profile gate (Port.py:482-490): a non-zero value survives only
   * when the profile of its direction, if any, holds 1 at `runcount`; reading
   * past the end of that profile is an IndexError.
   */
  function BinaryGate(value: Ext, binary: map<StreamDirection, seq<real>>, runcount: nat): (r: Result<Ext>)
    ensures value == Fin(0.0) || DirectionOf(value) !in binary ==> r == Ok(value)
    ensures value != Fin(0.0) && DirectionOf(value) in binary ==>
              (r.Err? <==> runcount >= |binary[DirectionOf(value)]|)
    ensures r.Err? ==> r.error == IndexError
    ensures r.Ok? ==> r.value == value || r.value == Fin(0.0)
    ensures r.Ok? && value != Fin(0.0) && DirectionOf(value) in binary ==>
              (r.value == value <==> binary[DirectionOf(value)][runcount] == 1.0)
  {
    if value == Fin(0.0) then Ok(value)
    else
      var direction := DirectionOf(value);
      if direction !in binary then Ok(value)
      else if runcount >= |binary[direction]| then Err(IndexError)
      else if binary[direction][runcount] == 1.0 then Ok(value)
      else Ok(Fin(0.0))
  }

  /** `check_port_value` for the stream: the limits and sign rules, then the binary gate. */
  function CheckedValue(sign: StreamDirection, limits: Option<Limits>, binary: map<StreamDirection, seq<real>>,
                        value: Ext, runcount: nat): (r: Result<Ext>)
    ensures ZeroOrOpposite(sign, value) ==> r == Ok(Fin(0.0))
    ensures r.Err? ==> r.error == IndexError
    ensures r.Ok? ==> r.value == LimitedValue(sign, limits, value) || r.value == Fin(0.0)
  {
    BinaryGate(LimitedValue(sign, limits, value), binary, runcount)
  }

  /** A one-way port whose limits, if any, reach into the port's own direction. */
  predicate LimitsFitSign(sign: StreamDirection, limits: Option<Limits>)
  {
    && sign != StreamBidirectional
    && (limits.Some? && sign == StreamOutOfComponent ==> Le(Fin(0.0), Hi(limits.value)))
    && (limits.Some? && sign == StreamIntoComponent ==> Le(Lo(limits.value), Fin(0.0)))
  }

  /**
   * The checked value of a one-way port never points against the port, as
   * long as its limits reach into the port's own direction.
   */
  lemma CheckedValueRespectsSign(sign: StreamDirection, limits: Option<Limits>,
                                 binary: map<StreamDirection, seq<real>>, value: Ext, runcount: nat)
    requires LimitsFitSign(sign, limits)
    ensures CheckedValue(sign, limits, binary, value, runcount).Ok? ==>
              sign.Value() * Sign(CheckedValue(sign, limits, binary, value, runcount).value) >= 0
  {
    var v := LimitedValue(sign, limits, value);
    if !ZeroOrOpposite(sign, value) && limits.Some? {
      var l := limits.value;
      if sign == StreamOutOfComponent {
        assert Lt(Fin(0.0), value);
        RangeLimitMonotone(Fin(0.0), value, Lo(l), Hi(l));
        assert v == Fin(0.0) || Le(Fin(0.0), v) by {
          if !BelowMinimumLoad(value, l) {
            assert v == RangeLimit(value, Lo(l), Hi(l));
            if Lt(Lo(l), Fin(0.0)) {
              LeTotalOrder(Lo(l), Fin(0.0), Hi(l));
            }
          }
        }
      } else {
        assert Lt(value, Fin(0.0));
        RangeLimitMonotone(value, Fin(0.0), Lo(l), Hi(l));
        assert v == Fin(0.0) || Le(v, Fin(0.0)) by {
          if !BelowMinimumLoad(value, l) {
            assert v == RangeLimit(value, Lo(l), Hi(l));
            if Lt(Fin(0.0), Hi(l)) {
              LeTotalOrder(Lo(l), Fin(0.0), Hi(l));
            }
          }
        }
      }
    }
  }

  /** With limits set and a value that passes the sign rules, a non-zero result lies within the limits. */
  lemma CheckedValueWithinLimits(sign: StreamDirection, l: Limits,
                                 binary: map<StreamDirection, seq<real>>, value: Ext, runcount: nat)
    requires sign != StreamBidirectional || Le(l.0, l.1)
    ensures var r := CheckedValue(sign, Some(l), binary, value, runcount);
            r.Ok? && r.value != Fin(0.0) ==> Le(Lo(l), r.value) && Le(r.value, Hi(l))
  {
  }

  /** Without limits and without a binary profile a value that passes the sign rules is stored as given. */
  lemma CheckedValueWithoutLimits(sign: StreamDirection, value: Ext, runcount: nat)
    requires !ZeroOrOpposite(sign, value)
    ensures CheckedValue(sign, None, map[], value, runcount) == Ok(value)
  {
  }

  /** Checking is idempotent for a one-way port whose limits reach into its own direction. */
  lemma LimitedValueIdempotent(sign: StreamDirection, limits: Option<Limits>, value: Ext)
    requires LimitsFitSign(sign, limits)
    ensures LimitedValue(sign, limits, LimitedValue(sign, limits, value)) == LimitedValue(sign, limits, value)
  {
    var v := LimitedValue(sign, limits, value);
    if !ZeroOrOpposite(sign, value) && limits.Some? && v != Fin(0.0) {
      var l := limits.value;
      assert !BelowMinimumLoad(value, l);
      assert v == RangeLimit(value, Lo(l), Hi(l));
      RangeLimitIdempotent(value, Lo(l), Hi(l));
      if sign == StreamOutOfComponent {
        assert Lt(Fin(0.0), value);
        LeTotalOrder(Fin(0.0), v, Hi(l));
        assert Lt(Fin(0.0), v);
      } else {
        assert Lt(value, Fin(0.0));
        LeTotalOrder(Lo(l), v, Fin(0.0));
        assert Lt(v, Fin(0.0));
      }
      assert !BelowMinimumLoad(v, l);
    }
  }

  // ---------------------------------------------------------------------------
  // Profiles (Port.py:95-124 and 247-277)
  // ---------------------------------------------------------------------------

  type Profiles = map<StreamDirection, map<PhysicalQuantity, seq<real>>>

  predicate AllNonPositive(profile: seq<real>)
  {
    forall i :: 0 <= i < |profile| ==> profile[i] <= 0.0
  }

  predicate AllNonNegative(profile: seq<real>)
  {
    forall i :: 0 <= i < |profile| ==> profile[i] >= 0.0
  }

  /**
   * `set_port_profile`: a profile of consistent sign replaces the whole entry
   * of the matching one-way direction (into when non-positive and the port's
   * sign allows it, else out); one of mixed sign is stored under the
   * bidirectional entry of a bidirectional port, which raises KeyError unless
   * that entry exists; anything else is only logged.
   */
  function StoreProfile(vp: Profiles, sign: StreamDirection, q: PhysicalQuantity, profile: seq<real>): (r: Result<Profiles>)
    ensures r.Err? <==> !AllNonPositive(profile) && !AllNonNegative(profile) &&
                        sign == StreamBidirectional && StreamBidirectional !in vp
    ensures r.Err? ==> r.error == KeyError
    ensures r.Ok? ==> vp.Keys <= r.value.Keys && |r.value.Keys - vp.Keys| <= 1
    ensures AllNonPositive(profile) && sign.Value() <= 0 ==>
              r == Ok(vp[StreamIntoComponent := map[q := profile]])
    ensures AllNonNegative(profile) && sign == StreamOutOfComponent ==>
              r == Ok(vp[StreamOutOfComponent := map[q := profile]])
  {
    var nonPositive := AllNonPositive(profile);
    var nonNegative := AllNonNegative(profile);
    if nonPositive || nonNegative then
      if nonPositive && sign.Value() <= 0 then Ok(vp[StreamIntoComponent := map[q := profile]])
      else if nonNegative && sign.Value() >= 0 then Ok(vp[StreamOutOfComponent := map[q := profile]])
      else Ok(vp)
    else if sign == StreamBidirectional then
      if StreamBidirectional in vp then Ok(vp[StreamBidirectional := vp[StreamBidirectional][q := profile]])
      else Err(KeyError)
    else Ok(vp)
  }

  /** A stored profile is stored under a one-way direction, never under the bidirectional one. */
  lemma StoreProfileNeverCreatesBidirectionalEntry(vp: Profiles, sign: StreamDirection, q: PhysicalQuantity, profile: seq<real>)
    requires StreamBidirectional !in vp
    ensures StoreProfile(vp, sign, q, profile).Ok? ==> StreamBidirectional !in StoreProfile(vp, sign, q, profile).value
  {
  }

  /** The values of every profile at `runcount`; IndexError when a profile is too short. */
  function ProfileValuesAt(profiles: map<PhysicalQuantity, seq<real>>, runcount: nat): (r: Result<map<PhysicalQuantity, real>>)
    ensures r.Ok? <==> forall q :: q in profiles ==> runcount < |profiles[q]|
    ensures r.Err? ==> r.error == IndexError
    ensures r.Ok? ==> r.value.Keys == profiles.Keys
    ensures r.Ok? ==> forall q :: q in r.value ==> r.value[q] == profiles[q][runcount]
  {
    if exists q :: q in profiles && runcount >= |profiles[q]| then Err(IndexError)
    else Ok(map q | q in profiles :: profiles[q][runcount])
  }

  /**
   * `get_profile_values` as written.  The test meant to tell one-way ports
   * from bidirectional ones compares the port's sign, an enum member, with the
   * int 0, so it always holds: every port looks up the entry of its own sign,
   * and a bidirectional port, whose profiles are never stored under the
   * bidirectional entry, gets None.
   */
  function ProfileValuesAsWritten(vp: Profiles, portSign: StreamDirection, runcount: nat,
                                  sign: Option<StreamDirection>): (r: Result<Option<map<PhysicalQuantity, real>>>)
    ensures sign.None? && portSign !in vp ==> r == Ok(None)
    ensures sign.Some? && sign.value !in vp ==> r == Err(KeyError)
    ensures r.Err? ==> r.error == KeyError || r.error == IndexError
  {
    var key := if sign.Some? then sign.value else portSign;
    if key !in vp then
      if sign.Some? then Err(KeyError) else Ok(None)
    else
      var values :- ProfileValuesAt(vp[key], runcount);
      Ok(Some(values))
  }

  /**
   * What the lookup as written finds: the values at `runcount` of every
   * profile stored under the given sign, or else under the port's own sign;
   * None only when no sign is given and the port's sign has no entry.
   */
  lemma ProfileValuesAsWrittenReads(vp: Profiles, portSign: StreamDirection, runcount: nat, sign: Option<StreamDirection>)
    ensures var r := ProfileValuesAsWritten(vp, portSign, runcount, sign);
            r.Ok? ==> r.value.Some? || (sign.None? && portSign !in vp)
    ensures var r := ProfileValuesAsWritten(vp, portSign, runcount, sign);
            var key := if sign.Some? then sign.value else portSign;
            r.Ok? && r.value.Some? ==>
              && key in vp && r.value.value.Keys == vp[key].Keys
              && forall q :: q in r.value.value ==> runcount < |vp[key][q]| && r.value.value[q] == vp[key][q][runcount]
  {
  }

  /**
   * The order in which a bidirectional port's single stored direction is
   * found; only one of them is present when it is used.
   */
  function OnlyDirection(vp: Profiles): (d: StreamDirection)
    requires |vp.Keys| == 1
    ensures vp.Keys == {d}
  {
    if StreamIntoComponent in vp then
      assert vp.Keys == {StreamIntoComponent} by { SingletonOfMember(vp.Keys, StreamIntoComponent); }
      StreamIntoComponent
    else if StreamOutOfComponent in vp then
      assert vp.Keys == {StreamOutOfComponent} by { SingletonOfMember(vp.Keys, StreamOutOfComponent); }
      StreamOutOfComponent
    else
      var d :| d in vp;
      assert d == StreamBidirectional;
      SingletonOfMember(vp.Keys, StreamBidirectional);
      StreamBidirectional
  }

  lemma SingletonOfMember<T>(s: set<T>, x: T)
    requires |s| == 1 && x in s
    ensures s == {x}
  {
    var rest := s - {x};
    assert |rest| == 0;
    assert rest == {};
  }

  /**
   * `get_profile_values` as intended: an explicit sign reads that entry
   * (KeyError when missing); a one-way port reads the entry of its own sign
   * (None when missing); a bidirectional port reads its only profile, and
   * with none or two of them the answer stays empty.  Three tests of
   * Port.py:263-271 are corrected here: the sign test compares the direction
   * enum with an int and always holds, the count test compares `len` with
   * the enum member and never holds, and `keys()[0]` would fail because a
   * key view cannot be indexed.  The intended reading of the last two is
   * "exactly one profile is stored" and "its key".
   */
  function ProfileValues(vp: Profiles, portSign: StreamDirection, runcount: nat,
                         sign: Option<StreamDirection>): (r: Result<Option<map<PhysicalQuantity, real>>>)
    ensures sign.Some? ==> r == ProfileValuesAsWritten(vp, portSign, runcount, sign)
    ensures portSign != StreamBidirectional ==> r == ProfileValuesAsWritten(vp, portSign, runcount, sign)
    ensures r.Err? ==> r.error == KeyError || r.error == IndexError
    ensures sign.None? && portSign == StreamBidirectional && |vp.Keys| != 1 ==> r == Ok(Some(map[]))
    ensures sign.None? && portSign == StreamBidirectional && |vp.Keys| == 1 ==>
              r == (var values :- ProfileValuesAt(vp[OnlyDirection(vp)], runcount); Ok(Some(values)))
  {
    if sign.Some? || portSign != StreamBidirectional then ProfileValuesAsWritten(vp, portSign, runcount, sign)
    else if |vp.Keys| == 1 then
      var values :- ProfileValuesAt(vp[OnlyDirection(vp)], runcount);
      Ok(Some(values))
    else Ok(Some(map[]))
  }

  /**
   * Storing a profile on a one-way port and reading it back at a step inside
   * the profile gives the profile's value at that step.
   */
  lemma ProfileRoundTrip(vp: Profiles, sign: StreamDirection, q: PhysicalQuantity, profile: seq<real>, runcount: nat)
    requires sign == StreamIntoComponent ==> AllNonPositive(profile)
    requires sign == StreamOutOfComponent ==> AllNonNegative(profile)
    requires sign != StreamBidirectional && runcount < |profile|
    ensures StoreProfile(vp, sign, q, profile).Ok?
    ensures ProfileValuesAsWritten(StoreProfile(vp, sign, q, profile).value, sign, runcount, None) == Ok(Some(map[q := profile[runcount]]))
  {
    var stored := StoreProfile(vp, sign, q, profile).value;
    assert stored[sign] == map[q := profile];
    var values := ProfileValuesAt(map[q := profile], runcount);
    assert values.Ok?;
    assert values.value == map[q := profile[runcount]];
    assert ProfileValuesAsWritten(stored, sign, runcount, None) == Ok(Some(values.value));
  }

  /**
   * A bidirectional port that receives its first profile: as written the
   * profile is never read back, while the intended lookup returns it.
   */
  lemma BidirectionalProfileLostAsWritten(q: PhysicalQuantity, profile: seq<real>, runcount: nat)
    requires AllNonPositive(profile) || AllNonNegative(profile)
    requires runcount < |profile|
    ensures StoreProfile(map[], StreamBidirectional, q, profile).Ok?
    ensures ProfileValuesAsWritten(StoreProfile(map[], StreamBidirectional, q, profile).value,
                                   StreamBidirectional, runcount, None) == Ok(None)
    ensures ProfileValues(StoreProfile(map[], StreamBidirectional, q, profile).value,
                          StreamBidirectional, runcount, None) == Ok(Some(map[q := profile[runcount]]))
  {
    var stored := StoreProfile(map[], StreamBidirectional, q, profile).value;
    var d := if AllNonPositive(profile) then StreamIntoComponent else StreamOutOfComponent;
    assert stored == map[d := map[q := profile]];
    assert stored.Keys == {d};
    assert OnlyDirection(stored) == d;
    var values := ProfileValuesAt(stored[d], runcount);
    assert values.value == map[q := profile[runcount]];
  }

  // ---------------------------------------------------------------------------
  // History bookkeeping helpers (Port.py:55-72)
  // ---------------------------------------------------------------------------

  /** The recorded streams that are not None, in order. */
  function KnownStreams(h: seq<Option<real>>): (r: seq<real>)
    ensures |r| <= |h|
  {
    if |h| == 0 then []
    else KnownStreams(h[..|h| - 1]) + (if h[|h| - 1].Some? then [h[|h| - 1].value] else [])
  }

  /** When no entry is None the known streams are the whole history. */
  lemma {:induction false} KnownStreamsOfComplete(h: seq<Option<real>>)
    requires Known(h).Some?
    ensures KnownStreams(h) == Known(h).value
  {
    if |h| > 0 {
      var front := h[..|h| - 1];
      assert forall i :: 0 <= i < |front| ==> front[i] == h[i];
      assert Known(front).Some?;
      KnownStreamsOfComplete(front);
    }
  }

  /** The share of a stream flowing into the component: the stream when negative, else 0. */
  function IntoPart(x: real): real
  {
    if x < 0.0 then x else 0.0
  }

  /** The share of a stream flowing out of the component: the stream when positive, else 0. */
  function OutPart(x: real): real
  {
    if x > 0.0 then x else 0.0
  }

  function MinOf(a: real, b: real): real
  {
    if b < a then b else a
  }

  function MaxOf(a: real, b: real): real
  {
    if b > a then b else a
  }

  /** The per-direction split of the known streams, entry by entry. */
  predicate SplitMatches(into: seq<real>, out: seq<real>, known: seq<real>)
  {
    && |into| == |known| && |out| == |known|
    && (forall i :: 0 <= i < |known| ==> into[i] == IntoPart(known[i]) && out[i] == OutPart(known[i]))
  }

  /** `maxInto` is the most negative into-entry, or 0; `maxOut` the largest out-entry, or 0. */
  predicate ExtremesMatch(into: seq<real>, out: seq<real>, maxInto: real, maxOut: real)
  {
    && maxInto <= 0.0 <= maxOut
    && (forall x :: x in into ==> maxInto <= x)
    && (forall x :: x in out ==> x <= maxOut)
    && (maxInto == 0.0 || maxInto in into)
    && (maxOut == 0.0 || maxOut in out)
  }

  /** Recording one more known stream keeps the split and its extremes in step. */
  lemma SplitStep(into: seq<real>, out: seq<real>, known: seq<real>, maxInto: real, maxOut: real, x: real)
    requires SplitMatches(into, out, known) && ExtremesMatch(into, out, maxInto, maxOut)
    ensures SplitMatches(into + [IntoPart(x)], out + [OutPart(x)], known + [x])
    ensures ExtremesMatch(into + [IntoPart(x)], out + [OutPart(x)], MinOf(maxInto, IntoPart(x)), MaxOf(maxOut, OutPart(x)))
  {
  }

  // ---------------------------------------------------------------------------
  // Mass-fraction table
  // ---------------------------------------------------------------------------

  /** The configured mass fractions of each mass stream type (`ModelSettings.stream_types[t][mass_fraction]`). */
  type FractionTable = map<StreamMass, PyDict<StreamMass, real>>

  /** `sum(d.values())`, in key order. */
  function FractionSum(ks: seq<StreamMass>, m: map<StreamMass, real>): real
  {
    if |ks| == 0 then 0.0
    else FractionSum(ks[..|ks| - 1], m) + (if ks[|ks| - 1] in m then m[ks[|ks| - 1]] else 0.0)
  }

  /** What `get_all_properties` returns for each kind of port. */
  datatype PortProperties =
    | MassProperties(pressure: Ext, temperature: Ext, massFraction: Dict<StreamMass, real>, stream: Option<real>)
    | EnergyProperties(stream: Option<real>)

  /** A stream read from another port, as `set_stream` receives it. */
  function AsValue(s: Option<real>): Option<Ext>
  {
    if s.Some? then Some(Fin(s.value)) else None
  }

  // ---------------------------------------------------------------------------
  // The port
  // ---------------------------------------------------------------------------

  class Port {
    const kind: PortKind
    const results: PortResult
    var fixedStatus: bool
    var stream: Option<real>
    var streamType: Option<StreamTypes>
    var splitInto: seq<real>
    var splitOut: seq<real>
    var maxInto: real
    var maxOut: real
    var valueProfiles: Profiles
    var binaryProfile: map<StreamDirection, seq<real>>
    var streamLimits: Option<Limits>
    var pressure: Ext
    var temperature: Ext
    var massFraction: PyDict<StreamMass, real>
    var pressureStatus: int
    var temperatureStatus: int
    var massFractionStatus: int
    var massStreamStatus: int
    var updatedFluid: int

    /**
     * The bookkeeping every port keeps: the history keys its class creates
     * exist (for a mass port all four, of equal length), the direction split
     * mirrors the recorded streams that were not None, and the two maxima are
     * the extremes of that split.
     */
    ghost predicate Valid()
      reads this`splitInto, this`splitOut, this`maxInto, this`maxOut,
             results`streamHistory, results`pressureHistory, results`temperatureHistory, results`massFractionHistory
    {
      && results.streamHistory.Some?
      && (kind == MassPort ==>
            && results.pressureHistory.Some? && results.temperatureHistory.Some?
            && results.massFractionHistory.Some?
            && |results.pressureHistory.value| == |results.streamHistory.value|
            && |results.temperatureHistory.value| == |results.streamHistory.value|
            && |results.massFractionHistory.value| == |results.streamHistory.value|)
      && SplitMatches(splitInto, splitOut, KnownStreams(results.streamHistory.value))
      && ExtremesMatch(splitInto, splitOut, maxInto, maxOut)
    }

    /** A port stays well formed, with the same history, while the fields its bookkeeping reads are unchanged. */
    twostate lemma Kept()
      requires old(Valid())
      requires unchanged(this`splitInto, this`splitOut, this`maxInto, this`maxOut)
      requires unchanged(results`streamHistory, results`pressureHistory, results`temperatureHistory, results`massFractionHistory)
      ensures Valid() && results.streamHistory == old(results.streamHistory)
    {
    }

    /** `Port_Energy.__init__` with `set_type_and_unit` and the stream history key. */
    constructor Energy(componentId: string, portId: string, portType: StreamEnergy, sign: StreamDirection,
                       unit: Option<Unit>, fixedStatus: bool)
      ensures kind == EnergyPort && Valid() && fresh(results)
      ensures results.portId == portId && results.componentId == componentId && results.sign == sign
      ensures results.branchId == None && this.fixedStatus == fixedStatus
      ensures stream == None && streamLimits == None && valueProfiles == map[] && binaryProfile == map[]
      ensures splitInto == [] && splitOut == [] && results.streamHistory == Some([])
      ensures unit.Some? && Some(unit.value) != GetStreamUnit(EnergyType(portType)) ==>
                results.portType == None && streamType == None && results.streamUnit == unit
      ensures unit.None? || Some(unit.value) == GetStreamUnit(EnergyType(portType)) ==>
                && results.portType == Some(EnergyType(portType))
                && streamType == GetStreamType(EnergyType(portType))
                && results.streamUnit == GetStreamUnit(EnergyType(portType))
    {
      kind := EnergyPort;
      var r := new PortResult(portId, sign, unit, componentId);
      results := r;
      this.fixedStatus := fixedStatus;
      stream := None;
      streamType := None;
      splitInto, splitOut := [], [];
      maxInto, maxOut := 0.0, 0.0;
      valueProfiles := map[];
      binaryProfile := map[];
      streamLimits := None;
      pressure, temperature := PosInf, PosInf;
      massFraction := Dict([], map[]);
      pressureStatus, temperatureStatus, massFractionStatus, massStreamStatus := 1, 1, 1, 1;
      updatedFluid := 1;
      new;
      SetEnergyTypeAndUnit(portType, unit);
      results.streamHistory := Some([]);
    }

    /**
     * `Port_Mass.__init__` without `set_type_and_unit`: no type yet, empty
     * mass fractions, every status 1, then `set_pressure` and
     * `set_temperature` (which mark those two uncalculated) and the four
     * history keys.  None of these depends on the type, so `NewMassPort` sets
     * the type afterwards.
     */
    constructor Mass(componentId: string, portId: string, sign: StreamDirection, unit: Option<Unit>, fixedStatus: bool,
                     pressure: Ext, temperature: Ext)
      ensures kind == MassPort && Valid() && fresh(results)
      ensures results.portId == portId && results.componentId == componentId && results.sign == sign
      ensures results.streamUnit == unit && results.portType == None && results.branchId == None
      ensures this.fixedStatus == fixedStatus && stream == None && streamType == None
      ensures streamLimits == None && valueProfiles == map[] && binaryProfile == map[]
      ensures splitInto == [] && splitOut == [] && maxInto == 0.0 && maxOut == 0.0
      ensures massFraction.keys == [] && massFraction.entries == map[]
      ensures results.streamHistory == Some([])
      ensures this.pressure == pressure && this.temperature == temperature && updatedFluid == 1
      ensures pressureStatus == 0 && temperatureStatus == 0 && massFractionStatus == 1 && massStreamStatus == 1
    {
      kind := MassPort;
      var r := new PortResult(portId, sign, unit, componentId);
      r.streamHistory := Some([]);
      r.pressureHistory := Some([]);
      r.temperatureHistory := Some([]);
      r.massFractionHistory := Some([]);
      results := r;
      this.fixedStatus := fixedStatus;
      stream := None;
      streamType := None;
      splitInto, splitOut := [], [];
      maxInto, maxOut := 0.0, 0.0;
      valueProfiles := map[];
      binaryProfile := map[];
      streamLimits := None;
      massFraction := Dict([], map[]);
      massFractionStatus, massStreamStatus := 1, 1;
      this.pressure, pressureStatus := pressure, 0;
      this.temperature, temperatureStatus := temperature, 0;
      updatedFluid := 1;
    }

    function GetSign(): StreamDirection
      reads results
    {
      results.sign
    }

    // ----- queries -----

    /** `check_port_value` for the stream of this port. */
    function CheckPortValue(value: Ext, runcount: nat): (r: Result<Ext>)
      reads this`streamLimits, this`binaryProfile, results
      ensures r == CheckedValue(results.sign, streamLimits, binaryProfile, value, runcount)
    {
      CheckedValue(results.sign, streamLimits, binaryProfile, value, runcount)
    }

    /** What `set_stream` makes of a value: the checked value, or the error it stops with. */
    function StreamOutcome(value: Ext, runcount: nat): (r: Result<real>)
      reads this`streamLimits, this`binaryProfile, results
      ensures r.Ok? <==> CheckPortValue(value, runcount).Ok? && CheckPortValue(value, runcount).value.Fin?
      ensures r.Ok? ==> CheckPortValue(value, runcount) == Ok(Fin(r.value))
      ensures r.Err? ==> r.error == IndexError || r.error == InfiniteStream
    {
      var c :- CheckPortValue(value, runcount);
      if c.Fin? then Ok(c.r) else Err(InfiniteStream)
    }

    /** `get_stream_limited_value`: IndexError when no limits are set. */
    function GetStreamLimitedValue(value: Ext): (r: Result<Ext>)
      reads this`streamLimits
      ensures r.Err? <==> streamLimits.None?
      ensures r.Err? ==> r.error == IndexError
      ensures r.Ok? ==> r.value == StreamLimited(value, streamLimits.value)
    {
      if streamLimits.None? then Err(IndexError) else Ok(StreamLimited(value, streamLimits.value))
    }

    /**
     * `get_value_limits`: the limits that are not empty.  Only the stream ever
     * receives limits, so the pressure, temperature and mass-fraction entries
     * are always left out.
     */
    function GetValueLimits(): (r: map<PhysicalQuantity, Limits>)
      reads this`streamLimits
      ensures Stream in r <==> streamLimits.Some?
      ensures forall q :: q in r ==> q == Stream && r[q] == streamLimits.value
    {
      if streamLimits.Some? then map[Stream := streamLimits.value] else map[]
    }

    /** `get_stream_limits`: the stream entry of `get_value_limits`, None when no limits are set. */
    function GetStreamLimits(): (r: Option<Limits>)
      reads this`streamLimits
      ensures r.Some? <==> Stream in GetValueLimits()
      ensures r.Some? ==> r.value == GetValueLimits()[Stream]
    {
      if Stream in GetValueLimits() then Some(GetValueLimits()[Stream]) else None
    }

    /** `get_profile_values` as written, with the sign test that always holds. */
    function GetProfileValues(runcount: nat, sign: Option<StreamDirection>): (r: Result<Option<map<PhysicalQuantity, real>>>)
      reads this`valueProfiles, results
      ensures r == ProfileValuesAsWritten(valueProfiles, results.sign, runcount, sign)
    {
      ProfileValuesAsWritten(valueProfiles, results.sign, runcount, sign)
    }

    /** `get_all_properties` of either kind of port. */
    function GetAllProperties(): (r: PortProperties)
      reads this
      ensures r.EnergyProperties? <==> kind.EnergyPort?
      ensures r.stream == stream
      ensures r.MassProperties? ==> r.pressure == pressure && r.temperature == temperature && r.massFraction == massFraction
    {
      if kind.MassPort? then MassProperties(pressure, temperature, massFraction, stream) else EnergyProperties(stream)
    }

    // ----- stream -----

    /**
     * `set_stream`: the value is checked and stored.  A missing value is a
     * TypeError; a value the checks leave infinite is refused with
     * `InfiniteStream`, since streams are finite here.  On any error the stream
     * is unchanged.
     */
    method SetStream(runcount: nat, value: Option<Ext>) returns (r: Result<real>)
      modifies this`stream
      ensures value.None? ==> r == Err(TypeError)
      ensures value.Some? && CheckPortValue(value.value, runcount).Err? ==> r == Err(IndexError)
      ensures value.Some? && CheckPortValue(value.value, runcount).Ok? ==>
                if CheckPortValue(value.value, runcount).value.Fin?
                then r == Ok(CheckPortValue(value.value, runcount).value.r)
                else r == Err(InfiniteStream)
      ensures value.Some? ==> r == StreamOutcome(value.value, runcount)
      ensures r.Ok? ==> stream == Some(r.value)
      ensures r.Err? ==> stream == old(stream)
    {
      if value.None? {
        return Err(TypeError);
      }
      var checked := CheckPortValue(value.value, runcount);
      if checked.Err? {
        return Err(checked.error);
      }
      if !checked.value.Fin? {
        return Err(InfiniteStream);
      }
      stream := Some(checked.value.r);
      r := Ok(checked.value.r);
    }

    /** `set_maximum_stream`: sets the second stored limit; IndexError when there are no limits. */
    method SetMaximumStream(runcount: nat) returns (r: Result<real>)
      modifies this`stream
      ensures streamLimits.None? ==> r == Err(IndexError) && stream == old(stream)
      ensures streamLimits.Some? ==>
                var c := CheckPortValue(streamLimits.value.1, runcount);
                (c.Ok? && c.value.Fin? ==> r == Ok(c.value.r) && stream == Some(c.value.r)) &&
                (c.Err? || !c.value.Fin? ==> r.Err? && stream == old(stream))
      ensures streamLimits.Some? ==> r == StreamOutcome(streamLimits.value.1, runcount)
    {
      if streamLimits.None? {
        return Err(IndexError);
      }
      r := SetStream(runcount, Some(streamLimits.value.1));
    }

    /**
     * What `set_profile_stream` makes of the stream profile's value at
     * `runcount`: the checked value, or the error it stops with.  No profile
     * is a TypeError, a profile without a stream entry a KeyError.
     */
    function ProfileOutcome(runcount: nat): (r: Result<real>)
      reads this`valueProfiles, this`streamLimits, this`binaryProfile, results
      ensures var p := GetProfileValues(runcount, None);
              && (p.Err? ==> r == Err(p.error))
              && (p == Ok(None) ==> r == Err(TypeError))
              && (p.Ok? && p.value.Some? && Stream !in p.value.value ==> r == Err(KeyError))
              && (p.Ok? && p.value.Some? && Stream in p.value.value ==>
                    r == StreamOutcome(Fin(p.value.value[Stream]), runcount))
    {
      var p :- GetProfileValues(runcount, None);
      if p.None? then Err(TypeError)
      else if Stream !in p.value then Err(KeyError)
      else StreamOutcome(Fin(p.value[Stream]), runcount)
    }

    /** `set_profile_stream`: the profile's value at `runcount`, checked and stored. */
    method SetProfileStream(runcount: nat) returns (r: Result<real>)
      modifies this`stream
      ensures r == ProfileOutcome(runcount)
      ensures r.Ok? ==> stream == Some(r.value)
      ensures r.Err? ==> stream == old(stream)
    {
      var p := GetProfileValues(runcount, None);
      if p.Err? {
        return Err(p.error);
      }
      if p.value.None? {
        return Err(TypeError);
      }
      if Stream !in p.value.value {
        return Err(KeyError);
      }
      r := SetStream(runcount, Some(Fin(p.value.value[Stream])));
    }

    // ----- limits -----

    /** `update_stream_limit`: stores the pair, sorted in descending order when the first bound has the larger magnitude. */
    method UpdateStreamLimit(limit: Limits)
      modifies this`streamLimits
      ensures streamLimits == Some(LimitOrderAsWritten(limit))
    {
      streamLimits := Some(LimitOrderAsWritten(limit));
    }

    /** `set_stream_limit`: like `update_stream_limit`, but only when no limits are set yet. */
    method SetStreamLimit(limit: Limits)
      modifies this`streamLimits
      ensures old(streamLimits).Some? ==> streamLimits == old(streamLimits)
      ensures old(streamLimits).None? ==> streamLimits == Some(LimitOrderAsWritten(limit))
    {
      if streamLimits.None? {
        streamLimits := Some(LimitOrderAsWritten(limit));
      }
    }

    /** `reset_stream_limits`. */
    method ResetStreamLimits()
      modifies this`streamLimits
      ensures streamLimits == None
    {
      streamLimits := None;
    }

    // ----- profiles and simple setters -----

    /** `set_port_profile`. */
    method SetPortProfile(q: PhysicalQuantity, profile: seq<real>) returns (r: Result<()>)
      modifies this`valueProfiles
      ensures var s := StoreProfile(old(valueProfiles), results.sign, q, profile);
              (s.Ok? ==> r == Ok(()) && valueProfiles == s.value) &&
              (s.Err? ==> r == Err(s.error) && valueProfiles == old(valueProfiles))
    {
      var s := StoreProfile(valueProfiles, results.sign, q, profile);
      if s.Err? {
        return Err(s.error);
      }
      valueProfiles := s.value;
      r := Ok(());
    }

    /** `set_port_binary_profile`. */
    method SetPortBinaryProfile(profile: seq<real>, sign: StreamDirection)
      modifies this`binaryProfile
      ensures binaryProfile == old(binaryProfile)[sign := profile]
    {
      binaryProfile := binaryProfile[sign := profile];
    }

    /** `set_fixed_status`. */
    method SetFixedStatus(status: bool)
      modifies this`fixedStatus
      ensures fixedStatus == status
    {
      fixedStatus := status;
    }

    /** `set_linked_branch`. */
    method SetLinkedBranch(branchId: Option<string>)
      modifies results`branchId
      ensures results.branchId == branchId
    {
      results.branchId := branchId;
    }

    // ----- history -----

    /**
     * `save_state` of either kind: the base split bookkeeping (a None stream
     * records nothing there), then the stream (and for a mass port the mass
     * fractions, pressure and temperature) appended to the history.
     */
    method SaveState()
      requires Valid()
      modifies this`splitInto, this`splitOut, this`maxInto, this`maxOut,
               results`streamHistory, results`pressureHistory, results`temperatureHistory, results`massFractionHistory
      ensures Valid()
      ensures results.streamHistory == Some(old(results.streamHistory.value) + [stream])
      ensures stream.None? ==> splitInto == old(splitInto) && splitOut == old(splitOut) &&
                               maxInto == old(maxInto) && maxOut == old(maxOut)
      ensures stream.Some? ==> splitInto == old(splitInto) + [IntoPart(stream.value)] &&
                               splitOut == old(splitOut) + [OutPart(stream.value)]
      ensures stream.Some? ==> maxInto == MinOf(old(maxInto), IntoPart(stream.value)) &&
                               maxOut == MaxOf(old(maxOut), OutPart(stream.value))
      ensures kind == MassPort ==>
                && results.pressureHistory == Some(old(results.pressureHistory.value) + [pressure])
                && results.temperatureHistory == Some(old(results.temperatureHistory.value) + [temperature])
                && results.massFractionHistory == Some(old(results.massFractionHistory.value) + [massFraction])
      ensures kind == EnergyPort ==>
                && results.pressureHistory == old(results.pressureHistory)
                && results.temperatureHistory == old(results.temperatureHistory)
                && results.massFractionHistory == old(results.massFractionHistory)
      ensures results.sign == old(results.sign)
      ensures results.branchId == old(results.branchId) && results.portType == old(results.portType)
      ensures results.streamUnit == old(results.streamUnit) && results.componentId == old(results.componentId)
    {
      var h := results.streamHistory.value;
      if stream.Some? {
        var x := stream.value;
        SplitStep(splitInto, splitOut, KnownStreams(h), maxInto, maxOut, x);
        splitInto := splitInto + [IntoPart(x)];
        splitOut := splitOut + [OutPart(x)];
        maxInto := MinOf(maxInto, IntoPart(x));
        maxOut := MaxOf(maxOut, OutPart(x));
      }
      if kind == MassPort {
        results.massFractionHistory := Some(results.massFractionHistory.value + [massFraction]);
        results.pressureHistory := Some(results.pressureHistory.value + [pressure]);
        results.temperatureHistory := Some(results.temperatureHistory.value + [temperature]);
      }
      results.streamHistory := Some(h + [stream]);
      assert (h + [stream])[..|h|] == h;
    }

    /**
     * `reset_history` of either kind: empty histories under the keys the class
     * creates, empty split lists, both maxima 0; a mass port also marks every
     * property calculated.
     */
    method ResetHistory()
      modifies this`splitInto, this`splitOut, this`maxInto, this`maxOut,
              results`streamHistory, results`pressureHistory, results`temperatureHistory, results`massFractionHistory
      modifies this`pressureStatus, this`temperatureStatus, this`massFractionStatus, this`massStreamStatus
      ensures Valid()
      ensures splitInto == [] && splitOut == [] && maxInto == 0.0 && maxOut == 0.0
      ensures results.streamHistory == Some([])
      ensures kind == MassPort ==>
                && results.pressureHistory == Some([]) && results.temperatureHistory == Some([])
                && results.massFractionHistory == Some([])
                && pressureStatus == 1 && temperatureStatus == 1 && massFractionStatus == 1 && massStreamStatus == 1
      ensures kind == EnergyPort ==>
                && results.pressureHistory == None && results.temperatureHistory == None
                && results.massFractionHistory == None
                && pressureStatus == old(pressureStatus) && temperatureStatus == old(temperatureStatus)
                && massFractionStatus == old(massFractionStatus) && massStreamStatus == old(massStreamStatus)
      ensures results.sign == old(results.sign)
      ensures results.branchId == old(results.branchId) && results.portType == old(results.portType)
      ensures results.streamUnit == old(results.streamUnit) && results.componentId == old(results.componentId)
    {
      results.streamHistory := None;
      results.pressureHistory := None;
      results.temperatureHistory := None;
      results.massFractionHistory := None;
      splitInto, splitOut := [], [];
      maxInto, maxOut := 0.0, 0.0;
      if kind == MassPort {
        pressureStatus, temperatureStatus, massFractionStatus, massStreamStatus := 1, 1, 1, 1;
        results.massFractionHistory := Some([]);
        results.pressureHistory := Some([]);
        results.temperatureHistory := Some([]);
      }
      results.streamHistory := Some([]);
    }

    // ----- mass-port properties (Port_Mass.py) -----

    /** `set_pressure`: stores the value and marks the pressure uncalculated. */
    method SetPressure(p: Ext)
      modifies this`pressure, this`pressureStatus, this`updatedFluid
      ensures pressure == p && pressureStatus == 0 && updatedFluid == 1
    {
      pressure := p;
      pressureStatus := 0;
      updatedFluid := 1;
    }

    /** `set_temperature`: stores the value and marks the temperature uncalculated. */
    method SetTemperature(t: Ext)
      modifies this`temperature, this`temperatureStatus, this`updatedFluid
      ensures temperature == t && temperatureStatus == 0 && updatedFluid == 1
    {
      temperature := t;
      temperatureStatus := 0;
      updatedFluid := 1;
    }

    /**
     * `set_mass_fraction`: merges the given fractions; as written it marks the
     * temperature uncalculated and leaves the mass-fraction status alone.
     */
    method SetMassFraction(fractions: PyDict<StreamMass, real>)
      modifies this`massFraction, this`temperatureStatus, this`updatedFluid
      ensures massFraction.entries == old(massFraction.entries) + fractions.entries
      ensures |massFraction.keys| >= |old(massFraction.keys)| &&
              massFraction.keys[..|old(massFraction.keys)|] == old(massFraction.keys)
      ensures temperatureStatus == 0 && updatedFluid == 1
    {
      temperatureStatus := 0;
      massFraction := massFraction.Update(fractions);
      updatedFluid := 1;
    }

    /** `set_status_calculated`: every status 1 on a mass port, nothing on an energy port. */
    method SetStatusCalculated()
      modifies this`pressureStatus, this`temperatureStatus, this`massFractionStatus, this`massStreamStatus
      ensures kind == MassPort ==>
                pressureStatus == 1 && temperatureStatus == 1 && massFractionStatus == 1 && massStreamStatus == 1
      ensures kind == EnergyPort ==>
                && pressureStatus == old(pressureStatus) && temperatureStatus == old(temperatureStatus)
                && massFractionStatus == old(massFractionStatus) && massStreamStatus == old(massStreamStatus)
    {
      if kind == MassPort {
        pressureStatus, temperatureStatus, massFractionStatus, massStreamStatus := 1, 1, 1, 1;
      }
    }

    /** `set_status_uncalculated`: every status 0; only mass ports have it (AttributeError otherwise). */
    method SetStatusUncalculated() returns (r: Result<()>)
      modifies this`pressureStatus, this`temperatureStatus, this`massFractionStatus, this`massStreamStatus
      ensures kind == EnergyPort ==> r == Err(AttributeError)
      ensures kind == MassPort ==>
                r == Ok(()) && pressureStatus == 0 && temperatureStatus == 0 && massFractionStatus == 0 &&
                massStreamStatus == 0
      ensures kind == EnergyPort ==>
                && pressureStatus == old(pressureStatus) && temperatureStatus == old(temperatureStatus)
                && massFractionStatus == old(massFractionStatus) && massStreamStatus == old(massStreamStatus)
    {
      if kind == EnergyPort {
        return Err(AttributeError);
      }
      pressureStatus, temperatureStatus, massFractionStatus, massStreamStatus := 0, 0, 0, 0;
      r := Ok(());
    }

    /**
     * `Port_Mass.set_type_and_unit`.  A unit that differs from the commodity's
     * canonical one is only logged, and so is a second call.  Otherwise the type
     * is recorded first; then a commodity missing from the fraction table is a
     * KeyError and fractions that do not sum to 1 a PortMassError (the type
     * stays recorded); else the fractions are merged and the stream type and
     * the given unit stored.
     */
    method SetMassTypeAndUnit(portType: StreamMass, unit: Option<Unit>, table: FractionTable) returns (r: Result<()>)
      requires kind == MassPort
      modifies results`portType, results`streamUnit, this`massFraction, this`streamType
      ensures unit.Some? && Some(unit.value) != GetStreamUnit(MassType(portType)) ==>
                r == Ok(()) && results.portType == old(results.portType) && massFraction == old(massFraction)
      ensures (unit.None? || Some(unit.value) == GetStreamUnit(MassType(portType))) && old(results.portType).Some? ==>
                r == Ok(()) && results.portType == old(results.portType) && massFraction == old(massFraction)
      ensures (unit.None? || Some(unit.value) == GetStreamUnit(MassType(portType))) && old(results.portType).None? ==>
                && results.portType == Some(MassType(portType))
                && (portType !in table ==> r == Err(KeyError))
                && (portType in table && FractionSum(table[portType].keys, table[portType].entries) != 1.0 ==>
                      r == Err(PortMassError) && massFraction == old(massFraction))
                && (portType in table && FractionSum(table[portType].keys, table[portType].entries) == 1.0 ==>
                      && r == Ok(())
                      && massFraction.entries == old(massFraction.entries) + table[portType].entries
                      && streamType == GetStreamType(MassType(portType))
                      && results.streamUnit == unit)
      ensures r.Err? ==> streamType == old(streamType) && results.streamUnit == old(results.streamUnit)
    {
      if unit.Some? && Some(unit.value) != GetStreamUnit(MassType(portType)) {
        return Ok(());
      }
      if results.portType.Some? {
        return Ok(());
      }
      results.portType := Some(MassType(portType));
      if portType !in table {
        return Err(KeyError);
      }
      var fractions := table[portType];
      if FractionSum(fractions.keys, fractions.entries) != 1.0 {
        return Err(PortMassError);
      }
      massFraction := massFraction.Update(fractions);
      streamType := GetStreamType(MassType(portType));
      results.streamUnit := unit;
      r := Ok(());
    }

    /**
     * `Port_Energy.set_type_and_unit`: on a port without a type, a unit other
     * than the canonical one is only logged; otherwise the type, its stream type
     * and its canonical unit are set.  A port that has a type keeps it.
     */
    method SetEnergyTypeAndUnit(portType: StreamEnergy, unit: Option<Unit>)
      modifies results`portType, results`streamUnit, this`streamType
      ensures old(results.portType).Some? ==>
                results.portType == old(results.portType) && streamType == old(streamType) &&
                results.streamUnit == old(results.streamUnit)
      ensures old(results.portType).None? && unit.Some? && Some(unit.value) != GetStreamUnit(EnergyType(portType)) ==>
                results.portType == None && streamType == old(streamType) && results.streamUnit == old(results.streamUnit)
      ensures old(results.portType).None? && (unit.None? || Some(unit.value) == GetStreamUnit(EnergyType(portType))) ==>
                && results.portType == Some(EnergyType(portType))
                && streamType == GetStreamType(EnergyType(portType))
                && results.streamUnit == GetStreamUnit(EnergyType(portType))
    {
      if results.portType.None? {
        if unit.Some? && Some(unit.value) != GetStreamUnit(EnergyType(portType)) {
        } else {
          results.portType := Some(EnergyType(portType));
          streamType := GetStreamType(EnergyType(portType));
          results.streamUnit := GetStreamUnit(EnergyType(portType));
        }
      }
    }

    /**
     * `set_all_properties`.  An energy port copies the other port's stream
     * through `set_stream`.  A mass port copies pressure and temperature, then
     * the stream through `set_stream` (an error there leaves the two copies in
     * place), then merges the mass fractions; an energy port as the source has
     * no pressure (AttributeError).
     */
    method SetAllProperties(runcount: nat, other: Port) returns (r: Result<()>)
      modifies this`stream, this`pressure, this`pressureStatus, this`temperature, this`temperatureStatus
      modifies this`updatedFluid, this`massFraction
      ensures kind == MassPort && other.kind == EnergyPort ==>
                r == Err(AttributeError) && stream == old(stream) && pressure == old(pressure) &&
                temperature == old(temperature) && massFraction == old(massFraction)
      ensures kind == MassPort && other.kind == MassPort ==>
                pressure == old(other.pressure) && temperature == old(other.temperature) &&
                pressureStatus == 0 && temperatureStatus == 0
      ensures kind == MassPort && other.kind == MassPort && r.Ok? ==>
                massFraction.entries == old(massFraction.entries) + old(other.massFraction.entries)
      ensures kind == EnergyPort ==>
                pressure == old(pressure) && temperature == old(temperature) && massFraction == old(massFraction)
      ensures r.Ok? ==> stream.Some? && old(other.stream).Some?
      ensures r.Ok? ==> CheckPortValue(Fin(old(other.stream).value), runcount) == Ok(Fin(stream.value))
      ensures r.Err? ==> stream == old(stream)
      ensures old(other.stream).None? && !(kind == MassPort && other.kind == EnergyPort) ==> r == Err(TypeError)
    {
      var value := AsValue(other.stream);
      var fractions := other.massFraction;
      if kind == EnergyPort {
        var s := SetStream(runcount, value);
        if s.Err? {
          return Err(s.error);
        }
        return Ok(());
      }
      if other.kind == EnergyPort {
        return Err(AttributeError);
      }
      var p, t := other.pressure, other.temperature;
      SetPressure(p);
      SetTemperature(t);
      var s := SetStream(runcount, value);
      if s.Err? {
        return Err(s.error);
      }
      SetMassFraction(fractions);
      r := Ok(());
    }
  }

  /**
   * `Port_Mass.__init__` without the REFPROP fluid: the port with its
   * initial state, then `set_type_and_unit`, whose error aborts the
   * construction.
   */
  method NewMassPort(componentId: string, portId: string, portType: StreamMass, sign: StreamDirection,
                     unit: Option<Unit>, fixedStatus: bool, pressure: Ext, temperature: Ext,
                     table: FractionTable) returns (r: Result<Port>)
    ensures r.Ok? ==> fresh(r.value) && fresh(r.value.results)
    ensures r.Ok? ==> r.value.kind == MassPort && r.value.Valid()
    ensures r.Ok? ==> r.value.pressure == pressure && r.value.temperature == temperature
    ensures r.Ok? ==> r.value.pressureStatus == 0 && r.value.temperatureStatus == 0
    ensures r.Ok? ==> r.value.massFractionStatus == 1 && r.value.massStreamStatus == 1
    ensures r.Ok? ==> r.value.results.portId == portId && r.value.results.sign == sign
    ensures r.Ok? ==> r.value.stream == None && r.value.streamLimits == None && r.value.fixedStatus == fixedStatus
    ensures r.Ok? ==> r.value.valueProfiles == map[] && r.value.binaryProfile == map[] && r.value.results.branchId == None
    ensures r.Ok? ==> r.value.results.streamHistory == Some([]) && r.value.splitInto == [] && r.value.splitOut == []
    ensures (unit.None? || Some(unit.value) == GetStreamUnit(MassType(portType))) ==>
              (r.Ok? <==> portType in table && FractionSum(table[portType].keys, table[portType].entries) == 1.0)
    ensures r.Ok? && (unit.None? || Some(unit.value) == GetStreamUnit(MassType(portType))) ==>
              r.value.results.portType == Some(MassType(portType)) &&
              r.value.massFraction.entries == table[portType].entries
    ensures r.Err? ==> r.error == KeyError || r.error == PortMassError
  {
    var port := new Port.Mass(componentId, portId, sign, unit, fixedStatus, pressure, temperature);
    var t := port.SetMassTypeAndUnit(portType, unit, table);
    if t.Err? {
      return Err(t.error);
    }
    r := Ok(port);
  }

  /**
   * The port's running maximum outflow is what the result record reports from
   * the history, whenever no recorded stream is None.
   */
  lemma MaxOutMatchesHistory(p: Port)
    requires p.Valid()
    requires Known(p.results.streamHistory.value).Some?
    ensures p.results.GetMaxStreamOutByHistory() == Ok(p.maxOut)
  {
    var h := p.results.streamHistory.value;
    var k := Known(h).value;
    KnownStreamsOfComplete(h);
    assert p.results.GetStreamHistory() == Ok(k);
    var r := p.results.GetMaxStreamOutByHistory().value;
    assert r >= p.maxOut by {
      if p.maxOut != 0.0 {
        var i :| 0 <= i < |p.splitOut| && p.splitOut[i] == p.maxOut;
        assert k[i] in k;
      }
    }
    assert r <= p.maxOut by {
      if r != 0.0 {
        var i :| 0 <= i < |k| && k[i] == r;
        assert p.splitOut[i] in p.splitOut;
      }
    }
  }

  /**
   * The port's running maximum inflow (the most negative stream) is what the
   * result record reports from the history, whenever no recorded stream is None.
   */
  lemma MaxIntoMatchesHistory(p: Port)
    requires p.Valid()
    requires Known(p.results.streamHistory.value).Some?
    ensures p.results.GetMaxStreamInByHistory() == Ok(p.maxInto)
  {
    var h := p.results.streamHistory.value;
    var k := Known(h).value;
    KnownStreamsOfComplete(h);
    assert p.results.GetStreamHistory() == Ok(k);
    var r := p.results.GetMaxStreamInByHistory().value;
    assert r <= p.maxInto by {
      if p.maxInto != 0.0 {
        var i :| 0 <= i < |p.splitInto| && p.splitInto[i] == p.maxInto;
        assert k[i] in k;
      }
    }
    assert r >= p.maxInto by {
      if r != 0.0 {
        var i :| 0 <= i < |k| && k[i] == r;
        assert p.splitInto[i] in p.splitInto;
      }
    }
  }
}
