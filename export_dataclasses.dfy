/**
 * Result records of the model (model_base/Dataclasses/ExportDataclasses.py):
 * the stream history of a port and its aggregates, the nested annuity
 * dictionaries of one stream-cost result, the annuity totals of a component
 * and the investment list of a CAPEX element.
 */
module ExportDataclasses {
  import opened CustomErrors
  import opened Wrappers
  import opened Dicts
  import opened ExtReal
  import opened Units
  import opened Streamtypes

  // ---------------------------------------------------------------------------
  // Sums, filters and extrema over lists of floats
  // ---------------------------------------------------------------------------

  /** Python's `sum` over a list of floats, adding from the left. */
  function Sum(s: seq<real>): real
  {
    if |s| == 0 then 0.0 else Sum(s[..|s| - 1]) + s[|s| - 1]
  }

  /** `r` can be obtained from `s` by deleting entries (the entries kept stay in order). */
  predicate IsSubsequence(r: seq<real>, s: seq<real>)
    decreases |s|
  {
    if |r| == 0 then true
    else if |s| == 0 then false
    else if r[|r| - 1] == s[|s| - 1] then IsSubsequence(r[..|r| - 1], s[..|s| - 1])
    else IsSubsequence(r, s[..|s| - 1])
  }

  /** `list(filter(lambda x: x > 0, s))`. */
  function Positives(s: seq<real>): (r: seq<real>)
    ensures forall i :: 0 <= i < |r| ==> r[i] > 0.0
    ensures forall x :: x in s && x > 0.0 ==> x in r
    ensures forall x :: x in r ==> x in s
    ensures IsSubsequence(r, s)
  {
    if |s| == 0 then []
    else
      var front := Positives(s[..|s| - 1]);
      assert s == s[..|s| - 1] + [s[|s| - 1]];
      if s[|s| - 1] > 0.0 then
        var r := front + [s[|s| - 1]];
        assert r[..|r| - 1] == front;
        r
      else front
  }

  /** `list(filter(lambda x: x < 0, s))`. */
  function Negatives(s: seq<real>): (r: seq<real>)
    ensures forall i :: 0 <= i < |r| ==> r[i] < 0.0
    ensures forall x :: x in s && x < 0.0 ==> x in r
    ensures forall x :: x in r ==> x in s
    ensures IsSubsequence(r, s)
  {
    if |s| == 0 then []
    else
      var front := Negatives(s[..|s| - 1]);
      assert s == s[..|s| - 1] + [s[|s| - 1]];
      if s[|s| - 1] < 0.0 then
        var r := front + [s[|s| - 1]];
        assert r[..|r| - 1] == front;
        r
      else front
  }

  /** Python's `max` of a non-empty list. */
  function Max(s: seq<real>): (m: real)
    requires |s| > 0
    ensures m in s
    ensures forall i :: 0 <= i < |s| ==> s[i] <= m
  {
    if |s| == 1 then s[0]
    else
      var front := Max(s[..|s| - 1]);
      assert forall i :: 0 <= i < |s| - 1 ==> s[i] == s[..|s| - 1][i];
      if s[|s| - 1] > front then s[|s| - 1] else front
  }

  /** Python's `min` of a non-empty list. */
  function Min(s: seq<real>): (m: real)
    requires |s| > 0
    ensures m in s
    ensures forall i :: 0 <= i < |s| ==> m <= s[i]
  {
    if |s| == 1 then s[0]
    else
      var front := Min(s[..|s| - 1]);
      assert forall i :: 0 <= i < |s| - 1 ==> s[i] == s[..|s| - 1][i];
      if s[|s| - 1] < front then s[|s| - 1] else front
  }

  /** A history's entries when none of them is None, and None otherwise (`None not in history`). */
  function Known(h: seq<Option<real>>): (r: Option<seq<real>>)
    ensures r.Some? <==> forall i :: 0 <= i < |h| ==> h[i].Some?
    ensures r.Some? ==> |r.value| == |h| && forall i :: 0 <= i < |h| ==> h[i] == Some(r.value[i])
  {
    if |h| == 0 then Some([])
    else
      var front := Known(h[..|h| - 1]);
      assert forall i :: 0 <= i < |h| - 1 ==> h[i] == h[..|h| - 1][i];
      if front.Some? && h[|h| - 1].Some? then Some(front.value + [h[|h| - 1].value]) else None
  }

  /** The whole history is the sum of its outflows (positive entries) and its inflows (negative entries). */
  lemma {:induction false} SumSplitsBySign(s: seq<real>)
    ensures Sum(s) == Sum(Positives(s)) + Sum(Negatives(s))
    ensures |Positives(s)| + |Negatives(s)| <= |s|
  {
    if |s| > 0 {
      var front := s[..|s| - 1];
      SumSplitsBySign(front);
      var x := s[|s| - 1];
      if x > 0.0 {
        assert (Positives(front) + [x])[..|Positives(front)|] == Positives(front);
      } else if x < 0.0 {
        assert (Negatives(front) + [x])[..|Negatives(front)|] == Negatives(front);
      }
    }
  }

  /** A sum over strictly positive entries is non-negative, and zero only when there are none. */
  lemma {:induction false} SumOfPositives(s: seq<real>)
    requires forall i :: 0 <= i < |s| ==> s[i] > 0.0
    ensures Sum(s) >= 0.0
    ensures Sum(s) == 0.0 <==> |s| == 0
  {
    if |s| > 0 {
      SumOfPositives(s[..|s| - 1]);
    }
  }

  /** A sum over strictly negative entries is non-positive, and zero only when there are none. */
  lemma {:induction false} SumOfNegatives(s: seq<real>)
    requires forall i :: 0 <= i < |s| ==> s[i] < 0.0
    ensures Sum(s) <= 0.0
    ensures Sum(s) == 0.0 <==> |s| == 0
  {
    if |s| > 0 {
      SumOfNegatives(s[..|s| - 1]);
    }
  }

  // ---------------------------------------------------------------------------
  // PortResult
  // ---------------------------------------------------------------------------

  /**
   * `PortResult`: the identity of a port and its value history.  Each history
   * is None while its key is missing from `port_history`.
   */
  class PortResult {
    const portId: string
    var sign: StreamDirection
    var streamUnit: Option<Unit>
    var portType: Option<PortType>
    var branchId: Option<string>
    var componentId: string
    var streamHistory: Option<seq<Option<real>>>
    var pressureHistory: Option<seq<Ext>>
    var temperatureHistory: Option<seq<Ext>>
    var massFractionHistory: Option<seq<Dict<StreamMass, real>>>

    constructor (portId: string, sign: StreamDirection, streamUnit: Option<Unit>, componentId: string)
      ensures this.portId == portId && this.sign == sign && this.streamUnit == streamUnit
      ensures this.componentId == componentId && portType == None && branchId == None
      ensures streamHistory == None && pressureHistory == None && temperatureHistory == None
      ensures massFractionHistory == None
    {
      this.portId := portId;
      this.sign := sign;
      this.streamUnit := streamUnit;
      this.componentId := componentId;
      portType := None;
      branchId := None;
      streamHistory := None;
      pressureHistory := None;
      temperatureHistory := None;
      massFractionHistory := None;
    }

    /**
     * `get_stream_history`: the recorded streams, or the empty list as soon as
     * one of them is None; KeyError when no stream history exists.
     */
    function GetStreamHistory(): (r: Result<seq<real>>)
      reads this
      ensures r.Err? <==> streamHistory.None?
      ensures r.Err? ==> r.error == KeyError
      ensures r.Ok? && (exists i :: 0 <= i < |streamHistory.value| && streamHistory.value[i].None?) ==> r.value == []
      ensures r.Ok? && (forall i :: 0 <= i < |streamHistory.value| ==> streamHistory.value[i].Some?) ==>
                |r.value| == |streamHistory.value| &&
                forall i :: 0 <= i < |r.value| ==> streamHistory.value[i] == Some(r.value[i])
    {
      if streamHistory.None? then Err(KeyError)
      else
        var known := Known(streamHistory.value);
        if known.Some? then Ok(known.value) else Ok([])
    }

    /** `get_stream_history_out`: the outflows, in order. */
    function GetStreamHistoryOut(): (r: Result<seq<real>>)
      reads this
      ensures r.Err? <==> GetStreamHistory().Err?
      ensures r.Ok? ==> IsSubsequence(r.value, GetStreamHistory().value)
      ensures r.Ok? ==> forall x :: x in GetStreamHistory().value ==> (x in r.value <==> x > 0.0)
    {
      var h :- GetStreamHistory();
      Ok(Positives(h))
    }

    /** `get_stream_history_in`: the inflows, in order. */
    function GetStreamHistoryIn(): (r: Result<seq<real>>)
      reads this
      ensures r.Err? <==> GetStreamHistory().Err?
      ensures r.Ok? ==> IsSubsequence(r.value, GetStreamHistory().value)
      ensures r.Ok? ==> forall x :: x in GetStreamHistory().value ==> (x in r.value <==> x < 0.0)
    {
      var h :- GetStreamHistory();
      Ok(Negatives(h))
    }

    /** `get_sum_stream_out_by_history`: never negative. */
    function GetSumStreamOutByHistory(): (r: Result<real>)
      reads this
      ensures r.Err? <==> GetStreamHistory().Err?
      ensures r.Ok? ==> r.value >= 0.0
      ensures r.Ok? ==> (r.value == 0.0 <==> forall x :: x in GetStreamHistory().value ==> x <= 0.0)
    {
      var h :- GetStreamHistory();
      var out := Positives(h);
      SumOfPositives(out);
      assert |out| > 0 ==> out[0] in h && out[0] > 0.0;
      Ok(Sum(out))
    }

    /** `get_sum_stream_in_by_history`: never positive. */
    function GetSumStreamInByHistory(): (r: Result<real>)
      reads this
      ensures r.Err? <==> GetStreamHistory().Err?
      ensures r.Ok? ==> r.value <= 0.0
      ensures r.Ok? ==> (r.value == 0.0 <==> forall x :: x in GetStreamHistory().value ==> x >= 0.0)
    {
      var h :- GetStreamHistory();
      var into := Negatives(h);
      SumOfNegatives(into);
      assert |into| > 0 ==> into[0] in h && into[0] < 0.0;
      Ok(Sum(into))
    }

    /** `get_max_stream_out_by_history`: the largest outflow, or 0; it bounds every recorded stream from above. */
    function GetMaxStreamOutByHistory(): (r: Result<real>)
      reads this
      ensures r.Err? <==> GetStreamHistory().Err?
      ensures r.Ok? ==> r.value >= 0.0
      ensures r.Ok? ==> forall x :: x in GetStreamHistory().value ==> x <= r.value
      ensures r.Ok? ==> r.value == 0.0 || r.value in GetStreamHistory().value
    {
      var out :- GetStreamHistoryOut();
      if |out| > 0 then
        var m := Max(out);
        assert forall x :: x in out ==> x <= m by {
          forall x | x in out ensures x <= m {
            var i :| 0 <= i < |out| && out[i] == x;
          }
        }
        Ok(m)
      else Ok(0.0)
    }

    /** `get_max_stream_in_by_history`: the most negative inflow, or 0; it bounds every recorded stream from below. */
    function GetMaxStreamInByHistory(): (r: Result<real>)
      reads this
      ensures r.Err? <==> GetStreamHistory().Err?
      ensures r.Ok? ==> r.value <= 0.0
      ensures r.Ok? ==> forall x :: x in GetStreamHistory().value ==> r.value <= x
      ensures r.Ok? ==> r.value == 0.0 || r.value in GetStreamHistory().value
    {
      var into :- GetStreamHistoryIn();
      if |into| > 0 then
        var m := Min(into);
        assert forall x :: x in into ==> m <= x by {
          forall x | x in into ensures m <= x {
            var i :| 0 <= i < |into| && into[i] == x;
          }
        }
        Ok(m)
      else Ok(0.0)
    }
  }

  /** The out- and in-sums of a port's history add up to the sum of the whole history. */
  lemma HistorySumsAddUp(p: PortResult)
    requires p.GetStreamHistory().Ok?
    ensures p.GetSumStreamOutByHistory().value + p.GetSumStreamInByHistory().value == Sum(p.GetStreamHistory().value)
  {
    SumSplitsBySign(p.GetStreamHistory().value);
  }

  // ---------------------------------------------------------------------------
  // CAPEX and OPEX elements
  // ---------------------------------------------------------------------------

  /** `ElementCAPEX`, with the fields the modelled code reads. */
  datatype ElementCAPEX = ElementCAPEX(elementName: string, allInvestments: seq<real>, annuity: real, remainValue: real)
  {
    /** `get_first_investment`: `all_investments[0]`, an IndexError for an empty list. */
    function GetFirstInvestment(): (r: Result<real>)
      ensures r.Ok? <==> |allInvestments| > 0
      ensures r.Err? ==> r.error == IndexError
      ensures r.Ok? ==> r.value in allInvestments
    {
      if |allInvestments| == 0 then Err(IndexError) else Ok(allInvestments[0])
    }

    /** `get_replacement_invests`: `all_investments[1:]`, empty for an empty list. */
    function GetReplacementInvests(): (r: seq<real>)
      ensures |r| == if |allInvestments| == 0 then 0 else |allInvestments| - 1
      ensures forall x :: x in r ==> x in allInvestments
    {
      if |allInvestments| == 0 then [] else allInvestments[1..]
    }
  }

  /** The first investment followed by the replacement investments is the whole investment list. */
  lemma InvestmentsSplit(e: ElementCAPEX)
    requires e.GetFirstInvestment().Ok?
    ensures [e.GetFirstInvestment().value] + e.GetReplacementInvests() == e.allInvestments
  {
  }

  /** `ElementVariableOPEX` and `ElementFixOPEX`, with the fields the modelled code reads. */
  datatype ElementOPEX = ElementOPEX(elementName: string, annuity: real)

  function CapexAnnuitySum(es: seq<ElementCAPEX>): real
  {
    if |es| == 0 then 0.0 else CapexAnnuitySum(es[..|es| - 1]) + es[|es| - 1].annuity
  }

  function OpexAnnuitySum(es: seq<ElementOPEX>): real
  {
    if |es| == 0 then 0.0 else OpexAnnuitySum(es[..|es| - 1]) + es[|es| - 1].annuity
  }

  // ---------------------------------------------------------------------------
  // SingleStreamEconResult: the nested annuity dictionaries
  // ---------------------------------------------------------------------------

  /**
   * A leaf of the nested cost dictionaries: a float, a list of floats, or the
   * empty dictionary `{}` that `extend_dictionary_if_necessary` puts in place
   * of a missing leaf.
   */
  datatype CostValue = Amount(amount: real) | Series(values: seq<real>) | Placeholder

  /** `cost_value if isinstance(cost_value, float) else sum(cost_value)`; summing `{}` gives 0. */
  function CostSum(v: CostValue): real
  {
    match v
    case Amount(a) => a
    case Series(s) => Sum(s)
    case Placeholder => 0.0
  }

  /** cost component name -> value */
  type Leaves = PyDict<string, CostValue>
  /** direction ('in' / 'out') -> cost components */
  type Directions = PyDict<string, Leaves>
  /** cost type ('stream_related', ...) -> directions */
  type CostTable = PyDict<string, Directions>

  /** The sum of `f` over the values of the listed keys, in list order. */
  function TotalOver<V>(ks: seq<string>, m: map<string, V>, f: V -> real): real
  {
    if |ks| == 0 then 0.0
    else TotalOver(ks[..|ks| - 1], m, f) + (if ks[|ks| - 1] in m then f(m[ks[|ks| - 1]]) else 0.0)
  }

  function LeavesTotal(l: Leaves): real
  {
    TotalOver(l.keys, l.entries, CostSum)
  }

  function DirectionsTotal(d: Directions): real
  {
    TotalOver(d.keys, d.entries, LeavesTotal)
  }

  /** The sum of every leaf of a cost table. */
  function TableTotal(t: CostTable): real
  {
    TotalOver(t.keys, t.entries, DirectionsTotal)
  }

  /** A key that is not listed does not contribute to a total. */
  lemma {:induction false} TotalOverFresh<V>(ks: seq<string>, m: map<string, V>, f: V -> real, k: string, v: V)
    requires k !in ks
    ensures TotalOver(ks, m[k := v], f) == TotalOver(ks, m, f)
  {
    if |ks| > 0 {
      TotalOverFresh(ks[..|ks| - 1], m, f, k, v);
    }
  }

  /** Appending a fresh key adds its value to the total. */
  lemma TotalOverAppend<V>(ks: seq<string>, m: map<string, V>, f: V -> real, k: string, v: V)
    requires k !in ks
    ensures TotalOver(ks + [k], m[k := v], f) == TotalOver(ks, m, f) + f(v)
  {
    assert (ks + [k])[..|ks|] == ks;
    TotalOverFresh(ks, m, f, k, v);
  }

  /** Replacing the value of a listed key changes the total by the difference of the two values. */
  lemma {:induction false} TotalOverReplace<V>(ks: seq<string>, m: map<string, V>, f: V -> real, k: string, v: V)
    requires k in m && k in ks
    requires forall i, j :: 0 <= i < j < |ks| ==> ks[i] != ks[j]
    ensures TotalOver(ks, m[k := v], f) == TotalOver(ks, m, f) - f(m[k]) + f(v)
  {
    var front := ks[..|ks| - 1];
    if ks[|ks| - 1] == k {
      assert k !in front by {
        forall i | 0 <= i < |front| ensures front[i] != k {
          assert front[i] == ks[i];
        }
      }
      TotalOverFresh(front, m, f, k, v);
    } else {
      assert k in front by {
        var i :| 0 <= i < |ks| && ks[i] == k;
        assert front[i] == k;
      }
      TotalOverReplace(front, m, f, k, v);
    }
  }

  /** `d[k] = v` changes a total by the new value minus the old one (0 for a fresh key). */
  lemma TotalOverPut<V>(d: Dict<string, V>, f: V -> real, k: string, v: V)
    requires d.Valid()
    ensures TotalOver(d.Put(k, v).keys, d.Put(k, v).entries, f)
         == TotalOver(d.keys, d.entries, f) - (if k in d.entries then f(d.entries[k]) else 0.0) + f(v)
  {
    if k in d.entries {
      TotalOverReplace(d.keys, d.entries, f, k, v);
    } else {
      TotalOverAppend(d.keys, d.entries, f, k, v);
    }
  }

  /** Every key path of `t` is still present in `r`, with the same leaf value. */
  ghost predicate Embeds(t: CostTable, r: CostTable)
  {
    forall c | c in t.entries :: c in r.entries && DirectionsEmbed(t.entries[c], r.entries[c])
  }

  ghost predicate DirectionsEmbed(d: Directions, e: Directions)
  {
    forall dir | dir in d.entries :: dir in e.entries && LeavesEmbed(d.entries[dir], e.entries[dir])
  }

  ghost predicate LeavesEmbed(l: Leaves, e: Leaves)
  {
    forall n | n in l.entries :: n in e.entries && e.entries[n] == l.entries[n]
  }

  /** Whether the key path cost type / direction / name is present. */
  predicate HasPath(t: CostTable, costType: string, direction: string, name: string)
  {
    costType in t.entries && direction in t.entries[costType].entries
    && name in t.entries[costType].entries[direction].entries
  }

  /** The innermost level of `extend_dictionary_if_necessary`: a missing name becomes `{}`. */
  function EnsureLeaf(l: Leaves, name: string): (r: Leaves)
    ensures name in r.entries && LeavesEmbed(l, r)
    ensures name in l.entries ==> r == l
    ensures name !in l.entries ==> r.entries[name] == Placeholder
  {
    if name in l.entries then l else l.Put(name, Placeholder)
  }

  /** The middle level of `extend_dictionary_if_necessary`: a missing direction becomes a new dictionary. */
  function EnsureDirection(d: Directions, direction: string, name: string): (r: Directions)
    ensures direction in r.entries && name in r.entries[direction].entries
    ensures DirectionsEmbed(d, r)
    ensures direction in d.entries && name in d.entries[direction].entries ==> r == d
    ensures !(direction in d.entries && name in d.entries[direction].entries) ==> r.entries[direction].entries[name] == Placeholder
  {
    if direction in d.entries && name in d.entries[direction].entries then d
    else d.Put(direction, EnsureLeaf(if direction in d.entries then d.entries[direction] else Empty(), name))
  }

  /**
   * `SingleStreamEconResult.extend_dictionary_if_necessary`: creates each
   * missing level of the path cost type / direction / name, the last one as
   * `{}`.  Everything already present stays (`ExtendKeepsEntries`), and since
   * a new leaf is `{}`, the total of the table does not change
   * (`ExtendKeepsTotal`).
   */
  function ExtendDictionaryIfNecessary(t: CostTable, costType: string, direction: string, name: string): (r: CostTable)
    ensures HasPath(r, costType, direction, name)
    ensures HasPath(t, costType, direction, name) ==> r == t
    ensures r.keys == t.keys || r.keys == t.keys + [costType]
  {
    if HasPath(t, costType, direction, name) then t
    else t.Put(costType, EnsureDirection(if costType in t.entries then t.entries[costType] else Empty(), direction, name))
  }

  /** Extending a table keeps every leaf it already had, with its value, and a leaf it adds is `{}`. */
  lemma ExtendKeepsEntries(t: CostTable, costType: string, direction: string, name: string)
    ensures Embeds(t, ExtendDictionaryIfNecessary(t, costType, direction, name))
    ensures !HasPath(t, costType, direction, name) ==>
      ExtendDictionaryIfNecessary(t, costType, direction, name).entries[costType].entries[direction].entries[name] == Placeholder
  {
    var r := ExtendDictionaryIfNecessary(t, costType, direction, name);
    if !HasPath(t, costType, direction, name) {
      var dirs := if costType in t.entries then t.entries[costType] else Empty();
      assert r == t.Put(costType, EnsureDirection(dirs, direction, name));
      forall c | c in t.entries
        ensures c in r.entries && DirectionsEmbed(t.entries[c], r.entries[c])
      {
        if c != costType {
          assert r.entries[c] == t.entries[c];
        }
      }
    }
  }

  lemma EnsureLeafKeepsTotal(l: Leaves, name: string)
    ensures LeavesTotal(EnsureLeaf(l, name)) == LeavesTotal(l)
  {
    if name !in l.entries {
      TotalOverPut(l, CostSum, name, Placeholder);
    }
  }

  lemma EnsureDirectionKeepsTotal(d: Directions, direction: string, name: string)
    ensures DirectionsTotal(EnsureDirection(d, direction, name)) == DirectionsTotal(d)
  {
    if !(direction in d.entries && name in d.entries[direction].entries) {
      var leaves := if direction in d.entries then d.entries[direction] else Empty();
      EnsureLeafKeepsTotal(leaves, name);
      TotalOverPut(d, LeavesTotal, direction, EnsureLeaf(leaves, name));
    }
  }

  /** Extending a table adds only `{}` leaves, so the sum over all leaves is unchanged. */
  lemma ExtendKeepsTotal(t: CostTable, costType: string, direction: string, name: string)
    ensures TableTotal(ExtendDictionaryIfNecessary(t, costType, direction, name)) == TableTotal(t)
  {
    if !HasPath(t, costType, direction, name) {
      var dirs := if costType in t.entries then t.entries[costType] else Empty();
      EnsureDirectionKeepsTotal(dirs, direction, name);
      TotalOverPut(t, DirectionsTotal, costType, EnsureDirection(dirs, direction, name));
    }
  }

  /** `d[direction][name] = value` on a dictionary that holds that path. */
  function SetInDirections(d: Directions, direction: string, name: string, value: CostValue): (r: Directions)
    requires direction in d.entries && name in d.entries[direction].entries
    ensures direction in r.entries && name in r.entries[direction].entries
    ensures r.entries[direction].entries[name] == value
  {
    d.Put(direction, d.entries[direction].Put(name, value))
  }

  /** `dictionary[cost_type][direction][name] = value` on a table that already holds that path. */
  function SetLeaf(t: CostTable, costType: string, direction: string, name: string, value: CostValue): (r: CostTable)
    requires HasPath(t, costType, direction, name)
    ensures HasPath(r, costType, direction, name) && r.entries[costType].entries[direction].entries[name] == value
    ensures r.keys == t.keys
  {
    t.Put(costType, SetInDirections(t.entries[costType], direction, name, value))
  }

  /** Assigning a leaf changes the table's total by the new value minus the old one. */
  lemma SetLeafTotal(t: CostTable, costType: string, direction: string, name: string, value: CostValue)
    requires HasPath(t, costType, direction, name)
    ensures TableTotal(SetLeaf(t, costType, direction, name, value))
         == TableTotal(t) - CostSum(t.entries[costType].entries[direction].entries[name]) + CostSum(value)
  {
    var d := t.entries[costType];
    var leaves := d.entries[direction];
    TotalOverPut(leaves, CostSum, name, value);
    var leaves': Leaves := leaves.Put(name, value);
    TotalOverPut(d, LeavesTotal, direction, leaves');
    TotalOverPut(t, DirectionsTotal, costType, SetInDirections(d, direction, name, value));
  }

  /**
   * Setting a cost parameter (extend, then assign) changes the table's total
   * by the new value minus the value it replaces, which counts as 0 when the
   * path did not exist.
   */
  lemma SetParameterTotal(t: CostTable, costType: string, direction: string, name: string, value: CostValue)
    ensures var r := SetLeaf(ExtendDictionaryIfNecessary(t, costType, direction, name), costType, direction, name, value);
      TableTotal(r) == TableTotal(t) - (if HasPath(t, costType, direction, name) then CostSum(t.entries[costType].entries[direction].entries[name]) else 0.0) + CostSum(value)
  {
    var e := ExtendDictionaryIfNecessary(t, costType, direction, name);
    ExtendKeepsTotal(t, costType, direction, name);
    ExtendKeepsEntries(t, costType, direction, name);
    SetLeafTotal(e, costType, direction, name, value);
  }

  /** `SingleStreamEconResult`: the cost and annuity tables of one stream and their summed annuity. */
  class SingleStreamEconResult {
    var costs: CostTable
    var annuities: CostTable
    var annuity: real

    constructor ()
      ensures costs == Empty() && annuities == Empty() && annuity == 0.0
    {
      costs := Empty();
      annuities := Empty();
      annuity := 0.0;
    }

    /** `set_cost_parameter`. */
    method SetCostParameter(direction: string, costType: string, name: string, value: CostValue)
      modifies this`costs
      ensures costs == SetLeaf(ExtendDictionaryIfNecessary(old(costs), costType, direction, name), costType, direction, name, value)
    {
      costs := ExtendDictionaryIfNecessary(costs, costType, direction, name);
      costs := SetLeaf(costs, costType, direction, name, value);
    }

    /** `set_annuity_parameter`. */
    method SetAnnuityParameter(direction: string, costType: string, name: string, value: CostValue)
      modifies this`annuities
      ensures annuities == SetLeaf(ExtendDictionaryIfNecessary(old(annuities), costType, direction, name), costType, direction, name, value)
    {
      annuities := ExtendDictionaryIfNecessary(annuities, costType, direction, name);
      annuities := SetLeaf(annuities, costType, direction, name, value);
    }

    /** `set_sum_annuity`: the annuity becomes the sum of every leaf of the annuity table. */
    method SetSumAnnuity()
      modifies this`annuity
      ensures annuity == TableTotal(annuities)
    {
      var sumCosts := 0.0;
      var i := 0;
      while i < |annuities.keys|
        invariant 0 <= i <= |annuities.keys|
        invariant sumCosts == TotalOver(annuities.keys[..i], annuities.entries, DirectionsTotal)
      {
        var costType := annuities.keys[i];
        var dirs := annuities.entries[costType];
        var j := 0;
        var dirSum := 0.0;
        while j < |dirs.keys|
          invariant 0 <= j <= |dirs.keys|
          invariant dirSum == TotalOver(dirs.keys[..j], dirs.entries, LeavesTotal)
        {
          var leaves := dirs.entries[dirs.keys[j]];
          var k := 0;
          var leafSum := 0.0;
          while k < |leaves.keys|
            invariant 0 <= k <= |leaves.keys|
            invariant leafSum == TotalOver(leaves.keys[..k], leaves.entries, CostSum)
          {
            leafSum := leafSum + CostSum(leaves.entries[leaves.keys[k]]);
            assert leaves.keys[..k + 1][..k] == leaves.keys[..k];
            k := k + 1;
          }
          assert leaves.keys[..k] == leaves.keys;
          dirSum := dirSum + leafSum;
          assert dirs.keys[..j + 1][..j] == dirs.keys[..j];
          j := j + 1;
        }
        assert dirs.keys[..j] == dirs.keys;
        sumCosts := sumCosts + dirSum;
        assert annuities.keys[..i + 1][..i] == annuities.keys[..i];
        i := i + 1;
      }
      assert annuities.keys[..i] == annuities.keys;
      annuity := sumCosts;
    }
  }

  // ---------------------------------------------------------------------------
  // ComponentEconResults
  // ---------------------------------------------------------------------------

  /** The annuity tables of a list of stream-cost results. */
  ghost function AnnuityTables(es: seq<SingleStreamEconResult>): (ts: seq<CostTable>)
    reads set e | e in es
    ensures |ts| == |es| && forall j :: 0 <= j < |es| ==> ts[j] == es[j].annuities
  {
    if |es| == 0 then [] else AnnuityTables(es[..|es| - 1]) + [es[|es| - 1].annuities]
  }

  /** The sum of the totals of a list of tables. */
  function TablesTotal(ts: seq<CostTable>): real
  {
    if |ts| == 0 then 0.0 else TablesTotal(ts[..|ts| - 1]) + TableTotal(ts[|ts| - 1])
  }

  /** The loop of `set_component_annuity` over the CAPEX elements. */
  method SumCapexAnnuities(es: seq<ElementCAPEX>) returns (total: real)
    ensures total == CapexAnnuitySum(es)
  {
    total := 0.0;
    for i := 0 to |es|
      invariant total == CapexAnnuitySum(es[..i])
    {
      assert es[..i + 1][..i] == es[..i];
      total := total + es[i].annuity;
    }
    assert es[..|es|] == es;
  }

  /** The loops of `set_component_annuity` over the variable and the fixed OPEX elements. */
  method SumOpexAnnuities(es: seq<ElementOPEX>) returns (total: real)
    ensures total == OpexAnnuitySum(es)
  {
    total := 0.0;
    for i := 0 to |es|
      invariant total == OpexAnnuitySum(es[..i])
    {
      assert es[..i + 1][..i] == es[..i];
      total := total + es[i].annuity;
    }
    assert es[..|es|] == es;
  }

  /**
   * The loop of `set_component_annuity` over the stream-cost results: each
   * one sums its own annuity table first, then its annuity is added.
   */
  method SumStreamCostAnnuities(es: seq<SingleStreamEconResult>) returns (total: real)
    modifies set e | e in es
    ensures forall e | e in es :: e.annuities == old(e.annuities) && e.annuity == TableTotal(e.annuities)
    ensures total == TablesTotal(old(AnnuityTables(es)))
  {
    ghost var ts := AnnuityTables(es);
    total := 0.0;
    for i := 0 to |es|
      invariant forall e | e in es :: e.annuities == old(e.annuities)
      invariant forall j :: 0 <= j < |es| ==> es[j].annuities == ts[j]
      invariant forall j :: 0 <= j < i ==> es[j].annuity == TableTotal(es[j].annuities)
      invariant total == TablesTotal(ts[..i])
    {
      var element := es[i];
      element.SetSumAnnuity();
      assert ts[..i + 1][..i] == ts[..i];
      total := total + element.annuity;
    }
    assert ts[..|es|] == ts;
  }

  /** `ComponentEconResults`: the cost elements of one component and their annuity totals. */
  class ComponentEconResults {
    var branchId: Option<string>
    const componentId: string
    var capex: seq<ElementCAPEX>
    var variableOpex: seq<ElementOPEX>
    var fixOpex: seq<ElementOPEX>
    var streamCost: seq<SingleStreamEconResult>
    var capexAnnuity: real
    var variableOpexAnnuity: real
    var fixOpexAnnuity: real
    var streamCostAnnuity: real
    var componentAnnuity: real

    constructor (branchId: Option<string>, componentId: string)
      ensures this.branchId == branchId && this.componentId == componentId
      ensures capex == [] && variableOpex == [] && fixOpex == [] && streamCost == []
      ensures componentAnnuity == 0.0
    {
      this.branchId := branchId;
      this.componentId := componentId;
      capex, variableOpex, fixOpex, streamCost := [], [], [], [];
      capexAnnuity, variableOpexAnnuity, fixOpexAnnuity, streamCostAnnuity, componentAnnuity := 0.0, 0.0, 0.0, 0.0, 0.0;
    }

    /**
     * `set_component_annuity`: each of the four category totals is recomputed
     * from scratch (each stream-cost result first sums its own annuity table),
     * and the component annuity is their sum.
     */
    method SetComponentAnnuity()
      modifies this, set e | e in streamCost
      ensures capex == old(capex) && variableOpex == old(variableOpex) && fixOpex == old(fixOpex)
      ensures streamCost == old(streamCost)
      ensures capexAnnuity == CapexAnnuitySum(capex)
      ensures variableOpexAnnuity == OpexAnnuitySum(variableOpex)
      ensures fixOpexAnnuity == OpexAnnuitySum(fixOpex)
      ensures forall e | e in streamCost :: e.annuities == old(e.annuities) && e.annuity == TableTotal(e.annuities)
      ensures streamCostAnnuity == TablesTotal(old(AnnuityTables(streamCost)))
      ensures componentAnnuity == capexAnnuity + fixOpexAnnuity + variableOpexAnnuity + streamCostAnnuity
    {
      var streamSum := SumStreamCostAnnuities(streamCost);
      capexAnnuity := SumCapexAnnuities(capex);
      variableOpexAnnuity := SumOpexAnnuities(variableOpex);
      fixOpexAnnuity := SumOpexAnnuities(fixOpex);
      streamCostAnnuity := streamSum;
      componentAnnuity := capexAnnuity + fixOpexAnnuity + variableOpexAnnuity + streamCostAnnuity;
    }
  }

  // ---------------------------------------------------------------------------
  // ComponentTechnicalResults
  // ---------------------------------------------------------------------------

  /**
   * `ComponentTechnicalResults`: the per-step histories of a component.  The
   * storage level history exists only for storages.
   */
  class ComponentTechnicalResults {
    var branchId: Option<string>
    const componentId: string
    var statusHistory: seq<int>
    var storageLevel: Option<seq<real>>

    constructor (branchId: Option<string>, componentId: string)
      ensures this.branchId == branchId && this.componentId == componentId
      ensures statusHistory == [] && storageLevel == None
    {
      this.branchId := branchId;
      this.componentId := componentId;
      statusHistory := [];
      storageLevel := None;
    }
  }
}
