/**
 * Pure queries over the ports of a component that `GenericUnit`
 * (modules/GenericUnit.py) relies on: the kinds of unit, finding a port by
 * id, the ids of the adaptive ports, and the choice
 * `get_ports_by_type_and_sign` makes among ports of a type and sign.  They
 * work on sequences of ports (or on value views of them), so the component
 * class and the branch can share them.
 */
module Components {
  import opened Wrappers
  import opened CustomErrors
  import opened ExtReal
  import opened RangeLimits
  import opened Streamtypes
  import opened Units
  import opened Quantities
  import opened Dicts
  import opened Misc
  import opened Ports
  import opened Counters
  import opened Storages

  datatype ComponentKind = SourceUnit | ConsumerUnit | GridUnit | StorageGasUnit

  /** The Python class name of each kind (`component.__class__.__name__`). */
  function ClassName(k: ComponentKind): (name: string)
    ensures |name| > 0
  {
    match k
    case SourceUnit => "Source"
    case ConsumerUnit => "Consumer"
    case GridUnit => "Grid"
    case StorageGasUnit => "Storage_Gas"
  }

  // ---------------------------------------------------------------------------
  // Queries over the ports of a component, in the order they were added
  // ---------------------------------------------------------------------------

  /** Some port carries the id. */
  predicate HasId(ps: seq<Port>, id: string)
  {
    exists i :: 0 <= i < |ps| && ps[i].results.portId == id
  }

  /** `ports[port_id]`: the port with that id, KeyError when there is none. */
  function FindPort(ps: seq<Port>, id: string): (r: Result<Port>)
    ensures r.Ok? <==> HasId(ps, id)
    ensures r.Err? ==> r.error == KeyError
    ensures r.Ok? ==> r.value in ps && r.value.results.portId == id
    decreases |ps|
  {
    if ps == [] then Err(KeyError)
    else if ps[0].results.portId == id then Ok(ps[0])
    else
      var r := FindPort(ps[1..], id);
      assert HasId(ps[1..], id) ==> HasId(ps, id) by {
        if HasId(ps[1..], id) {
          var i :| 0 <= i < |ps[1..]| && ps[1..][i].results.portId == id;
          assert ps[i + 1] == ps[1..][i];
        }
      }
      assert HasId(ps, id) ==> HasId(ps[1..], id) by {
        if HasId(ps, id) {
          var i :| 0 <= i < |ps| && ps[i].results.portId == id;
          assert i != 0 && ps[1..][i - 1] == ps[i];
        }
      }
      r
  }

  /** The ids of the ports whose `fixed_status` is false, in port order. */
  function AdaptiveIds(ps: seq<Port>): (r: seq<string>)
    reads ps
    ensures forall id :: id in r <==> exists i :: 0 <= i < |ps| && !ps[i].fixedStatus && ps[i].results.portId == id
    ensures |r| <= |ps|
    decreases |ps|
  {
    if ps == [] then []
    else
      var last := ps[|ps| - 1];
      var front := ps[..|ps| - 1];
      var rest := AdaptiveIds(front);
      var r := rest + (if last.fixedStatus then [] else [last.results.portId]);
      assert forall id :: id in r <==> exists i :: 0 <= i < |ps| && !ps[i].fixedStatus && ps[i].results.portId == id by {
        forall id
          ensures id in r <==> exists i :: 0 <= i < |ps| && !ps[i].fixedStatus && ps[i].results.portId == id
        {
          if id in rest {
            var i :| 0 <= i < |front| && !front[i].fixedStatus && front[i].results.portId == id;
            assert ps[i] == front[i];
          }
          if exists i :: 0 <= i < |ps| && !ps[i].fixedStatus && ps[i].results.portId == id {
            var i :| 0 <= i < |ps| && !ps[i].fixedStatus && ps[i].results.portId == id;
            if i < |ps| - 1 {
              assert front[i] == ps[i];
            }
          }
        }
      }
      r
  }

  // ---------------------------------------------------------------------------
  // `get_ports_by_type_and_sign`
  // ---------------------------------------------------------------------------

  /** What the lookup by type and sign sees of a port: its type, its sign and whether a branch uses it. */
  datatype PortView = PortView(portType: Option<PortType>, sign: StreamDirection, linked: bool)

  function ViewOf(p: Port): PortView
    reads p.results
  {
    PortView(p.results.portType, p.results.sign, p.results.branchId.Some?)
  }

  /** The views of the ports, in port order. */
  function Views(ps: seq<Port>): (r: seq<PortView>)
    reads set p | p in ps :: p.results
    ensures |r| == |ps|
    ensures forall i :: 0 <= i < |ps| ==> r[i] == ViewOf(ps[i])
    decreases |ps|
  {
    if ps == [] then []
    else
      assert forall i :: 1 <= i < |ps| ==> ps[1..][i - 1] == ps[i];
      [ViewOf(ps[0])] + Views(ps[1..])
  }

  /** A view the lookup accepts: the requested type, and the requested sign or bidirectional. */
  predicate Accepts(v: PortView, t: PortType, s: StreamDirection)
  {
    v.portType == Some(t) && (v.sign == s || v.sign == StreamBidirectional)
  }

  /** A port the lookup accepts. */
  predicate Matches(p: Port, t: PortType, s: StreamDirection)
    reads p.results
  {
    Accepts(ViewOf(p), t, s)
  }

  /** The positions of the views of type `t` and of sign exactly `s`, ascending (the two `filter` calls). */
  function Filtered(vs: seq<PortView>, t: PortType, s: StreamDirection): (r: seq<nat>)
    ensures forall k :: 0 <= k < |r| ==> r[k] < |vs|
    decreases |vs|
  {
    if vs == [] then []
    else
      var n := |vs| - 1;
      Filtered(vs[..n], t, s) + (if vs[n].portType == Some(t) && vs[n].sign == s then [n] else [])
  }

  /** `Filtered` holds exactly the positions of that type and sign, each once and in order. */
  lemma {:induction false} FilteredMembers(vs: seq<PortView>, t: PortType, s: StreamDirection)
    ensures var r := Filtered(vs, t, s);
            forall k :: 0 <= k < |r| ==> vs[r[k]].portType == Some(t) && vs[r[k]].sign == s
    ensures var r := Filtered(vs, t, s);
            forall i :: 0 <= i < |vs| && vs[i].portType == Some(t) && vs[i].sign == s ==> i in r
    decreases |vs|
  {
    if vs != [] {
      var n := |vs| - 1;
      FilteredMembers(vs[..n], t, s);
      var p := Filtered(vs[..n], t, s);
      var e := if vs[n].portType == Some(t) && vs[n].sign == s then [n] else [];
      assert Filtered(vs, t, s) == p + e;
      assert forall i :: 0 <= i < n ==> vs[..n][i] == vs[i];
      assert forall k :: 0 <= k < |p| ==> (p + e)[k] == p[k];
    }
  }

  /**
   * The candidates, as positions: for a one-way sign the ports of that sign
   * followed by the bidirectional ones, for the bidirectional sign only the
   * bidirectional ones; each list keeps only the requested type.
   */
  function CandidatePositions(vs: seq<PortView>, t: PortType, s: StreamDirection): (r: seq<nat>)
    ensures forall k :: 0 <= k < |r| ==> r[k] < |vs|
  {
    if s != StreamBidirectional then Filtered(vs, t, s) + Filtered(vs, t, StreamBidirectional)
    else Filtered(vs, t, StreamBidirectional)
  }

  /** The candidates are exactly the accepted positions. */
  lemma CandidatesMembers(vs: seq<PortView>, t: PortType, s: StreamDirection)
    ensures var c := CandidatePositions(vs, t, s); forall k :: 0 <= k < |c| ==> Accepts(vs[c[k]], t, s)
    ensures var c := CandidatePositions(vs, t, s); forall i :: 0 <= i < |vs| && Accepts(vs[i], t, s) ==> i in c
  {
    FilteredMembers(vs, t, s);
    FilteredMembers(vs, t, StreamBidirectional);
    var a, b := Filtered(vs, t, s), Filtered(vs, t, StreamBidirectional);
    if s != StreamBidirectional {
      var c := a + b;
      assert forall k :: 0 <= k < |a| ==> c[k] == a[k];
      assert forall k :: |a| <= k < |c| ==> c[k] == b[k - |a|];
    }
  }

  /** Among the candidates, those of the requested sign come before the bidirectional ones. */
  lemma CandidatesOrder(vs: seq<PortView>, t: PortType, s: StreamDirection)
    ensures var c := CandidatePositions(vs, t, s);
            forall k, l :: 0 <= k < l < |c| && vs[c[l]].sign == s ==> vs[c[k]].sign == s
  {
    FilteredMembers(vs, t, s);
    FilteredMembers(vs, t, StreamBidirectional);
    if s != StreamBidirectional {
      var a, b := Filtered(vs, t, s), Filtered(vs, t, StreamBidirectional);
      var c := a + b;
      assert forall k :: 0 <= k < |a| ==> c[k] == a[k];
      assert forall k :: |a| <= k < |c| ==> c[k] == b[k - |a|] && vs[c[k]].sign == StreamBidirectional;
    }
  }

  /** The first candidate, as a position in `c`, that no branch uses. */
  function FirstUnlinked(vs: seq<PortView>, c: seq<nat>): (r: Option<nat>)
    ensures r.Some? ==> r.value < |c|
    decreases |c|
  {
    if c == [] then None
    else if c[0] < |vs| && !vs[c[0]].linked then Some(0)
    else
      match FirstUnlinked(vs, c[1..])
      case Some(k) => Some(k + 1)
      case None => None
  }

  /** `FirstUnlinked` finds the first unlinked candidate, and none exactly when all are linked. */
  lemma {:induction false} FirstUnlinkedSpec(vs: seq<PortView>, c: seq<nat>)
    requires forall k :: 0 <= k < |c| ==> c[k] < |vs|
    ensures FirstUnlinked(vs, c).None? <==> forall k :: 0 <= k < |c| ==> vs[c[k]].linked
    ensures FirstUnlinked(vs, c).Some? ==>
              var m := FirstUnlinked(vs, c).value;
              !vs[c[m]].linked && forall k :: 0 <= k < m ==> vs[c[k]].linked
    decreases |c|
  {
    if c != [] && vs[c[0]].linked {
      FirstUnlinkedSpec(vs, c[1..]);
      assert forall k :: 1 <= k < |c| ==> c[1..][k - 1] == c[k];
    }
  }

  /**
   * `get_ports_by_type_and_sign`, as a position: a single candidate is
   * returned as it is; among several the first one not linked to a branch, or
   * the first one when all are linked; no candidate gives None.
   */
  function PickIndex(vs: seq<PortView>, t: PortType, s: StreamDirection): (r: Option<nat>)
    ensures r.Some? ==> r.value < |vs|
  {
    var c := CandidatePositions(vs, t, s);
    if |c| == 0 then None
    else if |c| == 1 then Some(c[0])
    else
      match FirstUnlinked(vs, c)
      case Some(k) => Some(c[k])
      case None => Some(c[0])
  }

  /** The lookup finds a position exactly when some port is accepted, and that port is accepted. */
  lemma PickIndexFinds(vs: seq<PortView>, t: PortType, s: StreamDirection)
    ensures PickIndex(vs, t, s).None? <==> forall i :: 0 <= i < |vs| ==> !Accepts(vs[i], t, s)
    ensures PickIndex(vs, t, s).Some? ==> Accepts(vs[PickIndex(vs, t, s).value], t, s)
  {
    CandidatesMembers(vs, t, s);
    var c := CandidatePositions(vs, t, s);
    if exists i :: 0 <= i < |vs| && Accepts(vs[i], t, s) {
      var i :| 0 <= i < |vs| && Accepts(vs[i], t, s);
      assert i in c;
    }
  }

  /** An accepted port that no branch uses yet is preferred to a linked one. */
  lemma PickIndexPrefersUnlinked(vs: seq<PortView>, t: PortType, s: StreamDirection, i: int)
    requires 0 <= i < |vs| && Accepts(vs[i], t, s) && !vs[i].linked
    ensures PickIndex(vs, t, s).Some? && !vs[PickIndex(vs, t, s).value].linked
  {
    CandidatesMembers(vs, t, s);
    var c := CandidatePositions(vs, t, s);
    assert i in c;
    var m :| 0 <= m < |c| && c[m] == i;
    if |c| == 1 {
      assert PickIndex(vs, t, s) == Some(i);
    } else {
      FirstUnlinkedSpec(vs, c);
      var u := FirstUnlinked(vs, c);
      assert u.Some? by {
        assert !vs[c[m]].linked;
      }
      assert PickIndex(vs, t, s) == Some(c[u.value]);
    }
  }

  /**
   * Among unlinked accepted ports, or among accepted ports that are all
   * linked, one of the requested sign is preferred to a bidirectional one.
   */
  lemma PickIndexPrefersSign(vs: seq<PortView>, t: PortType, s: StreamDirection, i: int)
    requires 0 <= i < |vs| && Accepts(vs[i], t, s) && vs[i].sign == s
    requires !vs[i].linked || forall j :: 0 <= j < |vs| && Accepts(vs[j], t, s) ==> vs[j].linked
    ensures PickIndex(vs, t, s).Some? && vs[PickIndex(vs, t, s).value].sign == s
  {
    CandidatesMembers(vs, t, s);
    CandidatesOrder(vs, t, s);
    var c := CandidatePositions(vs, t, s);
    assert i in c;
    var m :| 0 <= m < |c| && c[m] == i;
    if |c| > 1 {
      FirstUnlinkedSpec(vs, c);
      var u := FirstUnlinked(vs, c);
      if u.Some? {
        assert u.value <= m;
      }
    }
  }

  /** `get_ports_by_type_and_sign` on the ports themselves. */
  function PickPort(ps: seq<Port>, t: PortType, s: StreamDirection): (r: Option<Port>)
    reads set p | p in ps :: p.results
  {
    var k := PickIndex(Views(ps), t, s);
    if k.Some? then Some(ps[k.value]) else None
  }

  /** A port the lookup returns belongs to the list. */
  lemma PickPortMember(ps: seq<Port>, t: PortType, s: StreamDirection)
    ensures PickPort(ps, t, s).Some? ==> PickPort(ps, t, s).value in ps
  {
  }

  /** The lookup finds a port exactly when some port matches, and that port matches. */
  lemma PickPortFinds(ps: seq<Port>, t: PortType, s: StreamDirection)
    ensures PickPort(ps, t, s).None? <==> forall i :: 0 <= i < |ps| ==> !Matches(ps[i], t, s)
    ensures PickPort(ps, t, s).Some? ==> PickPort(ps, t, s).value in ps && Matches(PickPort(ps, t, s).value, t, s)
  {
    PickIndexFinds(Views(ps), t, s);
  }

  /** A matching port that no branch uses yet is preferred to a linked one. */
  lemma PickPortPrefersUnlinked(ps: seq<Port>, t: PortType, s: StreamDirection, i: int)
    requires 0 <= i < |ps| && Matches(ps[i], t, s) && ps[i].results.branchId.None?
    ensures PickPort(ps, t, s).Some? && PickPort(ps, t, s).value.results.branchId.None?
  {
    PickIndexPrefersUnlinked(Views(ps), t, s, i);
  }

  /**
   * Among unlinked matches, or among matches that are all linked, a port of
   * the requested sign is preferred to a bidirectional one.
   */
  lemma PickPortPrefersSign(ps: seq<Port>, t: PortType, s: StreamDirection, i: int)
    requires 0 <= i < |ps| && Matches(ps[i], t, s) && ps[i].results.sign == s
    requires ps[i].results.branchId.None? ||
             forall j :: 0 <= j < |ps| && Matches(ps[j], t, s) ==> ps[j].results.branchId.Some?
    ensures PickPort(ps, t, s).Some? && PickPort(ps, t, s).value.results.sign == s
  {
    var vs := Views(ps);
    assert forall j :: 0 <= j < |vs| && Accepts(vs[j], t, s) ==> Matches(ps[j], t, s);
    PickIndexPrefersSign(vs, t, s, i);
  }
}
