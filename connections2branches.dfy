/**
 * Building the branches (`Connections2Branches.build_branches`): every
 * connection of a branch is linked to a port of the named component, the
 * linked ports are split into a fixed and an adaptive part, the adaptive
 * part is sorted by the priority rules, and the branches are put in the
 * order the solver visits them.  This module holds the steps that work on
 * one branch or on plain values; `ModelBase.Model.BuildBranches` runs them
 * over the model's branches and components.
 */
module Connections2Branches {
  import opened Wrappers
  import opened CustomErrors
  import opened Dicts
  import opened Streamtypes
  import opened Ports
  import opened Components
  import opened GenericUnits
  import opened Branches
  import opened ExportDataclasses

  /** The two halves `build_branches` collects for a branch: component name to port ids. */
  datatype Split = Split(fixed: PortMap, adaptive: PortMap)

  // ---------------------------------------------------------------------------
  // Linking a connection to a port (Connections2Branches.py:17-54)
  // ---------------------------------------------------------------------------

  /** Every connected name stands for the model's component of that name. */
  ghost predicate Linked(b: Branch, components: PyDict<string, Component>)
    reads b`connected
  {
    forall n | n in b.connected :: n in components.entries && b.connected[n] == components.entries[n]
  }

  /** Every component of the model is well formed. */
  ghost predicate UnitsValid(components: PyDict<string, Component>)
    reads components.entries.Values`numberOfPorts, components.entries.Values`ports,
          components.entries.Values`portTypes, components.entries.Values`controlledPort,
          components.entries.Values`loopControl, components.entries.Values`massIn, components.entries.Values`massOut
  {
    forall c | c in components.entries.Values :: c.Valid()
  }

  /** The result records of every port of the model's components: where the link is written. */
  ghost function PortResults(components: PyDict<string, Component>): set<PortResult>
    reads components.entries.Values`ports
  {
    set c, p | c in components.entries.Values && p in c.ports :: p.results
  }

  /** A port a connection may link: not linked yet, of the requested sign and of the branch's type. */
  predicate Linkable(p: Port, sign: StreamDirection, t: PortType)
    reads p.results
  {
    p.results.branchId.None? && p.results.sign == sign && p.results.portType == Some(t)
  }

  /** The position of the first linkable port at or after `i`. */
  function FirstLinkable(ps: seq<Port>, sign: StreamDirection, t: PortType, i: nat): (r: Option<nat>)
    requires i <= |ps|
    reads set p | p in ps :: p.results
    ensures r.Some? ==> i <= r.value < |ps| && Linkable(ps[r.value], sign, t)
    decreases |ps| - i
  {
    if i == |ps| then None
    else if Linkable(ps[i], sign, t) then Some(i)
    else FirstLinkable(ps, sign, t, i + 1)
  }

  /** No port before the chosen one is linkable, and None means no port at all is. */
  lemma {:induction false} FirstLinkableIsFirst(ps: seq<Port>, sign: StreamDirection, t: PortType, i: nat)
    requires i <= |ps|
    ensures var r := FirstLinkable(ps, sign, t, i);
            && (r.Some? ==> forall j | i <= j < r.value :: !Linkable(ps[j], sign, t))
            && (r.None? ==> forall j | i <= j < |ps| :: !Linkable(ps[j], sign, t))
    decreases |ps| - i
  {
    if i < |ps| && !Linkable(ps[i], sign, t) {
      FirstLinkableIsFirst(ps, sign, t, i + 1);
    }
  }

  /** The scan over the component's ports, in creation order, stopping at the first linkable one. */
  method FindLinkable(c: Component, sign: StreamDirection, t: PortType) returns (k: Option<nat>)
    ensures k == FirstLinkable(c.ports, sign, t, 0)
  {
    var i := 0;
    while i < |c.ports|
      invariant 0 <= i <= |c.ports|
      invariant FirstLinkable(c.ports, sign, t, i) == FirstLinkable(c.ports, sign, t, 0)
    {
      if Linkable(c.ports[i], sign, t) {
        return Some(i);
      }
      i := i + 1;
    }
    return None;
  }

  /** The ids listed under a name, none when the name is absent. */
  function Listed(m: PortMap, name: string): seq<string>
  {
    if name in m.entries then m.entries[name] else []
  }

  /**
   * `answer = m.setdefault(name, [port_id])`, then `m[name].append(port_id)`
   * unless `answer == [port_id]`.
   */
  function Register(m: PortMap, name: string, id: string): (r: PortMap)
    ensures name in r.entries
    ensures forall n | n != name :: Listed(r, n) == Listed(m, n)
    ensures name in m.entries ==> r.keys == m.keys
    ensures name !in m.entries ==> r.keys == m.keys + [name]
  {
    var answer := if name in m.entries then m.entries[name] else [id];
    var d := if name in m.entries then m else m.Put(name, [id]);
    if answer != [id] then d.Put(name, answer + [id]) else d
  }

  /**
   * Registering a port id that is not yet listed under the name appends it
   * to the name's list, so the ports of one component keep the order in
   * which they were linked.
   */
  lemma RegisterAppends(m: PortMap, name: string, id: string)
    requires id !in Listed(m, name)
    ensures Listed(Register(m, name, id), name) == Listed(m, name) + [id]
  {
  }

  /**
   * Where a linked port is registered: the fixed part for a fixed port, else
   * the adaptive part.  A port id not yet listed under the name is appended
   * to the name's list.
   */
  function File(s: Split, name: string, id: string, fixed: bool): (r: Split)
    ensures fixed ==> r.adaptive == s.adaptive && name in r.fixed.entries
    ensures !fixed ==> r.fixed == s.fixed && name in r.adaptive.entries
    ensures fixed && id !in Listed(s.fixed, name) ==> Listed(r.fixed, name) == Listed(s.fixed, name) + [id]
    ensures !fixed && id !in Listed(s.adaptive, name) ==> Listed(r.adaptive, name) == Listed(s.adaptive, name) + [id]
  {
    if fixed then Split(Register(s.fixed, name, id), s.adaptive)
    else Split(s.fixed, Register(s.adaptive, name, id))
  }

  /** Every listed name of the split is one of the branch's connected components. */
  ghost predicate FiledUnder(s: Split, b: Branch)
    reads b`connected
  {
    && (forall n | n in s.fixed.entries :: n in b.connected)
    && (forall n | n in s.adaptive.entries :: n in b.connected)
  }

  /** Every name listed in the split is one of `names`. */
  predicate Within(s: Split, names: set<string>)
  {
    && (forall n | n in s.fixed.entries :: n in names)
    && (forall n | n in s.adaptive.entries :: n in names)
  }

  /** Adding the `i`-th split of a loop over distinct keys. */
  lemma PutWithin(keys: seq<string>, out: Dict<string, Split>, i: nat, s: Split, names: set<string>)
    requires i < |keys| && forall a, b | 0 <= a < b < |keys| :: keys[a] != keys[b]
    requires out.Valid() && out.keys == keys[..i] && forall n | n in out.entries :: Within(out.entries[n], names)
    requires Within(s, names)
    ensures var o := out.Put(keys[i], s);
            o.Valid() && o.keys == keys[..i + 1] && forall n | n in o.entries :: Within(o.entries[n], names)
  {
    assert keys[i] !in out.entries by {
      assert forall j | 0 <= j < i :: keys[..i][j] == keys[j] != keys[i];
    }
    assert keys[..i + 1] == keys[..i] + [keys[i]];
  }

  /**
   * The three effects of linking: `add_port_connection`, the port's
   * `set_linked_branch` and the component's `set_branch_id`.
   */
  method Connect(b: Branch, name: string, c: Component, p: Port)
    requires b.Valid() && c.Valid() && p in c.ports
    requires name in b.connected ==> b.connected[name] == c
    modifies b`connected, b`portsConnected, b`unitPorts, c`branchId, p.results`branchId
    ensures b.Valid()
    ensures b.connected == old(b.connected)[name := c]
    ensures b.Lookup(name, p.results.portId) == Ok(p)
    ensures p.results.branchId == Some(b.branchId) && c.branchId == Some(b.branchId)
  {
    b.AddPortConnection(name, c, p);
    p.SetLinkedBranch(Some(b.branchId));
    c.SetBranchId(b.branchId);
  }

  /**
   * After linking `p` of component `c` under `name`: the port and the
   * component carry the branch id, the branch finds the port under the name
   * and its id, and the port is filed by its fixed status.
   */
  ghost predicate LinkedTo(b: Branch, name: string, c: Component, p: Port, s: Split, r: Result<Split>)
    reads b`portsConnected, c`branchId, p`fixedStatus, p.results`branchId
  {
    && p.results.branchId == Some(b.branchId) && c.branchId == Some(b.branchId)
    && b.Lookup(name, p.results.portId) == Ok(p)
    && r == Ok(File(s, name, p.results.portId, p.fixedStatus))
  }

  /**
   * One connection `(name, sign)` of a branch: KeyError for an unknown
   * component; otherwise the first linkable port of the component is
   * connected to the branch, stamped with the branch id (so is the
   * component) and registered by its fixed status; BranchConnectionError when
   * the component has no linkable port.
   */
  method LinkOne(b: Branch, components: PyDict<string, Component>, name: string, sign: StreamDirection, s: Split)
    returns (r: Result<Split>, ghost k: Option<nat>)
    requires b.Valid() && Linked(b, components) && UnitsValid(components)
    requires FiledUnder(s, b)
    modifies b`connected, b`portsConnected, b`unitPorts, components.entries.Values`branchId, PortResults(components)`branchId
    ensures b.Valid() && Linked(b, components)
    ensures name !in components.entries ==> r == Err(KeyError) && b.connected == old(b.connected)
    ensures name in components.entries ==> k == old(FirstLinkable(components.entries[name].ports, sign, b.branchType, 0))
    ensures k.None? ==> r.Err? && b.connected == old(b.connected)
    ensures name in components.entries && k.None? ==> r == Err(BranchConnectionError)
    ensures k.Some? ==> name in components.entries && k.value < |components.entries[name].ports|
    ensures k.Some? ==> b.connected == old(b.connected)[name := components.entries[name]]
    ensures k.Some? ==> LinkedTo(b, name, components.entries[name], components.entries[name].ports[k.value], s, r)
    ensures r.Ok? ==> FiledUnder(r.value, b)
  {
    if name !in components.entries {
      return Err(KeyError), None;
    }
    var c := components.entries[name];
    var found := FindLinkable(c, sign, b.branchType);
    k := found;
    if found.None? {
      return Err(BranchConnectionError), k;
    }
    var p := c.ports[found.value];
    assert c in components.entries.Values;
    Connect(b, name, c, p);
    r := Ok(File(s, name, p.results.portId, p.fixedStatus));
  }

  /** `LinkOne` seen from the loop over the connections: what stays true and what grows. */
  method LinkStep(b: Branch, components: PyDict<string, Component>, name: string, sign: StreamDirection, s: Split,
                  ghost units: set<Component>, ghost results: set<PortResult>)
    returns (r: Result<Split>)
    requires b.Valid() && Linked(b, components) && UnitsValid(components)
    requires FiledUnder(s, b)
    requires components.entries.Values <= units && PortResults(components) <= results
    modifies b`connected, b`portsConnected, b`unitPorts, units`branchId, results`branchId
    ensures b.Valid() && Linked(b, components) && UnitsValid(components)
    ensures b.connected.Keys >= old(b.connected.Keys)
    ensures r.Ok? ==> FiledUnder(r.value, b) && name in b.connected
    ensures r.Err? ==> r.error == KeyError || r.error == BranchConnectionError
  {
    ghost var k;
    r, k := LinkOne(b, components, name, sign, s);
  }

  /** The component names of a branch's connections, in order. */
  function ConnectionNames(cs: seq<(string, StreamDirection)>): (r: seq<string>)
    ensures |r| == |cs| && forall i | 0 <= i < |cs| :: r[i] == cs[i].0
  {
    if |cs| == 0 then [] else ConnectionNames(cs[..|cs| - 1]) + [cs[|cs| - 1].0]
  }

  /**
   * The connections of one branch, in order (Connections2Branches.py:19-54):
   * the first failing connection stops the build with its error; on success
   * every connection's component is connected to the branch and every name
   * in the split is a connected component.
   */
  method LinkBranch(b: Branch, components: PyDict<string, Component>, ghost units: set<Component>, ghost results: set<PortResult>)
    returns (r: Result<Split>)
    requires b.Valid() && Linked(b, components) && UnitsValid(components)
    requires components.entries.Values <= units && PortResults(components) <= results
    modifies b`connected, b`portsConnected, b`unitPorts, units`branchId, results`branchId
    ensures b.Valid() && Linked(b, components) && UnitsValid(components)
    ensures r.Ok? ==> FiledUnder(r.value, b)
    ensures r.Ok? ==> forall n | n in ConnectionNames(b.connections) :: n in b.connected
    ensures r.Err? ==> r.error == KeyError || r.error == BranchConnectionError
  {
    var s := Split(Empty(), Empty());
    var i := 0;
    while i < |b.connections|
      invariant 0 <= i <= |b.connections|
      invariant b.Valid() && Linked(b, components)
      invariant FiledUnder(s, b)
      invariant forall j | 0 <= j < i :: b.connections[j].0 in b.connected
      invariant UnitsValid(components) && PortResults(components) <= results
    {
      ghost var before := b.connected.Keys;
      var step := LinkStep(b, components, b.connections[i].0, b.connections[i].1, s, units, results);
      if step.Err? {
        return Err(step.error);
      }
      forall j | 0 <= j < i + 1 ensures b.connections[j].0 in b.connected {
        if j < i {
          assert b.connections[j].0 in before;
        }
      }
      s := step.value;
      i := i + 1;
    }
    return Ok(s);
  }

  // ---------------------------------------------------------------------------
  // Sorting the adaptive part by the priority rules (Connections2Branches.py:65-76)
  // ---------------------------------------------------------------------------

  /**
   * The names the rules list that are among `keys`, in rule order, each once:
   * a name is taken out of `keys` when its first rule picks it.
   */
  function Prioritized(rules: seq<string>, keys: seq<string>): (r: seq<string>)
    decreases |rules|
  {
    if |rules| == 0 then []
    else (if rules[0] in keys then [rules[0]] else []) + Prioritized(rules[1..], Without(keys, rules[0]))
  }

  /** The keys the rules do not list, in their own order. */
  function Outside(keys: seq<string>, rules: seq<string>): (r: seq<string>)
    ensures |r| <= |keys|
    decreases |keys|
  {
    if |keys| == 0 then []
    else (if keys[0] in rules then [] else [keys[0]]) + Outside(keys[1..], rules)
  }

  /** `r` keeps some of the elements of `s`, in their order. */
  predicate IsSubsequence(r: seq<string>, s: seq<string>)
    decreases |s|
  {
    if |r| == 0 then true
    else if |s| == 0 then false
    else if r[0] == s[0] then IsSubsequence(r[1..], s[1..])
    else IsSubsequence(r, s[1..])
  }

  /** Dropping the head of a subsequence leaves a subsequence. */
  lemma {:induction false} SubsequenceDrop(r: seq<string>, s: seq<string>)
    requires |r| > 0 && IsSubsequence(r, s)
    ensures IsSubsequence(r[1..], s)
    decreases |s|, 0
  {
    assert s == [s[0]] + s[1..];
    if r[0] == s[0] {
      SubsequenceWeaken(r[1..], s[1..], s[0]);
    } else {
      SubsequenceDrop(r, s[1..]);
      SubsequenceWeaken(r[1..], s[1..], s[0]);
    }
  }

  /** A subsequence of the tail is a subsequence of the whole. */
  lemma {:induction false} SubsequenceWeaken(r: seq<string>, s: seq<string>, x: string)
    requires IsSubsequence(r, s)
    ensures IsSubsequence(r, [x] + s)
    decreases |s|, 1
  {
    assert ([x] + s)[1..] == s;
    if |r| > 0 && r[0] == x {
      SubsequenceDrop(r, s);
    }
  }

  /** Keeping or skipping a new head element preserves being a subsequence. */
  lemma SubsequenceCons(r: seq<string>, s: seq<string>, x: string, keep: bool)
    requires IsSubsequence(r, s)
    ensures IsSubsequence((if keep then [x] else []) + r, [x] + s)
  {
    assert ([x] + s)[1..] == s;
    if keep {
      assert ([x] + r)[1..] == r;
    } else {
      assert [] + r == r;
      SubsequenceWeaken(r, s, x);
    }
  }

  /**
   * The prioritized names are exactly the listed keys, each once, in the
   * order the rules first mention them.
   */
  lemma {:induction false} PrioritizedFollowsRules(rules: seq<string>, keys: seq<string>)
    ensures forall x :: x in Prioritized(rules, keys) <==> x in rules && x in keys
    ensures IsSubsequence(Prioritized(rules, keys), rules)
    ensures Distinct(Prioritized(rules, keys))
    decreases |rules|
  {
    if |rules| > 0 {
      var rest := Prioritized(rules[1..], Without(keys, rules[0]));
      PrioritizedFollowsRules(rules[1..], Without(keys, rules[0]));
      assert rules == [rules[0]] + rules[1..];
      SubsequenceCons(rest, rules[1..], rules[0], rules[0] in keys);
      assert rules[0] !in rest;
      DistinctCons(rest, rules[0], rules[0] in keys);
    }
  }

  /** No element occurs twice. */
  predicate Distinct(s: seq<string>)
  {
    forall i, j | 0 <= i < j < |s| :: s[i] != s[j]
  }

  lemma DistinctCons(s: seq<string>, x: string, keep: bool)
    requires Distinct(s) && x !in s
    ensures Distinct((if keep then [x] else []) + s)
  {
    var t := (if keep then [x] else []) + s;
    if keep {
      forall i, j | 0 <= i < j < |t| ensures t[i] != t[j] {
        assert t[j] == s[j - 1];
        if i > 0 { assert t[i] == s[i - 1]; }
      }
    } else {
      assert t == s;
    }
  }

  /** The keys outside the rules: exactly the keys the rules do not list, in the keys' order. */
  lemma {:induction false} OutsideMembers(keys: seq<string>, rules: seq<string>)
    ensures forall x :: x in Outside(keys, rules) <==> x in keys && x !in rules
    ensures IsSubsequence(Outside(keys, rules), keys)
    decreases |keys|
  {
    if |keys| > 0 {
      OutsideMembers(keys[1..], rules);
      assert keys == [keys[0]] + keys[1..];
      SubsequenceCons(Outside(keys[1..], rules), keys[1..], keys[0], keys[0] !in rules);
    }
  }

  /** Taking one more rule out of the outside keys. */
  lemma {:induction false} OutsideStep(keys: seq<string>, rules: seq<string>, rule: string)
    ensures Without(Outside(keys, rules), rule) == Outside(keys, rules + [rule])
    decreases |keys|
  {
    if |keys| > 0 {
      OutsideStep(keys[1..], rules, rule);
      var head := if keys[0] in rules then [] else [keys[0]];
      var rest := Outside(keys[1..], rules);
      WithoutConcat(head, rest, rule);
    }
  }

  /** `Without` distributes over concatenation. */
  lemma {:induction false} WithoutConcat(a: seq<string>, b: seq<string>, k: string)
    ensures Without(a + b, k) == Without(a, k) + Without(b, k)
    decreases |a|
  {
    if |a| > 0 {
      assert (a + b)[1..] == a[1..] + b;
      WithoutConcat(a[1..], b, k);
    } else {
      assert a + b == b;
    }
  }

  /**
   * Midway through the rules, after the first `i`: the listed components
   * taken out so far and the ones left share out the adaptive part.
   */
  ghost predicate Sorting(adaptive: PortMap, rules: seq<string>, i: nat, sorted: Dict<string, seq<string>>, left: Dict<string, seq<string>>)
    requires i <= |rules|
  {
    SortingOrder(adaptive.keys, rules, i, sorted.keys, left.keys) && Shared(adaptive.entries, sorted.entries, left.entries)
  }

  /** The order so far, and the order the remaining rules will add. */
  ghost predicate SortingOrder(keys: seq<string>, rules: seq<string>, i: nat, sorted: seq<string>, left: seq<string>)
    requires i <= |rules|
  {
    && sorted + Prioritized(rules[i..], left) == Prioritized(rules, keys)
    && left == Outside(keys, rules[..i])
  }

  /** `sorted` and `left` split `whole` between them. */
  ghost predicate Shared(whole: map<string, seq<string>>, sorted: map<string, seq<string>>, left: map<string, seq<string>>)
  {
    sorted + left == whole && sorted.Keys !! left.Keys
  }

  /** The first rule seen: nothing taken out yet. */
  lemma {:induction false} OutsideNoRules(keys: seq<string>)
    ensures Outside(keys, []) == keys
    decreases |keys|
  {
    if |keys| > 0 {
      OutsideNoRules(keys[1..]);
      assert keys == [keys[0]] + keys[1..];
    }
  }

  /** Reading the rules from the `i`-th on: the first of them decides first. */
  lemma PrioritizedFrom(rules: seq<string>, i: nat, keys: seq<string>)
    requires i < |rules|
    ensures Prioritized(rules[i..], keys)
         == (if rules[i] in keys then [rules[i]] else []) + Prioritized(rules[i + 1..], Without(keys, rules[i]))
  {
    assert rules[i..][0] == rules[i] && rules[i..][1..] == rules[i + 1..];
  }

  /** Taking out the `i`-th rule leaves the keys outside the first `i + 1` rules. */
  lemma OutsideUpTo(keys: seq<string>, rules: seq<string>, i: nat)
    requires i < |rules|
    ensures Without(Outside(keys, rules[..i]), rules[i]) == Outside(keys, rules[..i + 1])
  {
    assert rules[..i + 1] == rules[..i] + [rules[i]];
    OutsideStep(keys, rules[..i], rules[i]);
  }

  /** Before the first rule, nothing is taken out. */
  lemma SortingStart(adaptive: PortMap, rules: seq<string>)
    ensures Sorting(adaptive, rules, 0, Empty(), adaptive)
  {
    OrderStart(adaptive.keys, rules);
    ShareStart(adaptive.entries);
  }

  lemma OrderStart(keys: seq<string>, rules: seq<string>)
    ensures SortingOrder(keys, rules, 0, [], keys)
  {
    assert rules[0..] == rules && rules[..0] == [];
    OutsideNoRules(keys);
  }

  lemma ShareStart(whole: map<string, seq<string>>)
    ensures Shared(whole, map[], whole)
  {
    assert map[] + whole == whole;
  }

  /** A rule naming a component still left moves it over. */
  lemma SortingTake(adaptive: PortMap, rules: seq<string>, i: nat, sorted: Dict<string, seq<string>>, left: Dict<string, seq<string>>)
    requires i < |rules| && rules[i] in left.entries && rules[i] in left.keys
    requires Sorting(adaptive, rules, i, sorted, left)
    ensures Sorting(adaptive, rules, i + 1, sorted.Put(rules[i], left.entries[rules[i]]), left.Remove(rules[i]))
  {
    OrderTake(adaptive.keys, rules, i, sorted.keys, left.keys);
    ShareTake(adaptive.entries, sorted.entries, left.entries, rules[i]);
  }

  lemma OrderTake(keys: seq<string>, rules: seq<string>, i: nat, sorted: seq<string>, left: seq<string>)
    requires i < |rules| && rules[i] in left && SortingOrder(keys, rules, i, sorted, left)
    ensures SortingOrder(keys, rules, i + 1, sorted + [rules[i]], Without(left, rules[i]))
  {
    var rule := rules[i];
    PrioritizedFrom(rules, i, left);
    OutsideUpTo(keys, rules, i);
    var tail := Prioritized(rules[i + 1..], Without(left, rule));
    assert (sorted + [rule]) + tail == sorted + ([rule] + tail);
  }

  lemma ShareTake(whole: map<string, seq<string>>, sorted: map<string, seq<string>>, left: map<string, seq<string>>, k: string)
    requires k in left && Shared(whole, sorted, left)
    ensures Shared(whole, sorted[k := left[k]], left - {k})
  {
    assert sorted[k := left[k]] + (left - {k}) == sorted + left;
  }

  /** A rule naming no component left changes nothing. */
  lemma SortingSkip(adaptive: PortMap, rules: seq<string>, i: nat, sorted: Dict<string, seq<string>>, left: Dict<string, seq<string>>)
    requires i < |rules| && rules[i] !in left.entries && rules[i] !in left.keys
    requires Sorting(adaptive, rules, i, sorted, left)
    ensures Sorting(adaptive, rules, i + 1, sorted, left)
  {
    PrioritizedFrom(rules, i, left.keys);
    OutsideUpTo(adaptive.keys, rules, i);
    WithoutAbsent(left.keys, rules[i]);
    assert [] + Prioritized(rules[i + 1..], left.keys) == Prioritized(rules[i + 1..], left.keys);
  }

  /** After the last rule, `update` appends the components left, in their order. */
  lemma SortingDone(adaptive: PortMap, rules: seq<string>, sorted: PortMap, left: PortMap)
    requires Sorting(adaptive, rules, |rules|, sorted, left)
    ensures sorted.Update(left).keys == Prioritized(rules, adaptive.keys) + Outside(adaptive.keys, rules)
    ensures sorted.Update(left).entries == adaptive.entries
  {
    assert rules[|rules|..] == [] && rules[..|rules|] == rules;
    assert sorted.keys + [] == sorted.keys;
    assert sorted.Fresh(left.keys);
  }

  /**
   * `passive_priorityRules` applied to an adaptive part: the components the
   * rules list are taken out in rule order, then `update` appends the rest in
   * their original order.  Every component keeps its port ids.
   */
  method SortByPriority(adaptive: PortMap, rules: seq<string>) returns (sorted: PortMap)
    ensures sorted.keys == Prioritized(rules, adaptive.keys) + Outside(adaptive.keys, rules)
    ensures sorted.entries == adaptive.entries
  {
    var left: Dict<string, seq<string>> := adaptive;
    var taken: Dict<string, seq<string>> := Empty();
    SortingStart(adaptive, rules);
    var i := 0;
    while i < |rules|
      invariant 0 <= i <= |rules|
      invariant Sorting(adaptive, rules, i, taken, left)
      invariant left.Valid() && taken.Valid()
    {
      var rule := rules[i];
      if rule in left.entries {
        SortingTake(adaptive, rules, i, taken, left);
        taken := taken.Put(rule, left.entries[rule]);
        left := left.Remove(rule);
      } else {
        SortingSkip(adaptive, rules, i, taken, left);
      }
      i := i + 1;
    }
    SortingDone(adaptive, rules, taken, left);
    sorted := taken.Update(left);
  }

  /**
   * The sorted adaptive part lists every component once, and no component
   * the rules leave out comes before one they list.
   */
  lemma SortedRulesFirst(adaptive: PortMap, rules: seq<string>)
    ensures var s := Prioritized(rules, adaptive.keys) + Outside(adaptive.keys, rules);
            && (forall x :: x in s <==> x in adaptive.keys)
            && (forall i, j | 0 <= i < j < |s| && s[j] in rules :: s[i] in rules)
  {
    PrioritizedFollowsRules(rules, adaptive.keys);
    OutsideMembers(adaptive.keys, rules);
    var p := Prioritized(rules, adaptive.keys);
    var s := p + Outside(adaptive.keys, rules);
    forall j | |p| <= j < |s| ensures s[j] !in rules {
      assert s[j] in Outside(adaptive.keys, rules);
    }
    forall i, j | 0 <= i < j < |s| && s[j] in rules ensures s[i] in rules {
      assert s[i] == p[i] && p[i] in p;
    }
  }

  // ---------------------------------------------------------------------------
  // Ordering the branches by their dependencies (Connections2Branches.py:78-119)
  // ---------------------------------------------------------------------------

  /** The Python values the dependency test compares: `None`, a string, or a list. */
  datatype PyValue = PyNone | PyStr(str: string) | PyList(items: seq<PyValue>)

  /** A list of ids as a Python list of strings. */
  function PyStrings(ids: seq<string>): (v: PyValue)
    ensures v.PyList? && |v.items| == |ids|
  {
    PyList(seq(|ids|, i requires 0 <= i < |ids| => PyStr(ids[i])))
  }

  /** `m.get(name)`: the list of port ids filed under the name, or `None`. */
  function Get(m: PortMap, name: string): (v: PyValue)
    ensures v.PyNone? <==> name !in m.entries
    ensures v.PyList? ==> |v.items| == |m.entries[name]|
  {
    if name in m.entries then PyStrings(m.entries[name]) else PyNone
  }

  /** `v in xs` for a list of strings: some element compares equal to `v`. */
  predicate PyIn(v: PyValue, xs: seq<string>)
  {
    exists i | 0 <= i < |xs| :: v == PyStr(xs[i])
  }

  /**
   * `names.remove(x)`: the first occurrence of `x` is taken out.  The caller
   * tests `x in names` first, so the ValueError of an absent `x` cannot occur;
   * an absent `x` leaves the list as it is.
   */
  function RemoveFirst(names: seq<string>, x: string): (r: seq<string>)
    ensures x in names ==> |r| == |names| - 1
    ensures x !in names ==> r == names
    ensures forall y | y in r :: y in names
    decreases |names|
  {
    if |names| == 0 then []
    else if names[0] == x then names[1..]
    else [names[0]] + RemoveFirst(names[1..], x)
  }

  /** The open branches: every listed id has its split. */
  ghost predicate Open(left: Dict<string, Split>)
  {
    forall k | k in left.keys :: k in left.entries
  }

  /**
   * The inner loop of the dependency test (Connections2Branches.py:99-101)
   * for one dependent component `name` with adaptive port ids `ids`, over the
   * open branches from the `j`-th on.
   */
  function PruneOver(names: seq<string>, name: string, ids: seq<string>, left: Dict<string, Split>, j: nat): (r: seq<string>)
    requires Open(left)
    requires j <= |left.keys|
    ensures |r| <= |names|
    ensures forall x | x in r :: x in names
    decreases |left.keys| - j
  {
    if j == |left.keys| then names
    else
      var branch := left.entries[left.keys[j]];
      var names' := if PyIn(Get(branch.adaptive, name), ids) && name in names then RemoveFirst(names, name) else names;
      PruneOver(names', name, ids, left, j + 1)
  }

  /**
   * `names_no_dependencies` (Connections2Branches.py:97-101): starting from
   * `names`, the dependency test of every dependent component from the
   * `i`-th on, over every open branch.
   */
  function Pruned(names: seq<string>, deps: PyDict<string, seq<string>>, left: Dict<string, Split>, i: nat): (r: seq<string>)
    requires Open(left)
    requires i <= |deps.keys|
    ensures |r| <= |names|
    ensures forall x | x in r :: x in names
    decreases |deps.keys| - i
  {
    if i == |deps.keys| then names
    else Pruned(PruneOver(names, deps.keys[i], deps.entries[deps.keys[i]], left, 0), deps, left, i + 1)
  }

  /**
   * What `dict.get` returns is a list or `None`, never a string, so it is
   * never `in` a list of port ids.
   */
  lemma GetNeverIn(m: PortMap, name: string, ids: seq<string>)
    ensures !PyIn(Get(m, name), ids)
  {
  }

  /** The inner loop of the dependency test removes nothing. */
  lemma {:induction false} PruneOverKeepsAll(names: seq<string>, name: string, ids: seq<string>, left: Dict<string, Split>, j: nat)
    requires Open(left)
    requires j <= |left.keys|
    ensures PruneOver(names, name, ids, left, j) == names
    decreases |left.keys| - j
  {
    if j < |left.keys| {
      GetNeverIn(left.entries[left.keys[j]].adaptive, name, ids);
      PruneOverKeepsAll(names, name, ids, left, j + 1);
    }
  }

  /**
   * As written, the dependency test never holds: `names_no_dependencies`
   * keeps every component name, whatever the dependencies and the open
   * branches are.
   */
  lemma {:induction false} PrunedKeepsAll(names: seq<string>, deps: PyDict<string, seq<string>>, left: Dict<string, Split>, i: nat)
    requires Open(left)
    requires i <= |deps.keys|
    ensures Pruned(names, deps, left, i) == names
    decreases |deps.keys| - i
  {
    if i < |deps.keys| {
      PruneOverKeepsAll(names, deps.keys[i], deps.entries[deps.keys[i]], left, 0);
      PrunedKeepsAll(names, deps, left, i + 1);
    }
  }

  /** The two nested loops computing `names_no_dependencies`. */
  method NoDependencies(components: seq<string>, deps: PyDict<string, seq<string>>, left: Dict<string, Split>)
    returns (names: seq<string>)
    requires Open(left)
    ensures names == Pruned(components, deps, left, 0)
  {
    names := components;
    var i := 0;
    while i < |deps.keys|
      invariant 0 <= i <= |deps.keys|
      invariant Pruned(names, deps, left, i) == Pruned(components, deps, left, 0)
    {
      var name := deps.keys[i];
      var ids := deps.entries[name];
      ghost var start := names;
      var j := 0;
      while j < |left.keys|
        invariant 0 <= j <= |left.keys|
        invariant PruneOver(names, name, ids, left, j) == PruneOver(start, name, ids, left, 0)
      {
        var branch := left.entries[left.keys[j]];
        if PyIn(Get(branch.adaptive, name), ids) && name in names {
          names := RemoveFirst(names, name);
        }
        j := j + 1;
      }
      i := i + 1;
    }
  }

  /** A branch may be computed next: every component of its fixed part is free of dependencies. */
  predicate Ready(s: Split, names: seq<string>)
    ensures s.fixed.Valid() ==> (Ready(s, names) <==> forall k | k in s.fixed.entries :: k in names)
    ensures s.fixed.keys == [] ==> Ready(s, names)
  {
    forall k | k in s.fixed.keys :: k in names
  }

  /** `all_satisfied &= key in names_no_dependencies` over the fixed part (Connections2Branches.py:105-107). */
  method Satisfied(s: Split, names: seq<string>) returns (all: bool)
    ensures all <==> Ready(s, names)
  {
    all := true;
    var i := 0;
    while i < |s.fixed.keys|
      invariant 0 <= i <= |s.fixed.keys|
      invariant all <==> forall k | k in s.fixed.keys[..i] :: k in names
    {
      assert s.fixed.keys[..i + 1] == s.fixed.keys[..i] + [s.fixed.keys[i]];
      all := all && s.fixed.keys[i] in names;
      i := i + 1;
    }
    assert s.fixed.keys[..i] == s.fixed.keys;
  }

  /** The position of the first open branch, from the `i`-th on, that is ready. */
  function FirstReady(left: Dict<string, Split>, names: seq<string>, i: nat): (r: Option<nat>)
    requires Open(left)
    requires i <= |left.keys|
    ensures r.Some? ==> i <= r.value < |left.keys| && Ready(left.entries[left.keys[r.value]], names)
    decreases |left.keys| - i
  {
    if i == |left.keys| then None
    else if Ready(left.entries[left.keys[i]], names) then Some(i)
    else FirstReady(left, names, i + 1)
  }

  /** No open branch before the chosen one is ready, and None means none is. */
  lemma {:induction false} FirstReadyIsFirst(left: Dict<string, Split>, names: seq<string>, i: nat)
    requires Open(left)
    requires i <= |left.keys|
    ensures var r := FirstReady(left, names, i);
            && (r.Some? ==> forall j | i <= j < r.value :: !Ready(left.entries[left.keys[j]], names))
            && (r.None? ==> forall j | i <= j < |left.keys| :: !Ready(left.entries[left.keys[j]], names))
    decreases |left.keys| - i
  {
    if i < |left.keys| && !Ready(left.entries[left.keys[i]], names) {
      FirstReadyIsFirst(left, names, i + 1);
    }
  }

  /** The scan over the open branches that stops at the first ready one (Connections2Branches.py:104-114). */
  method FindReady(left: Dict<string, Split>, names: seq<string>) returns (k: Option<nat>)
    requires Open(left)
    ensures k == FirstReady(left, names, 0)
  {
    var i := 0;
    while i < |left.keys|
      invariant 0 <= i <= |left.keys|
      invariant FirstReady(left, names, i) == FirstReady(left, names, 0)
    {
      var all := Satisfied(left.entries[left.keys[i]], names);
      if all {
        return Some(i);
      }
      i := i + 1;
    }
    return None;
  }

  /**
   * The passes of the ordering loop with `fuel` passes to go: each pass
   * recomputes the dependency-free names and moves the first ready open
   * branch over.  The result is the ids moved, in order, and the branches
   * still open when the loop stops.
   */
  function Schedule(left: Dict<string, Split>, components: seq<string>, deps: PyDict<string, seq<string>>, fuel: nat)
    : (r: (seq<string>, Dict<string, Split>))
    requires Open(left)
    ensures |r.0| <= fuel
    ensures |r.1.keys| <= |left.keys|
    decreases fuel
  {
    if |left.keys| == 0 || fuel == 0 then ([], left)
    else
      var names := Pruned(components, deps, left, 0);
      match FirstReady(left, names, 0)
      case None => Schedule(left, components, deps, fuel - 1)
      case Some(j) =>
        var id := left.keys[j];
        var next := Schedule(left.Remove(id), components, deps, fuel - 1);
        ([id] + next.0, next.1)
  }

  /**
   * A schedule splits the open branches: each one is either moved, once, or
   * still open with its own split, and at most one is moved per pass.
   */
  lemma {:induction false} SchedulePartitions(left: Dict<string, Split>, components: seq<string>, deps: PyDict<string, seq<string>>, fuel: nat)
    requires Open(left)
    ensures var r := Schedule(left, components, deps, fuel);
            && (forall x :: x in r.0 || x in r.1.entries <==> x in left.entries)
            && (forall x | x in r.0 :: x !in r.1.entries)
            && (forall x | x in r.1.entries :: r.1.entries[x] == left.entries[x])
            && |r.0| <= fuel
            && Distinct(r.0)
    decreases fuel
  {
    if |left.keys| > 0 && fuel > 0 {
      var names := Pruned(components, deps, left, 0);
      var f := FirstReady(left, names, 0);
      if f.None? {
        SchedulePartitions(left, components, deps, fuel - 1);
      } else {
        var id := left.keys[f.value];
        var rest := left.Remove(id);
        SchedulePartitions(rest, components, deps, fuel - 1);
        var next := Schedule(rest, components, deps, fuel - 1);
        assert id !in next.0;
        DistinctCons(next.0, id, true);
      }
    }
  }

  /** No element occurs twice, stated one head at a time. */
  predicate NoRepeats(s: seq<string>)
    decreases |s|
  {
    |s| == 0 || (s[0] !in s[1..] && NoRepeats(s[1..]))
  }

  /** A list whose elements are pairwise different has no repeats. */
  lemma {:induction false} DistinctNoRepeats(s: seq<string>)
    requires Distinct(s)
    ensures NoRepeats(s)
    decreases |s|
  {
    if |s| > 0 {
      var tail := s[1..];
      forall i, j | 0 <= i < j < |tail| ensures tail[i] != tail[j] {
        assert tail[i] == s[i + 1] && tail[j] == s[j + 1];
      }
      forall j | 0 <= j < |tail| ensures tail[j] != s[0] {
        assert tail[j] == s[j + 1];
      }
      DistinctNoRepeats(tail);
    }
  }

  /** The open branches taken in insertion order, one per pass, for `fuel` passes. */
  function InOrder(left: Dict<string, Split>, fuel: nat): (r: (seq<string>, Dict<string, Split>))
    decreases fuel
  {
    if |left.keys| == 0 || fuel == 0 then ([], left)
    else
      var next := InOrder(left.Remove(left.keys[0]), fuel - 1);
      ([left.keys[0]] + next.0, next.1)
  }

  /**
   * Taking branches in insertion order moves the first `fuel` of them, or
   * all when there are fewer, and leaves the rest open in their order.
   */
  lemma {:induction false} InOrderSplits(left: Dict<string, Split>, fuel: nat)
    requires NoRepeats(left.keys)
    ensures |InOrder(left, fuel).0| == (if fuel < |left.keys| then fuel else |left.keys|)
    ensures InOrder(left, fuel).0 + InOrder(left, fuel).1.keys == left.keys
    decreases fuel
  {
    if |left.keys| > 0 && fuel > 0 {
      var rest := left.Remove(left.keys[0]);
      HeadRemoved(left.keys);
      var f: nat := fuel - 1;
      InOrderSplits(rest, f);
      var next := InOrder(rest, f);
      TakeOneMore(left.keys, next.0, next.1.keys, fuel);
    } else {
      assert [] + left.keys == left.keys;
    }
  }

  /**
   * Because the dependency test never holds, a branch whose fixed components
   * are all model components is always ready: the schedule takes the open
   * branches in their insertion order, one per pass.
   */
  lemma {:induction false} ScheduleInOrder(left: Dict<string, Split>, components: seq<string>, deps: PyDict<string, seq<string>>, fuel: nat)
    requires Open(left)
    requires forall k | k in left.entries :: Ready(left.entries[k], components)
    ensures Schedule(left, components, deps, fuel) == InOrder(left, fuel)
    decreases fuel
  {
    if |left.keys| > 0 && fuel > 0 {
      ScheduleTakesHead(left, components, deps, fuel);
      var f: nat := fuel - 1;
      ScheduleInOrder(left.Remove(left.keys[0]), components, deps, f);
    }
  }

  /** A pass over open branches that are all ready moves the first one. */
  lemma ScheduleTakesHead(left: Dict<string, Split>, components: seq<string>, deps: PyDict<string, seq<string>>, fuel: nat)
    requires Open(left)
    requires |left.keys| > 0 && fuel > 0
    requires forall k | k in left.entries :: Ready(left.entries[k], components)
    ensures var rest := left.Remove(left.keys[0]);
            && Open(rest)
            && (forall k | k in rest.entries :: Ready(rest.entries[k], components))
    ensures Schedule(left, components, deps, fuel).0
         == [left.keys[0]] + Schedule(left.Remove(left.keys[0]), components, deps, fuel - 1).0
    ensures Schedule(left, components, deps, fuel).1 == Schedule(left.Remove(left.keys[0]), components, deps, fuel - 1).1
  {
    PrunedKeepsAll(components, deps, left, 0);
    assert left.keys[0] in left.entries;
    assert FirstReady(left, components, 0) == Some(0);
  }

  /** Taking the head out of a list without repeats leaves its tail. */
  lemma HeadRemoved(keys: seq<string>)
    requires |keys| > 0 && NoRepeats(keys)
    ensures Without(keys, keys[0]) == keys[1..]
    ensures NoRepeats(Without(keys, keys[0]))
  {
    WithoutAbsent(keys[1..], keys[0]);
  }

  /** The arithmetic of one pass: moving the head adds one to what the remaining passes move. */
  lemma TakeOneMore(keys: seq<string>, moved: seq<string>, open: seq<string>, fuel: nat)
    requires |keys| > 0 && fuel > 0 && NoRepeats(keys)
    requires |moved| == (if fuel - 1 < |Without(keys, keys[0])| then fuel - 1 else |Without(keys, keys[0])|)
    requires moved + open == Without(keys, keys[0])
    ensures |[keys[0]] + moved| == (if fuel < |keys| then fuel else |keys|)
    ensures ([keys[0]] + moved) + open == keys
  {
    HeadRemoved(keys);
    assert ([keys[0]] + moved) + open == [keys[0]] + (moved + open);
    assert keys == [keys[0]] + keys[1..];
  }

  /**
   * Midway through the ordering loop after `count` passes: the branches
   * moved so far followed by what the remaining passes move are the whole
   * schedule, every branch keeps its split, and none is both moved and open.
   */
  ghost predicate Ordering(splits: PyDict<string, Split>, components: seq<string>, deps: PyDict<string, seq<string>>,
                           count: nat, sorted: Dict<string, Split>, left: Dict<string, Split>)
    requires Open(left)
    requires count <= |components| + 1
  {
    var rest := Schedule(left, components, deps, |components| + 1 - count);
    var whole := Schedule(splits, components, deps, |components| + 1);
    && sorted.keys + rest.0 == whole.0
    && rest.1 == whole.1
    && (forall k | k in sorted.entries :: k in splits.entries && sorted.entries[k] == splits.entries[k])
    && (forall k | k in left.entries :: k in splits.entries && left.entries[k] == splits.entries[k])
    && sorted.entries.Keys !! left.entries.Keys
  }

  /** A pass that finds a ready branch moves it from the open branches to the ordered ones. */
  lemma PassTake(splits: PyDict<string, Split>, components: seq<string>, deps: PyDict<string, seq<string>>,
                 count: nat, sorted: Dict<string, Split>, left: Dict<string, Split>, j: Option<nat>)
    requires Open(left)
    requires 1 <= count <= |components| + 1 && |left.keys| > 0
    requires Ordering(splits, components, deps, count - 1, sorted, left)
    requires j == FirstReady(left, Pruned(components, deps, left, 0), 0) && j.Some?
    ensures var id := left.keys[j.value];
            Ordering(splits, components, deps, count, sorted.Put(id, left.entries[id]), left.Remove(id))
  {
    var id := left.keys[j.value];
    var next := Schedule(left.Remove(id), components, deps, |components| + 1 - count);
    assert Schedule(left, components, deps, |components| + 1 - (count - 1)) == ([id] + next.0, next.1);
    assert id in left.entries;
    assert (sorted.keys + [id]) + next.0 == sorted.keys + ([id] + next.0);
  }

  /** A pass that finds no ready branch changes nothing. */
  lemma PassSkip(splits: PyDict<string, Split>, components: seq<string>, deps: PyDict<string, seq<string>>,
                 count: nat, sorted: Dict<string, Split>, left: Dict<string, Split>, j: Option<nat>)
    requires Open(left)
    requires 1 <= count <= |components| + 1 && |left.keys| > 0
    requires Ordering(splits, components, deps, count - 1, sorted, left)
    requires j == FirstReady(left, Pruned(components, deps, left, 0), 0) && j.None?
    ensures Ordering(splits, components, deps, count, sorted, left)
  {
    assert Schedule(left, components, deps, |components| + 1 - (count - 1))
        == Schedule(left, components, deps, |components| + 1 - count);
  }

  /** When the loop stops, the ordered branches are the whole schedule and the open ones are what it leaves. */
  lemma PassDone(splits: PyDict<string, Split>, components: seq<string>, deps: PyDict<string, seq<string>>,
                 count: nat, sorted: Dict<string, Split>, left: Dict<string, Split>)
    requires Open(left)
    requires count <= |components| + 1 && (|left.keys| == 0 || count == |components| + 1)
    requires Ordering(splits, components, deps, count, sorted, left)
    ensures var whole := Schedule(splits, components, deps, |components| + 1);
            sorted.keys == whole.0 && left == whole.1
  {
    assert Schedule(left, components, deps, |components| + 1 - count).0 == [];
    assert sorted.keys + [] == sorted.keys;
  }

  /**
   * The ordering loop (Connections2Branches.py:88-119): at most one pass
   * more than there are components, each moving the first ready open branch;
   * BranchConnectionError if a branch is still open afterwards, otherwise
   * the branches in the order they were moved, each with its split.
   */
  method OrderBranches(splits: PyDict<string, Split>, components: seq<string>, deps: PyDict<string, seq<string>>)
    returns (r: Result<PyDict<string, Split>>)
    ensures var s := Schedule(splits, components, deps, |components| + 1);
            && (r.Ok? <==> |s.1.keys| == 0)
            && (r.Ok? ==> r.value.keys == s.0)
            && (r.Ok? ==> forall k | k in r.value.entries :: k in splits.entries && r.value.entries[k] == splits.entries[k])
            && (r.Err? ==> r.error == BranchConnectionError)
  {
    var left: Dict<string, Split> := splits;
    var sorted: Dict<string, Split> := Empty();
    var count := 0;
    while |left.keys| > 0 && count < |components| + 1
      invariant 0 <= count <= |components| + 1
      invariant left.Valid() && sorted.Valid()
      invariant Ordering(splits, components, deps, count, sorted, left)
    {
      count := count + 1;
      var names := NoDependencies(components, deps, left);
      var j := FindReady(left, names);
      if j.Some? {
        var id := left.keys[j.value];
        PassTake(splits, components, deps, count, sorted, left, j);
        sorted := sorted.Put(id, left.entries[id]);
        left := left.Remove(id);
      } else {
        PassSkip(splits, components, deps, count, sorted, left, j);
      }
    }
    PassDone(splits, components, deps, count, sorted, left);
    if |left.keys| > 0 {
      return Err(BranchConnectionError);
    }
    return Ok(sorted);
  }

  /**
   * As written, `build_branches` orders the branches as they were added:
   * when every fixed component is a model component, the ordering succeeds
   * exactly when there are at most one more branches than components, and
   * then keeps the insertion order.
   */
  lemma OrderedAsInserted(splits: PyDict<string, Split>, components: seq<string>, deps: PyDict<string, seq<string>>)
    requires forall k | k in splits.entries :: Ready(splits.entries[k], components)
    ensures |Schedule(splits, components, deps, |components| + 1).1.keys| == 0 <==> |splits.keys| <= |components| + 1
    ensures |Schedule(splits, components, deps, |components| + 1).1.keys| == 0 ==>
              Schedule(splits, components, deps, |components| + 1).0 == splits.keys
  {
    ScheduleInOrder(splits, components, deps, |components| + 1);
    DistinctNoRepeats(splits.keys);
    InOrderSplits(splits, |components| + 1);
  }

  // ---------------------------------------------------------------------------
  // The checks and the sort over all branches (Connections2Branches.py:56-76)
  // ---------------------------------------------------------------------------

  /**
   * The position of the branch the check for a missing fixed part reports,
   * among the first `n`: the last one, in insertion order, whose fixed part
   * is empty.
   */
  function MissingFixed(keys: seq<string>, splits: map<string, Split>, n: nat): (r: Option<nat>)
    requires n <= |keys| && forall k | k in keys :: k in splits
    ensures r.Some? ==> && r.value < n && |splits[keys[r.value]].fixed.keys| == 0
                        && forall j | r.value < j < n :: |splits[keys[j]].fixed.keys| > 0
    ensures r.None? ==> forall j | 0 <= j < n :: |splits[keys[j]].fixed.keys| > 0
  {
    if n == 0 then None
    else if |splits[keys[n - 1]].fixed.keys| == 0 then Some(n - 1)
    else MissingFixed(keys, splits, n - 1)
  }

  /** The loop of Connections2Branches.py:57-60 looking for a branch without a fixed part. */
  method FindMissingFixed(splits: PyDict<string, Split>) returns (missing: Option<string>)
    ensures var m := MissingFixed(splits.keys, splits.entries, |splits.keys|);
            missing == if m.Some? then Some(splits.keys[m.value]) else None
  {
    missing := None;
    var i := 0;
    while i < |splits.keys|
      invariant 0 <= i <= |splits.keys|
      invariant var m := MissingFixed(splits.keys, splits.entries, i);
                missing == if m.Some? then Some(splits.keys[m.value]) else None
    {
      if |splits.entries[splits.keys[i]].fixed.keys| == 0 {
        missing := Some(splits.keys[i]);
      }
      i := i + 1;
    }
  }

  /** `t` is the split `s` with its adaptive part sorted by the priority rules. */
  predicate SortedBy(s: Split, t: Split, rules: seq<string>)
  {
    && t.fixed == s.fixed
    && t.adaptive.keys == Prioritized(rules, s.adaptive.keys) + Outside(s.adaptive.keys, rules)
    && t.adaptive.entries == s.adaptive.entries
  }

  /**
   * The sort of every branch's adaptive part (Connections2Branches.py:65-76):
   * each branch keeps its place and its fixed part, and its adaptive part is
   * put in priority order.
   */
  method SortAll(splits: PyDict<string, Split>, rules: seq<string>) returns (sorted: PyDict<string, Split>)
    ensures sorted.keys == splits.keys
    ensures forall k | k in splits.entries :: k in sorted.entries && SortedBy(splits.entries[k], sorted.entries[k], rules)
  {
    var out: Dict<string, Split> := splits;
    var i := 0;
    while i < |splits.keys|
      invariant 0 <= i <= |splits.keys|
      invariant out.keys == splits.keys && out.entries.Keys == splits.entries.Keys
      invariant forall j | 0 <= j < |splits.keys| ::
                  if j < i then SortedBy(splits.entries[splits.keys[j]], out.entries[splits.keys[j]], rules)
                  else out.entries[splits.keys[j]] == splits.entries[splits.keys[j]]
    {
      var k := splits.keys[i];
      var s := out.entries[k];
      var a := SortByPriority(s.adaptive, rules);
      ghost var before := out;
      out := out.Put(k, Split(s.fixed, a));
      forall j | 0 <= j < |splits.keys| && j != i ensures out.entries[splits.keys[j]] == before.entries[splits.keys[j]] {
        assert splits.keys[j] != k;
      }
      i := i + 1;
    }
    forall k | k in splits.entries ensures k in out.entries && SortedBy(splits.entries[k], out.entries[k], rules) {
      var j :| 0 <= j < |splits.keys| && splits.keys[j] == k;
    }
    sorted := out;
  }

  /**
   * When every split names only components listed in `names`, every sorted
   * split is ready from the first pass on.
   */
  lemma SortedReady(splits: PyDict<string, Split>, sorted: PyDict<string, Split>, rules: seq<string>,
                    names: seq<string>, known: set<string>)
    requires forall x :: x in known <==> x in names
    requires forall n | n in splits.entries :: Within(splits.entries[n], known)
    requires sorted.keys == splits.keys
    requires forall n | n in splits.entries :: n in sorted.entries && SortedBy(splits.entries[n], sorted.entries[n], rules)
    ensures forall n | n in sorted.entries :: Ready(sorted.entries[n], names)
  {
    forall n | n in sorted.entries ensures Ready(sorted.entries[n], names) {
      assert n in splits.entries;
    }
  }

  /**
   * The steps of `build_branches` after the linking
   * (Connections2Branches.py:56-119), on the splits of the branches: a
   * branch without a fixed part is a BranchConnectionError, then the adaptive
   * parts are sorted and the branches ordered.  When every split names only
   * components listed in `names`, the order is the order of the splits, and
   * it fails exactly when there are more than one more splits than names.
   */
  method Arrange(splits: PyDict<string, Split>, rules: seq<string>, names: seq<string>, known: set<string>,
                 deps: PyDict<string, seq<string>>)
    returns (r: Result<PyDict<string, Split>>)
    requires forall x :: x in known <==> x in names
    requires forall n | n in splits.entries :: Within(splits.entries[n], known)
    ensures r.Ok? <==> MissingFixed(splits.keys, splits.entries, |splits.keys|).None? && |splits.keys| <= |names| + 1
    ensures r.Err? ==> r.error == BranchConnectionError
    ensures r.Ok? ==> && r.value.keys == splits.keys
                      && forall n | n in splits.entries :: n in r.value.entries && SortedBy(splits.entries[n], r.value.entries[n], rules)
  {
    var missing := FindMissingFixed(splits);
    if missing.Some? {
      r := Err(BranchConnectionError);
    } else {
      var sorted := SortAll(splits, rules);
      r := OrderBranches(sorted, names, deps);
      SortedReady(splits, sorted, rules, names, known);
      OrderedAsInserted(sorted, names, deps);
    }
  }
}
