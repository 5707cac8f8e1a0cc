/**
 * The model object (`ModelBase.ModelBase` with the `Connections2Branches`
 * mixin): the components and branches of a system, how branches are added
 * and built, and the time-step loop that asks the branches to balance
 * their streams until every branch is calculated.
 */
module ModelBase {
  import opened Wrappers
  import opened CustomErrors
  import opened Dicts
  import opened Streamtypes
  import opened Quantities
  import opened Misc
  import opened Ports
  import opened Components
  import opened GenericUnits
  import opened Branches
  import opened Connections2Branches
  import opened Settings
  import opened Counters
  import opened ExportDataclasses

  /**
   * One item of the `port_connections` list given to `add_branch`: a
   * (component name, sign) tuple, or any other value.  `joinable` says
   * whether `", ".join` accepts that value, that is whether it is an
   * iterable of strings (a string, a list of strings, ...).
   */
  datatype ConnectionItem = Pair(name: string, sign: StreamDirection) | NotATuple(joinable: bool)

  /** The `port_connections` argument: a list, or any other value. */
  datatype ConnectionsArg = List(items: seq<ConnectionItem>) | NotAList

  /** Every item is a tuple. */
  predicate AllPairs(items: seq<ConnectionItem>)
  {
    forall i | 0 <= i < |items| :: items[i].Pair?
  }

  /** The tuples as the branch stores them. */
  function Pairs(items: seq<ConnectionItem>): (r: seq<(string, StreamDirection)>)
    requires AllPairs(items)
    ensures |r| == |items| && forall i | 0 <= i < |items| :: r[i] == (items[i].name, items[i].sign)
  {
    if |items| == 0 then [] else Pairs(items[..|items| - 1]) + [(items[|items| - 1].name, items[|items| - 1].sign)]
  }

  /**
   * Whether the error message `add_branch` builds for an item that is not a
   * tuple can be formatted: it joins the FIRST item of the list, which must
   * therefore be an iterable of strings.  A (name, sign) tuple never is, as
   * its sign is no string.
   */
  predicate Joinable(item: ConnectionItem)
  {
    item.NotATuple? && item.joinable
  }

  /**
   * The checks of `add_branch`, in the order they are made: a missing type
   * and an argument that is not a list are BranchErrors.  When some item is
   * not a tuple, formatting the message fails with a TypeError unless the
   * first item is joinable, and is a BranchConnectionError otherwise; a tuple
   * naming no component of the model is a BranchConnectionError.
   */
  function BranchArgError(branchType: Option<PortType>, connections: ConnectionsArg, components: set<string>)
    : (r: Option<ErrorClass>)
    ensures r.None? <==> && branchType.Some? && connections.List? && AllPairs(connections.items)
                         && forall i | 0 <= i < |connections.items| :: connections.items[i].name in components
    ensures r == Some(BranchError) <==> branchType.None? || connections.NotAList?
    ensures r == Some(TypeError) <==> && branchType.Some? && connections.List? && !AllPairs(connections.items)
                                      && !Joinable(connections.items[0])
    ensures r == Some(BranchConnectionError) <==>
              && branchType.Some? && connections.List?
              && ((!AllPairs(connections.items) && Joinable(connections.items[0]))
                  || (AllPairs(connections.items) && exists i | 0 <= i < |connections.items| :: connections.items[i].name !in components))
  {
    if branchType.None? || connections.NotAList? then Some(BranchError)
    else if !AllPairs(connections.items) then
      (if Joinable(connections.items[0]) then Some(BranchConnectionError) else Some(TypeError))
    else if exists i | 0 <= i < |connections.items| :: connections.items[i].name !in components then Some(BranchConnectionError)
    else None
  }

  /**
   * The number of time steps `run` calculates: the shortest profile length
   * when a profile was added, else a year of steps of the time resolution
   * (`int(8760 / tr * 60)`, truncated toward zero), else one step.
   */
  function IterationCount(profileLen: Option<nat>, tr: Option<int>): (r: Result<int>)
    ensures profileLen.Some? ==> r == Ok(profileLen.value)
    ensures profileLen.None? && tr == Some(0) ==> r == Err(ZeroDivisionError)
    ensures profileLen.None? && tr.None? ==> r == Ok(1)
    ensures profileLen.None? && tr.Some? && tr.value > 0 ==> r.Ok? && r.value * tr.value <= 525600 < (r.value + 1) * tr.value
    ensures profileLen.None? && tr.Some? && tr.value < 0 ==> r.Ok? && r.value <= 0
  {
    if profileLen.Some? then Ok(profileLen.value)
    else if tr.None? then Ok(1)
    else if tr.value == 0 then Err(ZeroDivisionError)
    else if tr.value > 0 then Ok(525600 / tr.value)
    else Ok(-(525600 / -tr.value))
  }

  /** The number of steps `range(count)` visits. */
  function Steps(count: int): (n: nat)
    ensures count > 0 ==> n == count
    ensures count <= 0 ==> n == 0
  {
    if count > 0 then count else 0
  }

  /**
   * The overall status `run` leaves after steps with these component
   * statuses: -1 once some step reported -1, else 0.
   */
  function Overall(statuses: seq<Dict<string, int>>): (s: int)
    ensures s == 0 || s == -1
    ensures s == -1 <==> exists j | 0 <= j < |statuses| :: -1 in statuses[j].entries.Values
  {
    if |statuses| == 0 then 0
    else if -1 in statuses[|statuses| - 1].entries.Values then -1
    else Overall(statuses[..|statuses| - 1])
  }

  /**
   * `get_stream_balance` followed by `abs` in the integrity check of `solve`:
   * an empty balance has no stream entry (KeyError) and a stream of None has
   * no absolute value (TypeError).
   */
  function StreamBalance(b: Balance): (r: Result<real>)
    ensures r.Err? <==> b.NoBalance? || b.stream.None?
    ensures b.NoBalance? ==> r == Err(KeyError)
    ensures !b.NoBalance? && b.stream.None? ==> r == Err(TypeError)
    ensures r.Ok? ==> r.value == b.stream.value
  {
    if b.NoBalance? then Err(KeyError)
    else if b.stream.None? then Err(TypeError)
    else Ok(b.stream.value)
  }

  /**
   * `profile_len` after a profile of `n` steps is added: the first length
   * given, afterwards the shorter of the two.
   */
  function ShorterProfile(current: Option<nat>, n: nat): (r: Option<nat>)
    ensures r.Some? && r.value <= n
    ensures current.None? ==> r == Some(n)
    ensures current.Some? ==> r.value <= current.value && (r.value == n || r.value == current.value)
  {
    if current.None? || n < current.value then Some(n) else current
  }

  /** `profile_len` of a new model after profiles of these lengths are added, in order. */
  function ProfileLenAfter(lengths: seq<nat>): Option<nat>
  {
    if |lengths| == 0 then None
    else ShorterProfile(ProfileLenAfter(lengths[..|lengths| - 1]), lengths[|lengths| - 1])
  }

  /** The number of steps `run` takes from the profiles is the shortest profile length added. */
  lemma {:induction false} ProfileLenIsShortest(lengths: seq<nat>)
    ensures ProfileLenAfter(lengths).None? <==> |lengths| == 0
    ensures |lengths| > 0 ==> (&& (forall i | 0 <= i < |lengths| :: ProfileLenAfter(lengths).value <= lengths[i])
                              && ProfileLenAfter(lengths).value in lengths)
  {
    if |lengths| > 0 {
      var front := lengths[..|lengths| - 1];
      ProfileLenIsShortest(front);
      assert forall i | 0 <= i < |front| :: front[i] == lengths[i];
      if |front| > 0 {
        assert ProfileLenAfter(front).value in lengths;
      }
    }
  }

  /**
   * The time-resolution check of `add_profile_to_component_port`: a given
   * resolution is adopted by a model without one and must equal the model's
   * otherwise (ComponentError); with none given the model's own is used.
   * The result is the model's resolution afterwards, which is also the one
   * handed on to the component.
   */
  function ProfileResolution(given: Option<int>, model: Option<int>): (r: Result<Option<int>>)
    ensures r.Err? <==> given.Some? && model.Some? && given != model
    ensures r.Err? ==> r.error == ComponentError
    ensures r.Ok? ==> && (given.Some? ==> r.value == given)
                      && (model.Some? ==> r.value == model)
                      && (given.None? && model.None? ==> r.value.None?)
  {
    if given.None? then Ok(model)
    else if model.None? || model == given then Ok(given)
    else Err(ComponentError)
  }

  // ----- add_sub_components_to_list (ModelBase.py:174-189) -----

  /** The name a sub-component is listed under: `<component>_<sub-component>`. */
  function SubName(name: string, sub: string): string
  {
    name + "_" + sub
  }

  /** The names listed for the sub-components of one component, in their order. */
  function SubNames(name: string, subKeys: seq<string>): seq<string>
  {
    if |subKeys| == 0 then [] else SubNames(name, subKeys[..|subKeys| - 1]) + [SubName(name, subKeys[|subKeys| - 1])]
  }

  /** `sorted_list` after the components of `keys`: each name followed by its sub-components' names. */
  function ListedNames(keys: seq<string>, subs: map<string, PyDict<string, Component>>): seq<string>
    requires forall k | k in keys :: k in subs
  {
    if |keys| == 0 then []
    else
      var k := keys[|keys| - 1];
      ListedNames(keys[..|keys| - 1], subs) + [k] + SubNames(k, subs[k].keys)
  }

  /** The sub-components of one component filed under their listed names (a later one wins). */
  function SubFiled(name: string, subKeys: seq<string>, entries: map<string, Component>): map<string, Component>
    requires forall k | k in subKeys :: k in entries
  {
    if |subKeys| == 0 then map[]
    else
      var last := subKeys[|subKeys| - 1];
      SubFiled(name, subKeys[..|subKeys| - 1], entries)[SubName(name, last) := entries[last]]
  }

  /**
   * `new_component_list` after the components of `keys`: every component
   * under its name, overwritten by the sub-components filed so far.  Every
   * listed name is filed.
   */
  function Filed(keys: seq<string>, comps: map<string, Component>, subs: map<string, PyDict<string, Component>>)
    : map<string, Component>
    requires forall k | k in keys :: k in subs && k in comps
  {
    if |keys| == 0 then comps
    else
      var k := keys[|keys| - 1];
      Filed(keys[..|keys| - 1], comps, subs) + SubFiled(k, subs[k].keys, subs[k].entries)
  }

  /** The listing and the filing after one more component. */
  lemma ListedStep(keys: seq<string>, i: nat, comps: map<string, Component>, subs: map<string, PyDict<string, Component>>)
    requires i < |keys| && forall k | k in keys :: k in subs && k in comps
    ensures var k := keys[i];
            && ListedNames(keys[..i + 1], subs) == ListedNames(keys[..i], subs) + [k] + SubNames(k, subs[k].keys)
            && Filed(keys[..i + 1], comps, subs) == Filed(keys[..i], comps, subs) + SubFiled(k, subs[k].keys, subs[k].entries)
  {
    assert keys[..i + 1][..i] == keys[..i];
  }

  /** Every listed name is filed. */
  lemma {:induction false} FiledListed(keys: seq<string>, comps: map<string, Component>, subs: map<string, PyDict<string, Component>>)
    requires forall k | k in keys :: k in subs && k in comps
    ensures forall n | n in ListedNames(keys, subs) :: n in Filed(keys, comps, subs)
  {
    if |keys| > 0 {
      var k := keys[|keys| - 1];
      var front := keys[..|keys| - 1];
      FiledListed(front, comps, subs);
      SubNamesFiled(k, subs[k].keys, subs[k].entries);
      FiledKeeps(front, comps, subs);
    }
  }

  /** Every name listed for a component's sub-components is filed. */
  lemma {:induction false} SubNamesFiled(name: string, subKeys: seq<string>, entries: map<string, Component>)
    requires forall k | k in subKeys :: k in entries
    ensures forall n | n in SubNames(name, subKeys) :: n in SubFiled(name, subKeys, entries)
  {
    if |subKeys| > 0 {
      SubNamesFiled(name, subKeys[..|subKeys| - 1], entries);
    }
  }

  /** Every component's name is filed. */
  lemma {:induction false} FiledKeeps(keys: seq<string>, comps: map<string, Component>, subs: map<string, PyDict<string, Component>>)
    requires forall k | k in keys :: k in subs && k in comps
    ensures comps.Keys <= Filed(keys, comps, subs).Keys
  {
    if |keys| > 0 {
      FiledKeeps(keys[..|keys| - 1], comps, subs);
    }
  }

  /**
   * The components dictionary `add_sub_components_to_list` leaves: the
   * listed names in order (a name listed twice keeps its first place), each
   * with the component filed under it.
   */
  function Flattened(comps: PyDict<string, Component>, subs: map<string, PyDict<string, Component>>): (r: Dict<string, Component>)
    requires forall k | k in comps.keys :: k in subs
  {
    FiledListed(comps.keys, comps.entries, subs);
    Dict([], map[]).PutAll(ListedNames(comps.keys, subs), Filed(comps.keys, comps.entries, subs))
  }

  /** No name is listed twice. */
  ghost predicate NoRepeats(s: seq<string>)
  {
    forall a, b | 0 <= a < b < |s| :: s[a] != s[b]
  }

  /** A listing without repeats splits into parts without repeats that share no name. */
  lemma NoRepeatsParts(a: seq<string>, k: string, b: seq<string>)
    requires NoRepeats(a + [k] + b)
    ensures NoRepeats(a) && NoRepeats(b) && k !in a && k !in b
    ensures forall n | n in a :: n !in b
  {
    var s := a + [k] + b;
    assert forall i | 0 <= i < |a| :: s[i] == a[i];
    assert s[|a|] == k;
    assert forall i | 0 <= i < |b| :: s[|a| + 1 + i] == b[i];
  }

  /** The `j`-th listed sub-component name is the `j`-th sub-component's. */
  lemma {:induction false} SubNamesAt(name: string, subKeys: seq<string>)
    ensures |SubNames(name, subKeys)| == |subKeys|
    ensures forall j | 0 <= j < |subKeys| :: SubNames(name, subKeys)[j] == SubName(name, subKeys[j])
  {
    if |subKeys| > 0 {
      SubNamesAt(name, subKeys[..|subKeys| - 1]);
    }
  }

  /** Only listed sub-component names are filed for a component. */
  lemma {:induction false} SubFiledListed(name: string, subKeys: seq<string>, entries: map<string, Component>)
    requires forall k | k in subKeys :: k in entries
    ensures forall n | n in SubFiled(name, subKeys, entries) :: n in SubNames(name, subKeys)
  {
    if |subKeys| > 0 {
      SubFiledListed(name, subKeys[..|subKeys| - 1], entries);
    }
  }

  /** With distinct names, each sub-component is filed under its own name. */
  lemma {:induction false} SubFiledAt(name: string, subKeys: seq<string>, entries: map<string, Component>, j: nat)
    requires forall k | k in subKeys :: k in entries
    requires NoRepeats(SubNames(name, subKeys)) && j < |subKeys|
    ensures SubName(name, subKeys[j]) in SubFiled(name, subKeys, entries)
    ensures SubFiled(name, subKeys, entries)[SubName(name, subKeys[j])] == entries[subKeys[j]]
  {
    var front := subKeys[..|subKeys| - 1];
    var last := subKeys[|subKeys| - 1];
    if j < |front| {
      NoRepeatsParts(SubNames(name, front), SubName(name, last), []);
      SubNamesAt(name, front);
      assert SubNames(name, front)[j] == SubName(name, subKeys[j]);
      SubFiledAt(name, front, entries, j);
    }
  }

  /** Each component's name, and each of its sub-components' names, is listed. */
  lemma {:induction false} ListedHas(keys: seq<string>, subs: map<string, PyDict<string, Component>>, i: nat)
    requires forall k | k in keys :: k in subs
    requires i < |keys|
    ensures keys[i] in ListedNames(keys, subs)
    ensures forall j | 0 <= j < |subs[keys[i]].keys| :: SubName(keys[i], subs[keys[i]].keys[j]) in ListedNames(keys, subs)
  {
    var front := keys[..|keys| - 1];
    if i < |front| {
      ListedHas(front, subs, i);
    } else {
      SubNamesAt(keys[i], subs[keys[i]].keys);
    }
  }

  /** A component name that is not listed keeps its component in the filing. */
  lemma {:induction false} FiledOther(keys: seq<string>, comps: map<string, Component>, subs: map<string, PyDict<string, Component>>,
                                      n: string)
    requires forall k | k in keys :: k in subs && k in comps
    requires n in comps && n !in ListedNames(keys, subs)
    ensures n in Filed(keys, comps, subs) && Filed(keys, comps, subs)[n] == comps[n]
  {
    if |keys| > 0 {
      var k := keys[|keys| - 1];
      SubFiledListed(k, subs[k].keys, subs[k].entries);
      FiledOther(keys[..|keys| - 1], comps, subs, n);
    }
  }

  /** Without repeated names, every component stays filed under its own name. */
  lemma {:induction false} FiledMainAt(keys: seq<string>, comps: map<string, Component>, subs: map<string, PyDict<string, Component>>,
                                       i: nat)
    requires forall k | k in keys :: k in subs && k in comps
    requires NoRepeats(ListedNames(keys, subs)) && i < |keys|
    ensures keys[i] in Filed(keys, comps, subs) && Filed(keys, comps, subs)[keys[i]] == comps[keys[i]]
  {
    var front := keys[..|keys| - 1];
    var k := keys[|keys| - 1];
    NoRepeatsParts(ListedNames(front, subs), k, SubNames(k, subs[k].keys));
    SubFiledListed(k, subs[k].keys, subs[k].entries);
    FiledKeeps(front, comps, subs);
    if i < |front| {
      ListedHas(front, subs, i);
      assert front[i] == keys[i];
      FiledMainAt(front, comps, subs, i);
    } else {
      FiledOther(front, comps, subs, k);
    }
  }

  /** Without repeated names, every sub-component is filed under its listed name. */
  lemma {:induction false} FiledSubAt(keys: seq<string>, comps: map<string, Component>, subs: map<string, PyDict<string, Component>>,
                                      i: nat, j: nat)
    requires forall k | k in keys :: k in subs && k in comps
    requires NoRepeats(ListedNames(keys, subs)) && i < |keys| && j < |subs[keys[i]].keys|
    ensures var d := subs[keys[i]];
            && SubName(keys[i], d.keys[j]) in Filed(keys, comps, subs)
            && Filed(keys, comps, subs)[SubName(keys[i], d.keys[j])] == d.entries[d.keys[j]]
  {
    var front := keys[..|keys| - 1];
    var k := keys[|keys| - 1];
    NoRepeatsParts(ListedNames(front, subs), k, SubNames(k, subs[k].keys));
    SubFiledListed(k, subs[k].keys, subs[k].entries);
    if i < |front| {
      ListedHas(front, subs, i);
      assert front[i] == keys[i];
      FiledSubAt(front, comps, subs, i, j);
    } else {
      SubFiledAt(k, subs[k].keys, subs[k].entries, j);
    }
  }

  /**
   * After `add_sub_components_to_list` every component keeps a key, every
   * sub-component has one under `<component>_<sub-component>`, and no other
   * name is a key.
   */
  lemma FlattenedNames(comps: PyDict<string, Component>, subs: map<string, PyDict<string, Component>>)
    requires forall k | k in comps.keys :: k in subs
    ensures var r := Flattened(comps, subs);
            && r.Valid()
            && (forall n | n in r.entries :: n in ListedNames(comps.keys, subs))
            && (forall k | k in comps.entries :: k in r.entries)
            && (forall k, x | k in comps.entries && x in subs[k].entries :: SubName(k, x) in r.entries)
  {
    var r := Flattened(comps, subs);
    forall k | k in comps.entries ensures k in r.entries && forall x | x in subs[k].entries :: SubName(k, x) in r.entries {
      var i :| 0 <= i < |comps.keys| && comps.keys[i] == k;
      ListedHas(comps.keys, subs, i);
      forall x | x in subs[k].entries ensures SubName(k, x) in r.entries {
        var j :| 0 <= j < |subs[k].keys| && subs[k].keys[j] == x;
      }
    }
  }

  /**
   * When no listed name repeats (no `<component>_<sub-component>` equals
   * another name), the new dictionary lists every component followed by
   * its sub-components, in that order.
   */
  lemma FlattenedOrder(comps: PyDict<string, Component>, subs: map<string, PyDict<string, Component>>)
    requires forall k | k in comps.keys :: k in subs
    requires NoRepeats(ListedNames(comps.keys, subs))
    ensures Flattened(comps, subs).keys == ListedNames(comps.keys, subs)
  {
    var empty: Dict<string, Component> := Dict([], map[]);
    assert empty.Fresh(ListedNames(comps.keys, subs));
    FiledListed(comps.keys, comps.entries, subs);
    empty.PutAllFresh(ListedNames(comps.keys, subs), Filed(comps.keys, comps.entries, subs));
  }

  /**
   * When no listed name repeats, every component keeps its own name and
   * every sub-component is filed under `<component>_<sub-component>`.
   */
  lemma FlattenedWithoutClash(comps: PyDict<string, Component>, subs: map<string, PyDict<string, Component>>)
    requires forall k | k in comps.keys :: k in subs
    requires NoRepeats(ListedNames(comps.keys, subs))
    ensures var r := Flattened(comps, subs);
            && (forall k | k in comps.entries :: k in r.entries && r.entries[k] == comps.entries[k])
            && (forall k, x | k in comps.entries && x in subs[k].entries ::
                  SubName(k, x) in r.entries && r.entries[SubName(k, x)] == subs[k].entries[x])
  {
    var r := Flattened(comps, subs);
    forall k | k in comps.entries
      ensures k in r.entries && r.entries[k] == comps.entries[k]
      ensures forall x | x in subs[k].entries :: SubName(k, x) in r.entries && r.entries[SubName(k, x)] == subs[k].entries[x]
    {
      var i :| 0 <= i < |comps.keys| && comps.keys[i] == k;
      ListedHas(comps.keys, subs, i);
      FiledMainAt(comps.keys, comps.entries, subs, i);
      FlattenedAt(comps, subs, k);
      forall x | x in subs[k].entries ensures SubName(k, x) in r.entries && r.entries[SubName(k, x)] == subs[k].entries[x] {
        var j :| 0 <= j < |subs[k].keys| && subs[k].keys[j] == x;
        FiledSubAt(comps.keys, comps.entries, subs, i, j);
        FlattenedAt(comps, subs, SubName(k, x));
      }
    }
  }

  /** A listed name holds what is filed under it. */
  lemma FlattenedAt(comps: PyDict<string, Component>, subs: map<string, PyDict<string, Component>>, n: string)
    requires forall k | k in comps.keys :: k in subs
    requires n in ListedNames(comps.keys, subs)
    ensures n in Filed(comps.keys, comps.entries, subs) && n in Flattened(comps, subs).entries
    ensures Flattened(comps, subs).entries[n] == Filed(comps.keys, comps.entries, subs)[n]
  {
    FiledListed(comps.keys, comps.entries, subs);
  }

  // ----- get_full_hours_of_use (ModelBase.py:463-501) -----

  /** A history entry as a number; an entry of None never gets this far. */
  function Reading(v: Option<real>): real
  {
    if v.Some? then v.value else 0.0
  }

  /**
   * The loop over a stream history gets through: every entry is a number
   * (`None > 0` fails), and a positive one finds a resolution to multiply
   * by (`val * None` fails).
   */
  predicate Readable(values: seq<Option<real>>, tr: Option<int>)
  {
    forall i | 0 <= i < |values| :: values[i].Some? && (values[i].value > 0.0 ==> tr.Some?)
  }

  /** `max_grid_drain`: the largest entry, and 0 when none is positive. */
  function Peak(values: seq<Option<real>>): (p: real)
    ensures p >= 0.0
  {
    if |values| == 0 then 0.0
    else
      var p := Peak(values[..|values| - 1]);
      var v := Reading(values[|values| - 1]);
      if v > p then v else p
  }

  /** The peak is at least every entry, and 0 exactly when no entry is positive. */
  lemma {:induction false} PeakBounds(values: seq<Option<real>>)
    ensures forall i | 0 <= i < |values| :: Reading(values[i]) <= Peak(values)
    ensures Peak(values) == 0.0 <==> forall i | 0 <= i < |values| :: Reading(values[i]) <= 0.0
  {
    if |values| > 0 {
      var front := values[..|values| - 1];
      PeakBounds(front);
      assert forall i | 0 <= i < |front| :: front[i] == values[i];
    }
  }

  /** The length of one step in hours (`time_resolution / 60`). */
  function StepHours(tr: int): real
  {
    tr as real / 60.0
  }

  /** `n` steps of `x` each, added up. */
  function Repeated(n: nat, x: real): real
  {
    if n == 0 then 0.0 else Repeated(n - 1, x) + x
  }

  /** `grid_energy_drain`: each positive entry times the length of a step. */
  function Drain(values: seq<Option<real>>, tr: Option<int>): real
  {
    if |values| == 0 then 0.0
    else
      var v := Reading(values[|values| - 1]);
      Drain(values[..|values| - 1], tr) + if v > 0.0 && tr.Some? then v * StepHours(tr.value) else 0.0
  }

  /** The sum of the positive entries. */
  function Positive(values: seq<Option<real>>): real
  {
    if |values| == 0 then 0.0
    else
      var v := Reading(values[|values| - 1]);
      Positive(values[..|values| - 1]) + if v > 0.0 then v else 0.0
  }

  /**
   * The full-load hours of a stream history: the drain over the peak.  A
   * history the loop cannot read is a TypeError, and one without a
   * positive entry divides by zero.
   */
  function FullLoadHours(values: seq<Option<real>>, tr: Option<int>): (r: Result<real>)
    ensures r == Err(TypeError) <==> !Readable(values, tr)
    ensures r == Err(ZeroDivisionError) <==> Readable(values, tr) && forall i | 0 <= i < |values| :: Reading(values[i]) <= 0.0
    ensures r.Ok? ==> Peak(values) > 0.0 && tr.Some?
  {
    PeakBounds(values);
    if !Readable(values, tr) then Err(TypeError)
    else if Peak(values) == 0.0 then Err(ZeroDivisionError)
    else Ok(Drain(values, tr) / Peak(values))
  }

  /** With a resolution, the drain is the positive entries times the step length. */
  lemma {:induction false} DrainScales(values: seq<Option<real>>, tr: int)
    ensures Drain(values, Some(tr)) == Positive(values) * StepHours(tr)
  {
    if |values| > 0 {
      var v := Reading(values[|values| - 1]);
      var front := values[..|values| - 1];
      DrainScales(front, tr);
      if v > 0.0 {
        assert (Positive(front) + v) * StepHours(tr) == Positive(front) * StepHours(tr) + v * StepHours(tr);
      }
    }
  }

  /** The positive entries add up to at least the peak. */
  lemma {:induction false} PositiveAtLeastPeak(values: seq<Option<real>>)
    ensures 0.0 <= Positive(values)
    ensures Peak(values) > 0.0 ==> Peak(values) <= Positive(values)
  {
    if |values| > 0 {
      var front := values[..|values| - 1];
      PositiveAtLeastPeak(front);
      assert Peak(front) <= Peak(values);
      if Peak(values) > 0.0 && Peak(front) < Peak(values) {
        assert Reading(values[|values| - 1]) == Peak(values);
      }
    }
  }

  /** Entries no larger than `b` add up to at most `b` per step. */
  lemma {:induction false} PositiveAtMost(values: seq<Option<real>>, b: real)
    requires b >= 0.0 && forall i | 0 <= i < |values| :: Reading(values[i]) <= b
    ensures Positive(values) <= Repeated(|values|, b)
  {
    if |values| > 0 {
      var front := values[..|values| - 1];
      assert forall i | 0 <= i < |front| :: front[i] == values[i];
      PositiveAtMost(front, b);
    }
  }

  /** `n` steps of `a` taken `b` times are `n` steps of `b` taken `a` times. */
  lemma {:induction false} RepeatedSwap(n: nat, a: real, b: real)
    ensures Repeated(n, a) * b == Repeated(n, b) * a
  {
    if n > 0 {
      var m: nat := n - 1;
      RepeatedSwap(m, a, b);
      var ra, rb := Repeated(m, a), Repeated(m, b);
      assert Repeated(n, a) == ra + a && Repeated(n, b) == rb + b;
      assert (ra + a) * b == ra * b + a * b;
      assert (rb + b) * a == rb * a + b * a;
    }
  }


  /** A quotient bounded through its dividend: `h * p <= s * h <= period * p`. */
  lemma QuotientBetween(d: real, p: real, s: real, h: real, period: real, spread: real)
    requires p > 0.0 && h > 0.0 && d == s * h && p <= s <= spread && spread * h == period * p
    ensures h <= d / p <= period
  {
    assert h * p <= d by {
      assert (s - p) * h >= 0.0;
    }
    assert d <= period * p by {
      assert (spread - s) * h >= 0.0;
    }
  }

  /** A drain of `s` per hour of `h`, over a peak `p` no larger than `s` and at least `s` spread over `n` steps. */
  lemma HoursBetween(d: real, p: real, s: real, h: real, n: nat)
    requires p > 0.0 && h > 0.0 && d == s * h && p <= s <= Repeated(n, p)
    ensures h <= d / p <= Repeated(n, h)
  {
    RepeatedSwap(n, p, h);
    QuotientBetween(d, p, s, h, Repeated(n, h), Repeated(n, p));
  }



  /** The drain as the positive sum in hours, and that sum between the peak and every step at the peak. */
  lemma DrainFacts(values: seq<Option<real>>, tr: int)
    ensures Drain(values, Some(tr)) == Positive(values) * StepHours(tr)
    ensures Peak(values) > 0.0 ==> Peak(values) <= Positive(values)
    ensures Positive(values) <= Repeated(|values|, Peak(values))
  {
    DrainScales(values, tr);
    PositiveAtLeastPeak(values);
    PeakBounds(values);
    PositiveAtMost(values, Peak(values));
  }


  /** A drain over a positive peak lasts between one step and every step. */
  lemma DrainOverPeak(values: seq<Option<real>>, tr: int)
    requires tr > 0 && Peak(values) > 0.0
    ensures StepHours(tr) <= Drain(values, Some(tr)) / Peak(values) <= Repeated(|values|, StepHours(tr))
  {
    DrainFacts(values, tr);
    HoursBetween(Drain(values, Some(tr)), Peak(values), Positive(values), StepHours(tr), |values|);
  }

  /**
   * With a positive resolution, the full-load hours lie between one step
   * and the whole period the history covers (`|history| * tr / 60` hours).
   */
  lemma FullLoadHoursWithinPeriod(values: seq<Option<real>>, tr: int)
    requires tr > 0 && FullLoadHours(values, Some(tr)).Ok?
    ensures StepHours(tr) <= FullLoadHours(values, Some(tr)).value <= Repeated(|values|, StepHours(tr))
  {
    DrainOverPeak(values, tr);
  }

  /** A history at the same positive value in every step runs at full load the whole period. */
  lemma {:induction false} FullLoadHoursOfConstant(values: seq<Option<real>>, tr: int, p: real)
    requires p > 0.0 && |values| > 0 && forall i | 0 <= i < |values| :: values[i] == Some(p)
    ensures FullLoadHours(values, Some(tr)) == Ok(Repeated(|values|, StepHours(tr)))
  {
    ConstantPositive(values, p);
    DrainScales(values, tr);
    RepeatedSwap(|values|, p, StepHours(tr));
    assert Readable(values, Some(tr));
    assert Peak(values) == p;
    assert Drain(values, Some(tr)) == Repeated(|values|, StepHours(tr)) * p;
    var whole := Repeated(|values|, StepHours(tr));
    Cancel(whole, p);
    assert Drain(values, Some(tr)) / Peak(values) == whole;
  }

  /** Dividing out a nonzero factor. */
  lemma Cancel(x: real, p: real)
    requires p != 0.0
    ensures (x * p) / p == x
  {
  }

  /** The positive sum and the peak of a constant history. */
  lemma {:induction false} ConstantPositive(values: seq<Option<real>>, p: real)
    requires p > 0.0 && forall i | 0 <= i < |values| :: values[i] == Some(p)
    ensures Positive(values) == Repeated(|values|, p)
    ensures |values| > 0 ==> Peak(values) == p
  {
    if |values| > 0 {
      ConstantPositive(values[..|values| - 1], p);
    }
  }

  /** The full-load hours of a port's stream history, which is None when the port records none. */
  function HoursOfHistory(history: Option<seq<Option<real>>>, tr: Option<int>): Result<real>
  {
    if history.None? then Err(TypeError) else FullLoadHours(history.value, tr)
  }

  /** One more entry of a history: how the readability, the drain and the peak grow. */
  lemma HistoryStep(values: seq<Option<real>>, i: nat, tr: Option<int>)
    requires i < |values|
    ensures var v := Reading(values[i]);
            && Readable(values[..i + 1], tr) == (Readable(values[..i], tr) && values[i].Some? && (v > 0.0 ==> tr.Some?))
            && Drain(values[..i + 1], tr) == Drain(values[..i], tr) + (if v > 0.0 && tr.Some? then v * StepHours(tr.value) else 0.0)
            && Peak(values[..i + 1]) == (if v > Peak(values[..i]) then v else Peak(values[..i]))
  {
    assert values[..i + 1][..i] == values[..i];
  }

  /** The loop of `get_full_hours_of_use` over a stream history, and the division after it. */
  method HistoryHours(history: Option<seq<Option<real>>>, tr: Option<int>) returns (r: Result<real>)
    ensures r == HoursOfHistory(history, tr)
  {
    if history.None? {
      return Err(TypeError);
    }
    var values := history.value;
    var drain, peak := 0.0, 0.0;
    var i := 0;
    while i < |values|
      invariant 0 <= i <= |values|
      invariant Readable(values[..i], tr)
      invariant drain == Drain(values[..i], tr) && peak == Peak(values[..i])
    {
      var val := values[i];
      if val.None? {
        return Err(TypeError);
      }
      if val.value > 0.0 {
        if tr.None? {
          return Err(TypeError);
        }
        drain := drain + val.value * StepHours(tr.value);
      }
      if val.value > peak {
        peak := val.value;
      }
      HistoryStep(values, i, tr);
      i := i + 1;
    }
    assert values[..i] == values;
    if peak == 0.0 {
      return Err(ZeroDivisionError);
    }
    r := Ok(drain / peak);
  }

  /**
   * The part of `get_full_hours_of_use` after the run: the ports of the type
   * (None when the component has none, and `len(None)` fails), exactly one
   * of them, and its history.
   */
  method PortHours(ports: Option<seq<Port>>, tr: Option<int>) returns (r: Result<real>)
    ensures ports.None? ==> r == Err(TypeError)
    ensures ports.Some? && |ports.value| > 1 ==> r == Err(ComponentError)
    ensures ports == Some([]) ==> r == Err(IndexError)
    ensures ports.Some? && |ports.value| == 1 ==> r == HoursOfHistory(ports.value[0].results.streamHistory, tr)
  {
    if ports.None? {
      r := Err(TypeError);
    } else if |ports.value| > 1 {
      r := Err(ComponentError);
    } else if |ports.value| == 0 {
      r := Err(IndexError);
    } else {
      r := HistoryHours(ports.value[0].results.streamHistory, tr);
    }
  }

  /**
   * What setting a profile on a component returns: a binary profile needs a
   * port of the type and sign (AttributeError); a value profile on no such
   * port only logs, fails where the port cannot store it, and fails with
   * ComponentError when the component already has a different resolution.
   */
  ghost function ProfileOutcome(c: Component, t: PortType, s: StreamDirection, profile: seq<real>,
                                q: PhysicalQuantity, tr: Option<int>, binary: bool): Result<()>
    reads c`ports, c`timeResolution, set p | p in c.ports :: p.results, c.ports`valueProfiles
  {
    var k := c.Pick(t, s);
    if k.None? then (if binary then Err(AttributeError) else Ok(()))
    else if binary then Ok(())
    else
      var stored := StoreProfile(c.ports[k.value].valueProfiles, c.ports[k.value].results.sign, q, profile);
      if stored.Err? then Err(stored.error)
      else if c.timeResolution.None? || c.timeResolution == tr then Ok(())
      else Err(ComponentError)
  }

  /**
   * A shaped branch that connects the model's own components, all of them
   * well formed, is well formed.
   */
  lemma LinkedValid(b: Branch, components: PyDict<string, Component>)
    requires b.Shaped() && Linked(b, components) && UnitsValid(components)
    ensures b.Valid()
  {
    forall c | c in b.connected.Values ensures c.Valid() {
      var n :| n in b.connected && b.connected[n] == c;
    }
  }

  class Model {
    const settings: BasicTechnicalSettings
    const counters: IdCounters
    var components: Dict<string, Component>
    var branches: Dict<string, Branch>
    /** `branch_calculation_order`: None until the branches are built. */
    var calculationOrder: Option<seq<string>>
    /** `passive_priorityRules`. */
    var priorityRules: seq<string>
    var loopControlRules: map<string, seq<string>>
    var profileLen: Option<nat>
    var status: Dict<string, int>
    var overallStatus: int
    /** The branches, together with any an added branch of the same name replaced. */
    ghost var branchSet: set<Branch>

    /**
     * The dictionaries are well formed, every component is well formed, and
     * every branch is well formed, shares the model's settings and connects
     * the model's own components under their names.
     */
    ghost predicate Valid()
      reads this`components, this`branches, this`branchSet
      reads components.entries.Values`numberOfPorts, components.entries.Values`ports,
            components.entries.Values`portTypes, components.entries.Values`controlledPort,
            components.entries.Values`loopControl, components.entries.Values`massIn, components.entries.Values`massOut
      reads branchSet`connected, branchSet`portsConnected, branchSet`loopControlled, branchSet`unitPorts
    {
      && components.Valid() && branches.Valid()
      && (forall n | n in branches.entries :: branches.entries[n] in branchSet)
      && UnitsValid(components)
      && (forall b | b in branchSet :: b.settings == settings && Linked(b, components) && b.Shaped())
    }

    /** The model keeps its invariants while its own maps, components and branches are untouched. */
    twostate lemma Untouched()
      requires old(Valid() && Settled() && Disjoint())
      requires unchanged(this`components, this`branches, this`branchSet)
      requires unchanged(Units()`numberOfPorts, Units()`ports, Units()`portTypes, Units()`controlledPort,
                         Units()`loopControl, Units()`massIn, Units()`massOut)
      requires unchanged(Branches()) && unchanged(branchSet) && unchanged(settings)
      ensures Valid() && Settled() && Disjoint()
    {
    }

    /**
     * `ModelBase.__init__`: the id counters are reset, and the model starts
     * with no components, branches, profiles or status.
     */
    constructor (settings: BasicTechnicalSettings, counters: IdCounters)
      modifies counters
      ensures this.settings == settings && this.counters == counters
      ensures counters.componentCount == 0 && counters.branchCount == 0
      ensures components.keys == [] && branches.keys == [] && status.keys == []
      ensures calculationOrder == None && priorityRules == [] && loopControlRules == map[]
      ensures profileLen == None && overallStatus == 0
      ensures Valid() && Distinct()
    {
      this.settings := settings;
      this.counters := counters;
      components := Empty();
      branches := Empty();
      calculationOrder := None;
      priorityRules := [];
      loopControlRules := map[];
      profileLen := None;
      status := Empty();
      overallStatus := 0;
      branchSet := {};
      new;
      counters.ResetIDs();
    }

    /** `reset_IDs`: the component and branch counters start again from zero. */
    method ResetIDs()
      modifies counters
      ensures counters.componentCount == 0 && counters.branchCount == 0
    {
      counters.ResetIDs();
    }

    /**
     * `self.components[name] = unit` in a system model's definition: a new
     * name for a well-formed component.
     */
    method AddComponent(name: string, c: Component)
      requires Valid() && c.Valid() && name !in components.entries
      modifies this`components
      ensures components == old(components).Put(name, c)
      ensures Valid()
    {
      components := components.Put(name, c);
    }

    /** Stores a new, well-formed branch under the name. */
    method StoreBranch(name: string, b: Branch)
      requires Valid() && b.Valid() && b.settings == settings && b.connected == map[]
      requires b !in branches.entries.Values
      modifies this`branches, this`branchSet
      ensures branches == old(branches).Put(name, b)
      ensures Valid() && (old(Distinct()) ==> Distinct())
    {
      branches := branches.Put(name, b);
      branchSet := branchSet + {b};
    }

    /**
     * `add_branch`: after the checks of `BranchArgError`, a new branch with
     * the next branch id is stored under the name (replacing one of the same
     * name).
     */
    method AddBranch(name: string, branchType: Option<PortType>, connections: ConnectionsArg) returns (r: Result<()>)
      requires Valid()
      modifies this`branches, this`branchSet, counters`branchCount
      ensures Valid() && (old(Distinct()) ==> Distinct())
      ensures var e := BranchArgError(branchType, connections, components.entries.Keys);
              && (e.Some? ==> r == Err(e.value) && branches == old(branches) && counters.branchCount == old(counters.branchCount))
              && (e.None? ==> r.Ok? && counters.branchCount == old(counters.branchCount) + 1)
      ensures r.Ok? ==> && name in branches.entries && fresh(branches.entries[name])
                        && branches == old(branches).Put(name, branches.entries[name])
                        && branches.entries[name].branchId == CreateId('B', old(counters.branchCount))
                        && branches.entries[name].branchType == branchType.value
                        && branches.entries[name].connections == Pairs(connections.items)
                        && branches.entries[name].settings == settings
                        && branches.entries[name].connected == map[]
    {
      var e := BranchArgError(branchType, connections, components.entries.Keys);
      if e.Some? {
        return Err(e.value);
      }
      var id := counters.NextBranchId();
      var b := new Branch(branchType.value, name, Pairs(connections.items), settings, id);
      StoreBranch(name, b);
      r := Ok(());
    }

    // ----- profiles and time resolution (ModelBase.py:174-289) -----

    /**
     * `add_profile_to_component_port`: `profile_len` takes the new length
     * into account whatever follows; a resolution that differs from the
     * model's is a ComponentError and a first one is adopted; then the named
     * component sets the binary or value profile on its port, and a name the
     * model does not know is a ComponentError.
     */
    method AddProfileToComponentPort(name: string, t: PortType, s: StreamDirection, profile: seq<real>,
                                     q: PhysicalQuantity, tr: Option<int>, active: bool, binary: bool)
      returns (r: Result<()>)
      requires Valid() && Settled() && Disjoint()
      modifies this`profileLen, settings`timeResolution
      modifies Units()`controlledPort, Units()`active, Units()`timeResolution, Ports()`valueProfiles, Ports()`binaryProfile
      ensures Valid() && Settled() && Disjoint()
      ensures profileLen == ShorterProfile(old(profileLen), |profile|)
      ensures var res := ProfileResolution(tr, old(settings.timeResolution));
              && (res.Err? ==> r == Err(ComponentError) && settings.timeResolution == old(settings.timeResolution))
              && (res.Ok? ==> settings.timeResolution == res.value)
              && (res.Ok? && name !in components.entries ==> r == Err(ComponentError))
              && (res.Ok? && name in components.entries ==>
                    r == old(ProfileOutcome(components.entries[name], t, s, profile, q, res.value, binary)))
      ensures ProfileResolution(tr, old(settings.timeResolution)).Err? || name !in components.entries ==>
                unchanged(Units()) && unchanged(Ports())
    {
      // The source updates `profile_len` and the resolution before the
      // component's step; the three touch different state, so the order
      // here changes nothing.
      var res := ProfileResolution(tr, settings.timeResolution);
      if res.Ok? && name in components.entries {
        r := ProfileStep(name, t, s, profile, q, res.value, active, binary);
      } else {
        r := Err(ComponentError);
      }
      NoteProfile(|profile|, res);
    }

    /** The step of `add_profile_to_component_port` on a component of the model, which keeps the model's invariants. */
    method ProfileStep(name: string, t: PortType, s: StreamDirection, profile: seq<real>,
                       q: PhysicalQuantity, tr: Option<int>, active: bool, binary: bool) returns (r: Result<()>)
      requires Valid() && Settled() && Disjoint() && name in components.entries
      modifies Units()`controlledPort, Units()`active, Units()`timeResolution, Ports()`valueProfiles, Ports()`binaryProfile
      ensures Valid() && Settled() && Disjoint()
      ensures r == old(ProfileOutcome(components.entries[name], t, s, profile, q, tr, binary))
    {
      var c := components.entries[name];
      assert c in Units();
      assert forall p | p in c.ports :: p in Ports();
      r := SetUnitProfile(c, t, s, profile, q, tr, active, binary);
      Reprofiled(c);
    }

    /** `profile_len` takes a profile of `n` steps into account, and a resolution that passed the check is the model's. */
    method NoteProfile(n: nat, res: Result<Option<int>>)
      modifies this`profileLen, settings`timeResolution
      ensures profileLen == ShorterProfile(old(profileLen), n)
      ensures settings.timeResolution == if res.Ok? then res.value else old(settings.timeResolution)
      ensures old(Valid() && Settled() && Disjoint()) ==> Valid() && Settled() && Disjoint()
    {
      profileLen := ShorterProfile(profileLen, n);
      if res.Ok? {
        settings.timeResolution := res.value;
      }
    }

    /**
     * The step of `add_profile_to_component_port` that sets the profile on
     * the component: `set_binary_profile_to_port` stores it under the sign on
     * the picked port, `set_profile_to_port` makes the picked port the
     * controlled one and stores it among the port's value profiles.
     */
    method SetUnitProfile(c: Component, t: PortType, s: StreamDirection, profile: seq<real>,
                          q: PhysicalQuantity, tr: Option<int>, active: bool, binary: bool) returns (r: Result<()>)
      requires c.Valid()
      modifies c`controlledPort, c`active, c`timeResolution, c.ports`valueProfiles, c.ports`binaryProfile
      ensures c.Valid()
      ensures r == old(ProfileOutcome(c, t, s, profile, q, tr, binary))
      ensures var k := old(c.Pick(t, s));
              binary && k.Some? ==> c.ports[k.value].binaryProfile == old(c.ports[k.value].binaryProfile)[s := profile]
      ensures var k := old(c.Pick(t, s));
              !binary && k.Some? ==>
                var p := c.ports[k.value];
                var stored := StoreProfile(old(p.valueProfiles), p.results.sign, q, profile);
                && c.controlledPort == k
                && (stored.Ok? ==> p.valueProfiles == stored.value && c.active == active)
    {
      if binary {
        r := c.SetBinaryProfileToPort(profile, t, s);
      } else {
        r := c.SetProfileToPort(profile, t, s, q, tr, active);
      }
    }

    /** Setting a profile changes neither the model's maps nor any branch, nor what a component's validity reads but its controlled port. */
    twostate lemma Reprofiled(c: Component)
      requires old(Valid() && Settled() && Disjoint()) && c in Units() && c.Valid()
      requires unchanged(this`components, this`branches, this`branchSet) && unchanged(settings)
      requires unchanged(Branches()) && unchanged(branchSet) && unchanged(Units() - {c})
      requires unchanged(c`numberOfPorts, c`ports, c`portTypes, c`loopControl, c`massIn, c`massOut)
      ensures Valid() && Settled() && Disjoint()
    {
    }

    /** The sub-components of the model's components. */
    ghost function Subs(): set<Component>
      reads this`components, components.entries.Values`subComponents
    {
      set c, s | c in components.entries.Values && s in c.subComponents.entries.Values :: s
    }

    /**
     * `set_time_resolution`: without a resolution the model's own is used
     * (`60 % None` fails with TypeError, a resolution of 0 with
     * ZeroDivisionError; one that does not divide 60 is only logged).  The
     * model, every component and every sub-component then take it.
     */
    method SetTimeResolution(tr: Option<int>) returns (r: Result<()>)
      requires Valid() && Settled() && Disjoint()
      modifies settings`timeResolution, Units()`timeResolution, Subs()`timeResolution
      ensures Valid() && Settled() && Disjoint()
      ensures var t := if tr.Some? then tr else old(settings.timeResolution);
              && (t.None? ==> r == Err(TypeError))
              && (t == Some(0) ==> r == Err(ZeroDivisionError))
              && (r.Err? ==> unchanged(settings) && unchanged(Units()) && unchanged(Subs()))
              && (t.Some? && t.value != 0 ==>
                    && r == Ok(()) && settings.timeResolution == t
                    && forall c | c in Units() :: c.timeResolution == t && forall x | x in c.subComponents.entries.Values :: x.timeResolution == t)
    {
      var t := if tr.Some? then tr else settings.timeResolution;
      if t.None? {
        r := Err(TypeError);
      } else if t.value == 0 {
        r := Err(ZeroDivisionError);
      } else {
        settings.timeResolution := t;
        RetimeAll(t.value);
        Retimed();
        r := Ok(());
      }
    }

    /** Every component and sub-component of the model takes the resolution. */
    method RetimeAll(t: int)
      requires components.Valid()
      modifies Units()`timeResolution, Subs()`timeResolution
      ensures forall c | c in Units() :: c.timeResolution == Some(t) && forall x | x in c.subComponents.entries.Values :: x.timeResolution == Some(t)
    {
      var comps := components;
      ghost var done: set<Component> := {};
      var i := 0;
      while i < |comps.keys|
        invariant 0 <= i <= |comps.keys|
        invariant forall x | x in done :: x.timeResolution == Some(t)
        invariant forall j | 0 <= j < i :: comps.entries[comps.keys[j]] in done &&
                                           comps.entries[comps.keys[j]].subComponents.entries.Values <= done
      {
        var c := comps.entries[comps.keys[i]];
        assert c in Units() && c.subComponents.entries.Values <= Subs();
        RetimeComponent(c, t);
        done := done + {c} + c.subComponents.entries.Values;
        i := i + 1;
      }
      forall c | c in Units()
        ensures c.timeResolution == Some(t) && forall x | x in c.subComponents.entries.Values :: x.timeResolution == Some(t)
      {
        var n :| n in comps.entries && comps.entries[n] == c;
        var j :| 0 <= j < |comps.keys| && comps.keys[j] == n;
      }
    }

    /** A component and its sub-components take the resolution. */
    method RetimeComponent(c: Component, t: int)
      modifies c`timeResolution, c.subComponents.entries.Values`timeResolution
      ensures c.timeResolution == Some(t)
      ensures forall x | x in c.subComponents.entries.Values :: x.timeResolution == Some(t)
    {
      c.SetTimeResolution(t);
      var subs := c.subComponents;
      var m := 0;
      while m < |subs.keys|
        invariant 0 <= m <= |subs.keys| && c.subComponents == subs && c.timeResolution == Some(t)
        invariant forall k | 0 <= k < m :: subs.entries[subs.keys[k]].timeResolution == Some(t)
      {
        subs.entries[subs.keys[m]].SetTimeResolution(t);
        m := m + 1;
      }
      forall x | x in subs.entries.Values ensures x.timeResolution == Some(t) {
        var n :| n in subs.entries && subs.entries[n] == x;
        var k :| 0 <= k < |subs.keys| && subs.keys[k] == n;
      }
    }

    /** Changing resolutions touches nothing the model's invariants read. */
    twostate lemma Retimed()
      requires old(Valid() && Settled() && Disjoint())
      requires unchanged(this`components, this`branches, this`branchSet) && unchanged(Branches()) && unchanged(branchSet)
      requires unchanged(Units()`numberOfPorts, Units()`ports, Units()`portTypes, Units()`controlledPort, Units()`loopControl,
                         Units()`massIn, Units()`massOut)
      requires settings.absoluteModelError == old(settings.absoluteModelError)
      ensures Valid() && Settled() && Disjoint()
    {
    }

    /** The sub-components of each component, by the component's name. */
    function SubDicts(): (m: map<string, PyDict<string, Component>>)
      reads this`components, components.entries.Values`subComponents
      ensures m.Keys == components.entries.Keys
    {
      map n | n in components.entries :: components.entries[n].subComponents
    }

    /**
     * `add_sub_components_to_list`: the components dictionary is rebuilt
     * with every component followed by its sub-components, each under
     * `<component>_<sub-component>`.
     */
    method AddSubComponentsToList()
      requires components.Valid()
      modifies this`components
      ensures components == Flattened(old(components), old(SubDicts()))
    {
      var subs := SubDicts();
      var comps: PyDict<string, Component> := components;
      var sorted, filed := ListAll(comps.keys, comps.entries, subs);
      FiledListed(comps.keys, comps.entries, subs);
      components := Rebuild(sorted, filed);
    }

    /** The first loop of `add_sub_components_to_list`: `sorted_list` and `new_component_list`. */
    method ListAll(keys: seq<string>, entries: map<string, Component>, subs: map<string, PyDict<string, Component>>)
      returns (sorted: seq<string>, filed: map<string, Component>)
      requires forall k | k in keys :: k in subs && k in entries
      ensures sorted == ListedNames(keys, subs) && filed == Filed(keys, entries, subs)
    {
      sorted, filed := [], entries;
      var i := 0;
      while i < |keys|
        invariant 0 <= i <= |keys|
        invariant sorted == ListedNames(keys[..i], subs)
        invariant filed == Filed(keys[..i], entries, subs)
      {
        var name := keys[i];
        var names, subFiled := ListSubs(name, subs[name]);
        ListedStep(keys, i, entries, subs);
        sorted := sorted + [name] + names;
        filed := filed + subFiled;
        i := i + 1;
      }
      assert keys[..i] == keys;
    }

    /** The inner loop: the names and entries of one component's sub-components. */
    method ListSubs(name: string, d: PyDict<string, Component>) returns (names: seq<string>, filed: map<string, Component>)
      ensures names == SubNames(name, d.keys) && filed == SubFiled(name, d.keys, d.entries)
    {
      names, filed := [], map[];
      var m := 0;
      while m < |d.keys|
        invariant 0 <= m <= |d.keys|
        invariant names == SubNames(name, d.keys[..m]) && filed == SubFiled(name, d.keys[..m], d.entries)
      {
        assert d.keys[..m + 1][..m] == d.keys[..m];
        filed := filed[SubName(name, d.keys[m]) := d.entries[d.keys[m]]];
        names := names + [SubName(name, d.keys[m])];
        m := m + 1;
      }
      assert d.keys[..m] == d.keys;
    }

    /** The second loop: the new dictionary, filled in the listed order. */
    method Rebuild(sorted: seq<string>, filed: map<string, Component>) returns (out: Dict<string, Component>)
      requires forall n | n in sorted :: n in filed
      ensures out == Dict([], map[]).PutAll(sorted, filed)
    {
      out := Dict([], map[]);
      var j := 0;
      while j < |sorted|
        invariant 0 <= j <= |sorted|
        invariant out == Dict([], map[]).PutAll(sorted[..j], filed)
      {
        assert sorted[..j + 1][..j] == sorted[..j];
        out := out.Put(sorted[j], filed[sorted[j]]);
        j := j + 1;
      }
      assert sorted[..j] == sorted;
    }

    // ----- build_branches (Connections2Branches.py:10-126) -----

    /** No branch is stored under two names: `add_branch` builds a new branch on every call. */
    ghost predicate Distinct()
      reads this`branches
    {
      forall m, n | m in branches.entries && n in branches.entries && m != n :: branches.entries[m] != branches.entries[n]
    }

    /** The `i`-th branch, in the order the branches were added. */
    ghost function BranchAt(i: nat): Branch
      requires branches.Valid() && i < |branches.keys|
      reads this`branches
    {
      branches.entries[branches.keys[i]]
    }

    /**
     * The connections of the `i`-th branch (Connections2Branches.py:18-54):
     * the model stays well formed and only that branch is connected anew.
     */
    method LinkAt(i: nat) returns (r: Result<Split>)
      requires Valid() && Settled() && Disjoint() && i < |branches.keys|
      modifies BranchAt(i)`connected, BranchAt(i)`portsConnected, BranchAt(i)`unitPorts, Units()`branchId,
               PortResults(components)`branchId
      ensures Valid() && Settled() && Disjoint()
      ensures r.Ok? ==> FiledUnder(r.value, BranchAt(i)) && Within(r.value, components.entries.Keys)
      ensures r.Err? ==> r.error == KeyError || r.error == BranchConnectionError
    {
      var b := branches.entries[branches.keys[i]];
      LinkedValid(b, components);
      r := LinkBranch(b, components, Units(), PortResults(components));
      Relinked(b);
    }

    /** Connecting one branch anew keeps the model's invariants. */
    twostate lemma Relinked(b: Branch)
      requires old(Valid() && Settled() && Disjoint()) && b in branchSet
      requires unchanged(this`components, this`branches, this`branchSet) && unchanged(settings)
      requires unchanged(branchSet - {b}) && unchanged(b`calculated, b`balance) && unchanged(Units()`ports)
      requires b.Valid() && Linked(b, components) && UnitsValid(components)
      ensures Valid() && Settled() && Disjoint()
    {
    }

    /**
     * The connections of every branch, in the order the branches were added
     * (Connections2Branches.py:16-54): the first failing connection stops the
     * build with its error; otherwise every branch has its split, naming
     * components of the model.
     */
    method LinkAll() returns (r: Result<PyDict<string, Split>>)
      requires Valid() && Settled() && Disjoint() && Distinct()
      modifies Branches()`connected, Branches()`portsConnected, Branches()`unitPorts, Units()`branchId,
               PortResults(components)`branchId
      ensures Valid() && Settled() && Disjoint()
      ensures r.Ok? ==> && r.value.keys == branches.keys
                        && forall n | n in r.value.entries :: Within(r.value.entries[n], components.entries.Keys)
      ensures r.Err? ==> r.error == KeyError || r.error == BranchConnectionError
    {
      var out: Dict<string, Split> := Empty();
      var failure: Option<ErrorClass> := None;
      var i := 0;
      while i < |branches.keys| && failure.None?
        invariant 0 <= i <= |branches.keys|
        invariant Valid() && Settled() && Disjoint()
        invariant out.Valid() && out.keys == branches.keys[..i]
        invariant forall n | n in out.entries :: Within(out.entries[n], components.entries.Keys)
        invariant failure.Some? ==> failure.value == KeyError || failure.value == BranchConnectionError
        decreases |branches.keys| - i, if failure.None? then 1 else 0
      {
        var step := LinkAt(i);
        if step.Err? {
          failure := Some(step.error);
        } else {
          PutWithin(branches.keys, out, i, step.value, components.entries.Keys);
          out := out.Put(branches.keys[i], step.value);
          assert branches.keys[..i + 1] == branches.keys[..i] + [branches.keys[i]];
          i := i + 1;
        }
      }
      if failure.Some? {
        r := Err(failure.value);
      } else {
        assert branches.keys[..i] == branches.keys;
        r := Ok(out);
      }
    }

    /**
     * The dependency map (Connections2Branches.py:80-85): every component
     * with adaptive ports, under its name, with their ids.
     */
    method Dependencies() returns (deps: PyDict<string, seq<string>>)
      requires components.Valid()
      ensures forall n :: n in deps.entries <==> n in components.entries && |AdaptiveIds(components.entries[n].ports)| > 0
      ensures forall n | n in deps.entries :: deps.entries[n] == AdaptiveIds(components.entries[n].ports)
    {
      var out: Dict<string, seq<string>> := Empty();
      var i := 0;
      while i < |components.keys|
        invariant 0 <= i <= |components.keys|
        invariant out.Valid()
        invariant forall n | n in out.entries ::
                    n in components.entries && |AdaptiveIds(components.entries[n].ports)| > 0 &&
                    out.entries[n] == AdaptiveIds(components.entries[n].ports)
        invariant forall j | 0 <= j < i ::
                    |AdaptiveIds(components.entries[components.keys[j]].ports)| > 0 ==> components.keys[j] in out.entries
      {
        var name := components.keys[i];
        var ids := AdaptiveIds(components.entries[name].ports);
        ghost var before := out.entries.Keys;
        if |ids| > 0 {
          out := out.Put(name, ids);
        }
        assert before <= out.entries.Keys;
        i := i + 1;
      }
      forall n | n in components.entries && |AdaptiveIds(components.entries[n].ports)| > 0 ensures n in out.entries {
        var j :| 0 <= j < |components.keys| && components.keys[j] == n;
      }
      deps := out;
    }

    /** What `build_branches` leaves in a branch: its sorted split and its loop-control rules. */
    ghost predicate Installed(name: string, b: Branch, s: Split)
      reads this`priorityRules, this`loopControlRules, b`fixedPorts, b`adaptivePorts, b`loopControlRules
    {
      && SortedBy(s, Split(b.fixedPorts, b.adaptivePorts), priorityRules)
      && (name in loopControlRules ==> b.loopControlRules == loopControlRules[name])
    }

    /**
     * The end of `build_branches` (Connections2Branches.py:121-126): every
     * branch receives the fixed and adaptive ports of its ordered split and,
     * when a rule names it, its loop-control rules; the ordered branches
     * become the calculation order.
     */
    method Install(ordered: PyDict<string, Split>)
      requires branches.Valid() && Distinct()
      requires forall n | n in branches.entries :: n in ordered.entries
      modifies Branches()`fixedPorts, Branches()`adaptivePorts, Branches()`loopControlRules, this`calculationOrder
      ensures calculationOrder == Some(ordered.keys)
      ensures forall n | n in branches.entries ::
                && branches.entries[n].fixedPorts == ordered.entries[n].fixed
                && branches.entries[n].adaptivePorts == ordered.entries[n].adaptive
                && branches.entries[n].loopControlRules
                   == if n in loopControlRules then loopControlRules[n] else old(branches.entries[n].loopControlRules)
    {
      var i := 0;
      while i < |branches.keys|
        invariant 0 <= i <= |branches.keys|
        invariant forall j | 0 <= j < |branches.keys| ::
                    var b := branches.entries[branches.keys[j]];
                    if j < i then
                      && b.fixedPorts == ordered.entries[branches.keys[j]].fixed
                      && b.adaptivePorts == ordered.entries[branches.keys[j]].adaptive
                      && b.loopControlRules
                         == if branches.keys[j] in loopControlRules then loopControlRules[branches.keys[j]] else old(b.loopControlRules)
                    else b.loopControlRules == old(b.loopControlRules)
      {
        var name := branches.keys[i];
        var b := branches.entries[name];
        b.SetFixedPorts(ordered.entries[name].fixed);
        b.SetAdaptivePorts(ordered.entries[name].adaptive);
        if name in loopControlRules {
          b.SetLoopControlRules(loopControlRules[name]);
        }
        i := i + 1;
      }
      forall n | n in branches.entries
        ensures && branches.entries[n].fixedPorts == ordered.entries[n].fixed
                && branches.entries[n].adaptivePorts == ordered.entries[n].adaptive
                && branches.entries[n].loopControlRules
                   == if n in loopControlRules then loopControlRules[n] else old(branches.entries[n].loopControlRules)
      {
        var j :| 0 <= j < |branches.keys| && branches.keys[j] == n;
      }
      calculationOrder := Some(ordered.keys);
    }

    /**
     * The steps of `build_branches` up to the calculation order
     * (Connections2Branches.py:16-119): the connections of every branch are
     * linked, a branch without a fixed part is a BranchConnectionError, the
     * adaptive parts are sorted by the priority rules and the branches are
     * ordered.  The dependency test never holds (`PrunedKeepsAll`), so the
     * order is the order in which the branches were added, and ordering
     * fails exactly when there are more than one more branches than
     * components.
     */
    method LinkAndOrder() returns (r: Result<PyDict<string, Split>>, ghost splits: Option<PyDict<string, Split>>)
      requires Valid() && Settled() && Disjoint() && Distinct()
      modifies Branches()`connected, Branches()`portsConnected, Branches()`unitPorts, Units()`branchId,
               PortResults(components)`branchId
      ensures Valid() && Settled() && Disjoint()
      ensures r.Err? ==> r.error == KeyError || r.error == BranchConnectionError
      ensures splits.None? ==> r.Err?
      ensures splits.Some? ==> && splits.value.keys == branches.keys
                               && forall n | n in splits.value.entries :: Within(splits.value.entries[n], components.entries.Keys)
      ensures splits.Some? ==> && (r.Ok? <==> && MissingFixed(branches.keys, splits.value.entries, |branches.keys|).None?
                                              && |branches.keys| <= |components.keys| + 1)
                               && (r.Err? ==> r.error == BranchConnectionError)
      ensures r.Ok? ==> && r.value.keys == branches.keys
                        && forall n | n in branches.entries ::
                             n in r.value.entries && SortedBy(splits.value.entries[n], r.value.entries[n], priorityRules)
    {
      // Linking changes no port's fixed status, so the dependency map is the same before it.
      var deps := Dependencies();
      var linked := LinkAll();
      if linked.Err? {
        r, splits := Err(linked.error), None;
      } else {
        splits := Some(linked.value);
        label arranging:
        r := Arrange(linked.value, priorityRules, components.keys, components.entries.Keys, deps);
        Untouched@arranging();
      }
    }

    /** The model keeps its invariants while only the branches' parts and rules change. */
    twostate lemma Reassigned()
      requires old(Valid() && Settled() && Disjoint())
      requires unchanged(this`components, this`branches, this`branchSet) && unchanged(settings) && unchanged(Units())
      requires unchanged(branchSet`connected, branchSet`portsConnected, branchSet`loopControlled, branchSet`unitPorts)
      requires unchanged(branchSet`calculated, branchSet`balance)
      ensures Valid() && Settled() && Disjoint()
    {
    }

    /**
     * `build_branches` (Connections2Branches.py:10-126): the steps of
     * `LinkAndOrder`, then every branch receives its sorted parts and its
     * loop-control rules, and the order is kept as the calculation order.
     * On an error the calculation order stays as it was.
     */
    method BuildBranches() returns (r: Result<()>, ghost splits: Option<PyDict<string, Split>>)
      requires Valid() && Settled() && Disjoint() && Distinct()
      modifies Branches()`connected, Branches()`portsConnected, Branches()`unitPorts, Units()`branchId,
               PortResults(components)`branchId, Branches()`fixedPorts, Branches()`adaptivePorts,
               Branches()`loopControlRules, this`calculationOrder
      ensures Valid() && Settled() && Disjoint()
      ensures r.Err? ==> (r.error == KeyError || r.error == BranchConnectionError) && calculationOrder == old(calculationOrder)
      ensures splits.None? ==> r.Err?
      ensures splits.Some? ==> && splits.value.keys == branches.keys
                               && forall n | n in splits.value.entries :: Within(splits.value.entries[n], components.entries.Keys)
      ensures splits.Some? ==> && (r.Ok? <==> && MissingFixed(branches.keys, splits.value.entries, |branches.keys|).None?
                                              && |branches.keys| <= |components.keys| + 1)
                               && (r.Err? ==> r.error == BranchConnectionError)
      ensures r.Ok? ==> calculationOrder == Some(branches.keys)
      ensures r.Ok? ==> forall n | n in branches.entries :: Installed(n, branches.entries[n], splits.value.entries[n])
    {
      var prepared;
      prepared, splits := LinkAndOrder();
      if prepared.Err? {
        r := Err(prepared.error);
      } else {
        InstallKeeping(prepared.value, splits.value);
        r := Ok(());
      }
    }

    /** `Install` seen from `BuildBranches`: the model keeps its invariants and every branch its sorted split. */
    method InstallKeeping(ordered: PyDict<string, Split>, ghost splits: PyDict<string, Split>)
      requires Valid() && Settled() && Disjoint() && Distinct()
      requires ordered.keys == branches.keys
      requires forall n | n in branches.entries :: n in ordered.entries && n in splits.entries
      requires forall n | n in branches.entries :: SortedBy(splits.entries[n], ordered.entries[n], priorityRules)
      modifies Branches()`fixedPorts, Branches()`adaptivePorts, Branches()`loopControlRules, this`calculationOrder
      ensures Valid() && Settled() && Disjoint()
      ensures calculationOrder == Some(branches.keys)
      ensures forall n | n in branches.entries :: Installed(n, branches.entries[n], splits.entries[n])
    {
      Install(ordered);
      Reassigned();
    }

    // ----- solve (ModelBase.py:580-651) -----

    /** The branches of the model. */
    ghost function Branches(): set<Branch>
      reads this`branches
    {
      branches.entries.Values
    }

    /** The components of the model. */
    ghost function Units(): set<Component>
      reads this`components
    {
      components.entries.Values
    }

    /** Every port some branch may change when it runs. */
    ghost function BranchPorts(): set<Port>
      reads this`branches, branches.entries.Values`unitPorts
    {
      set b, p | b in branches.entries.Values && p in b.unitPorts :: p
    }

    /** The ports of the model's components. */
    ghost function Ports(): set<Port>
      reads this`components, components.entries.Values`ports
    {
      set c, p | c in components.entries.Values && p in c.ports :: p
    }

    /** Every calculated branch is balanced within `absolute_model_error`. */
    ghost predicate Settled()
      reads this`branches, branches.entries.Values`calculated, branches.entries.Values`balance, settings`absoluteModelError
    {
      forall n | n in branches.entries ::
        branches.entries[n].calculated ==> Balanced(branches.entries[n].balance, settings.absoluteModelError)
    }

    /** Every branch is calculated. */
    ghost predicate AllDone()
      reads this`branches, branches.entries.Values`calculated
    {
      forall n | n in branches.entries :: branches.entries[n].calculated
    }

    /** `all(branch.calculated is True for branch in self.branches.values())`. */
    method AllCalculated() returns (all: bool)
      requires branches.Valid()
      ensures all <==> AllDone()
    {
      all := true;
      var i := 0;
      while i < |branches.keys|
        invariant 0 <= i <= |branches.keys|
        invariant all <==> forall j | 0 <= j < i :: branches.entries[branches.keys[j]].calculated
      {
        all := all && branches.entries[branches.keys[i]].calculated;
        i := i + 1;
      }
    }

    /** `Branch.run` seen from the model: the branch stays well formed and balanced when calculated. */
    static method RunOne(b: Branch, names0: seq<string>, runcount: nat, rerun0: bool) returns (r: Result<(bool, seq<string>, bool)>)
      requires b.Valid()
      modifies b`runcount, b`balance, b`trace, b`tempFixed, b`tempAdaptive, b`calculated, b`loopControlled,
               b.Units()`status, b.Units()`massFraction, b.Units()`buffers, b.Units()`storageLevel, b.Units()`loopControl,
               b.unitPorts`stream, b.unitPorts`pressure, b.unitPorts`temperature, b.unitPorts`pressureStatus,
               b.unitPorts`temperatureStatus, b.unitPorts`updatedFluid, b.unitPorts`massFractionStatus, b.unitPorts`massStreamStatus
      ensures b.Valid() && b.runcount == runcount
      ensures b.calculated ==> Balanced(b.balance, b.settings.absoluteModelError)
      ensures forall c: Component | old(allocated(c)) && old(c.Valid()) :: c.Valid()
    {
      ghost var attempts;
      r, attempts := b.Run(names0, runcount, rerun0);
      forall c: Component | old(allocated(c)) && old(c.Valid()) ensures c.Valid() {
        if c !in old(b.Units()) {
          assert c.loopControl == old(c.loopControl);
        }
      }
    }

    /**
     * One branch run inside `solve`: the model stays well formed, and every
     * calculated branch stays balanced.
     */
    method RunBranch(b: Branch, names0: seq<string>, runcount: nat, rerun0: bool) returns (r: Result<(bool, seq<string>, bool)>)
      requires Valid() && Settled() && b in Branches()
      modifies b`runcount, b`balance, b`trace, b`tempFixed, b`tempAdaptive, b`calculated, b`loopControlled,
               b.Units()`status, b.Units()`massFraction, b.Units()`buffers, b.Units()`storageLevel, b.Units()`loopControl,
               b.unitPorts`stream, b.unitPorts`pressure, b.unitPorts`temperature, b.unitPorts`pressureStatus,
               b.unitPorts`temperatureStatus, b.unitPorts`updatedFluid, b.unitPorts`massFractionStatus, b.unitPorts`massStreamStatus
      ensures Valid() && Settled()
      ensures b.runcount == runcount
    {
      LinkedValid(b, components);
      r := RunOne(b, names0, runcount, rerun0);
      StaysValid(b);
    }

    /**
     * The model stays well formed and settled when one of its branches
     * changed only itself and the bookkeeping-free fields of components, and
     * is still well formed and balanced when calculated.
     */
    twostate lemma StaysValid(b: Branch)
      requires old(Valid() && Settled()) && unchanged(this) && unchanged(settings) && b in branchSet && unchanged(b`connected)
      requires b.Valid() && (b.calculated ==> Balanced(b.balance, b.settings.absoluteModelError))
      requires forall c: Component | old(allocated(c)) && old(c.Valid()) :: c.Valid()
      requires forall c: Component | old(allocated(c)) :: c.ports == old(c.ports)
      requires forall b' | b' in branchSet && b' != b ::
                 unchanged(b'`connected, b'`portsConnected, b'`loopControlled, b'`unitPorts, b'`calculated, b'`balance)
      ensures Valid()
      ensures Settled()
    {
      forall c | c in components.entries.Values ensures c.Valid() {
        assert old(c.Valid());
      }
      forall b' | b' in branchSet ensures b'.Shaped() {
        if b' != b {
          assert old(b'.Shaped());
        }
      }
      forall n | n in branches.entries && branches.entries[n].calculated
        ensures Balanced(branches.entries[n].balance, settings.absoluteModelError)
      {
        if branches.entries[n] != b {
          assert old(branches.entries[n].calculated);
          assert old(Balanced(branches.entries[n].balance, settings.absoluteModelError));
        } else {
          assert b.settings == settings;
        }
      }
    }

    /** Every branch but the one named `keep` is marked uncalculated (ModelBase.py:620-626). */
    method Uncalculate(keep: string)
      requires Valid() && Settled()
      modifies Branches()`calculated
      ensures Valid() && Settled()
      ensures forall n | n in branches.entries ::
                branches.entries[n].calculated ==
                (old(branches.entries[n].calculated) && forall m | m in branches.entries && branches.entries[m] == branches.entries[n] :: m == keep)
    {
      var i := 0;
      while i < |branches.keys|
        invariant 0 <= i <= |branches.keys| && branches.Valid() && Settled()
        invariant forall n | n in branches.entries ::
                    branches.entries[n].calculated ==
                    (old(branches.entries[n].calculated) &&
                     forall m | m in branches.keys[..i] && branches.entries[m] == branches.entries[n] :: m == keep)
      {
        var n := branches.keys[i];
        if n != keep {
          branches.entries[n].calculated := false;
        }
        i := i + 1;
      }
    }


    /**
     * One name of the calculation order (ModelBase.py:609-626): a branch not
     * yet calculated runs, its loop-controlled components are collected, and
     * a reset marks every other branch uncalculated.  The last flag says
     * whether the pass ends here.
     */
    method Visit(name: string, runcount: nat, rerun0: bool, names0: seq<string>, controlled0: seq<string>)
      returns (r: Result<(bool, seq<string>, seq<string>, bool)>)
      requires Valid() && Settled()
      modifies Branches()`runcount, Branches()`balance, Branches()`trace, Branches()`tempFixed, Branches()`tempAdaptive,
               Branches()`calculated, Branches()`loopControlled,
               Units()`status, Units()`massFraction, Units()`buffers, Units()`storageLevel, Units()`loopControl,
               BranchPorts()`stream, BranchPorts()`pressure, BranchPorts()`temperature, BranchPorts()`pressureStatus,
               BranchPorts()`temperatureStatus, BranchPorts()`updatedFluid, BranchPorts()`massFractionStatus,
               BranchPorts()`massStreamStatus
      ensures Valid() && Settled()
      ensures name !in branches.entries ==> r == Err(KeyError)
      ensures r.Err? && name in branches.entries ==> !old(branches.entries[name].calculated)
      ensures r.Ok? ==> |r.value.2| >= |controlled0| && r.value.2[..|controlled0|] == controlled0
      ensures r.Ok? && old(branches.entries[name].calculated) ==> r.value == (rerun0, names0, controlled0, false)
    {
      if name !in branches.entries {
        r := Err(KeyError);
      } else {
        var b := branches.entries[name];
        if b.calculated {
          r := Ok((rerun0, names0, controlled0, false));
        } else {
          var run := RunBranch(b, names0, runcount, rerun0);
          if run.Err? {
            r := Err(run.error);
          } else {
            r := Ok((run.value.0, run.value.1, controlled0 + b.loopControlled, run.value.2));
            if run.value.2 {
              Uncalculate(name);
            }
          }
        }
      }
    }

    /**
     * One pass of `solve` over the calculation order (ModelBase.py:609-626):
     * it stops at the first error or at the first reset and returns the rerun
     * flag, the names handed between branches and the loop-controlled
     * components collected so far.
     */
    method Pass(order: seq<string>, runcount: nat, rerun0: bool, names0: seq<string>, controlled0: seq<string>)
      returns (r: Result<(bool, seq<string>, seq<string>)>)
      requires Valid() && Settled()
      modifies Branches()`runcount, Branches()`balance, Branches()`trace, Branches()`tempFixed, Branches()`tempAdaptive,
               Branches()`calculated, Branches()`loopControlled,
               Units()`status, Units()`massFraction, Units()`buffers, Units()`storageLevel, Units()`loopControl,
               BranchPorts()`stream, BranchPorts()`pressure, BranchPorts()`temperature, BranchPorts()`pressureStatus,
               BranchPorts()`temperatureStatus, BranchPorts()`updatedFluid, BranchPorts()`massFractionStatus,
               BranchPorts()`massStreamStatus
      ensures Valid() && Settled()
      ensures r.Ok? ==> |r.value.2| >= |controlled0| && r.value.2[..|controlled0|] == controlled0
    {
      var rerun, names, controlled := rerun0, names0, controlled0;
      var failure: Option<ErrorClass> := None;
      var i := 0;
      var stop := false;
      while i < |order| && !stop
        invariant 0 <= i <= |order|
        invariant Valid() && Settled()
        invariant |controlled| >= |controlled0| && controlled[..|controlled0|] == controlled0
      {
        var v := Visit(order[i], runcount, rerun, names, controlled);
        if v.Err? {
          failure := Some(v.error);
          stop := true;
        } else {
          assert controlled[..|controlled0|] == v.value.2[..|controlled|][..|controlled0|];
          rerun, names, controlled := v.value.0, v.value.1, v.value.2;
          stop := v.value.3;
        }
        i := i + 1;
      }
      r := if failure.Some? then Err(failure.value) else Ok((rerun, names, controlled));
    }

    /** Every branch is uncalculated and has no loop-controlled components. */
    ghost predicate BranchesReset()
      reads this`branches, branches.entries.Values`calculated, branches.entries.Values`loopControlled
    {
      forall n | n in branches.entries :: !branches.entries[n].calculated && branches.entries[n].loopControlled == []
    }

    /** Every mass port of the model has all four statuses calculated (1). */
    ghost predicate MassPortsCalculated()
      reads this`components, components.entries.Values`ports
      reads Ports()`pressureStatus, Ports()`temperatureStatus, Ports()`massFractionStatus, Ports()`massStreamStatus
    {
      forall p | p in Ports() && p.kind == MassPort ::
        p.pressureStatus == 1 && p.temperatureStatus == 1 && p.massFractionStatus == 1 && p.massStreamStatus == 1
    }

    /** Every named component is in the model and controls no port of its own any more. */
    ghost predicate Released(names: seq<string>)
      reads this`components, components.entries.Values`loopControl
    {
      forall n | n in names :: n in components.entries && components.entries[n].loopControl == None
    }

    /** Every branch's stream balance can be read and has an absolute value. */
    ghost predicate BalancesReadable()
      reads this`branches, branches.entries.Values`balance
    {
      forall n | n in branches.entries :: StreamBalance(branches.entries[n].balance).Ok?
    }

    /** The dictionary holds each component's status under its name, in the components' order. */
    ghost predicate StatusDict(d: Dict<string, int>)
      reads this`components, components.entries.Values`status
    {
      && d.keys == components.keys
      && d.entries.Keys == components.entries.Keys
      && forall n | n in components.entries :: d.entries[n] == components.entries[n].status
    }

    /** Every branch is marked uncalculated and forgets its loop-controlled components (ModelBase.py:629-631). */
    method ResetBranches()
      requires Valid()
      modifies Branches()`calculated, Branches()`loopControlled
      ensures Valid() && Settled()
      ensures BranchesReset()
    {
      var i := 0;
      while i < |branches.keys|
        invariant 0 <= i <= |branches.keys|
        invariant Valid()
        invariant forall j | 0 <= j < i ::
                    !branches.entries[branches.keys[j]].calculated && branches.entries[branches.keys[j]].loopControlled == []
      {
        ResetBranch(branches.entries[branches.keys[i]]);
        i := i + 1;
      }
    }

    /** One branch of `ResetBranches`. */
    method ResetBranch(b: Branch)
      requires Valid() && b in Branches()
      modifies b`calculated, b`loopControlled
      ensures Valid()
      ensures !b.calculated && b.loopControlled == []
    {
      LinkedValid(b, components);
      b.calculated := false;
      b.SetLoopControlledComponentsEmpty();
    }

    /**
     * `clear_controlled_active_port` on every named component, in order
     * (ModelBase.py:632-633); a name the model does not have is a KeyError.
     */
    method ClearControlled(names: seq<string>) returns (r: Result<()>)
      requires Valid()
      modifies Units()`loopControl
      ensures Valid()
      ensures old(BranchesReset()) ==> BranchesReset()
      ensures r.Ok? <==> forall n | n in names :: n in components.entries
      ensures r.Err? ==> r == Err(KeyError)
      ensures r.Ok? ==> Released(names)
    {
      var i := 0;
      while i < |names| && names[i] in components.entries
        invariant 0 <= i <= |names|
        invariant Valid()
        invariant forall j | 0 <= j < i :: names[j] in components.entries && components.entries[names[j]].loopControl == None
      {
        ClearOne(components.entries[names[i]]);
        i := i + 1;
      }
      r := if i < |names| then Err(KeyError) else Ok(());
    }

    /** One component of `ClearControlled`. */
    method ClearOne(c: Component)
      requires Valid() && c in Units()
      modifies c`loopControl
      ensures Valid()
      ensures c.loopControl == None
    {
      c.ClearControlledActivePort();
    }

    /** `set_status_calculated` on every port of every component (ModelBase.py:635-637). */
    method SetPortsCalculated()
      requires Valid()
      modifies Ports()`pressureStatus, Ports()`temperatureStatus, Ports()`massFractionStatus, Ports()`massStreamStatus
      ensures Valid()
      ensures old(BranchesReset()) ==> BranchesReset()
      ensures forall c | c in Units() :: c.loopControl == old(c.loopControl)
      ensures MassPortsCalculated()
      ensures forall p | p in Ports() && p.kind == EnergyPort ::
                && p.pressureStatus == old(p.pressureStatus) && p.temperatureStatus == old(p.temperatureStatus)
                && p.massFractionStatus == old(p.massFractionStatus) && p.massStreamStatus == old(p.massStreamStatus)
    {
      var i := 0;
      while i < |components.keys|
        invariant 0 <= i <= |components.keys|
        invariant forall j | 0 <= j < i :: MassCalculated(components.entries[components.keys[j]])
        invariant forall p | p in Ports() && p.kind == EnergyPort ::
                    && p.pressureStatus == old(p.pressureStatus) && p.temperatureStatus == old(p.temperatureStatus)
                    && p.massFractionStatus == old(p.massFractionStatus) && p.massStreamStatus == old(p.massStreamStatus)
      {
        CalculateComponent(i);
        i := i + 1;
      }
      forall p | p in Ports() && p.kind == MassPort
        ensures p.pressureStatus == 1 && p.temperatureStatus == 1 && p.massFractionStatus == 1 && p.massStreamStatus == 1
      {
        var c :| c in components.entries.Values && p in c.ports;
        var n :| n in components.entries && components.entries[n] == c;
        var j :| 0 <= j < |components.keys| && components.keys[j] == n;
        assert MassCalculated(components.entries[components.keys[j]]);
      }
    }

    /** Every mass port of the component has all four statuses calculated (1). */
    static ghost predicate MassCalculated(c: Component)
      reads c`ports, set p | p in c.ports :: p`pressureStatus, set p | p in c.ports :: p`temperatureStatus
      reads set p | p in c.ports :: p`massFractionStatus, set p | p in c.ports :: p`massStreamStatus
    {
      forall p | p in c.ports && p.kind == MassPort ::
        p.pressureStatus == 1 && p.temperatureStatus == 1 && p.massFractionStatus == 1 && p.massStreamStatus == 1
    }

    /** `set_status_calculated` on the ports of the `i`-th component, the components before it being done already. */
    method CalculateComponent(i: nat)
      requires components.Valid() && i < |components.keys|
      requires forall j | 0 <= j < i :: MassCalculated(components.entries[components.keys[j]])
      modifies Ports()`pressureStatus, Ports()`temperatureStatus, Ports()`massFractionStatus, Ports()`massStreamStatus
      ensures forall j | 0 <= j <= i :: MassCalculated(components.entries[components.keys[j]])
      ensures forall p | p in Ports() && p.kind == EnergyPort ::
                && p.pressureStatus == old(p.pressureStatus) && p.temperatureStatus == old(p.temperatureStatus)
                && p.massFractionStatus == old(p.massFractionStatus) && p.massStreamStatus == old(p.massStreamStatus)
    {
      var c := components.entries[components.keys[i]];
      assert c in components.entries.Values;
      SetCalculated(c.ports);
    }

    /** `set_status_calculated` on each of the ports. */
    static method SetCalculated(ports: seq<Port>)
      modifies set p | p in ports :: p`pressureStatus, set p | p in ports :: p`temperatureStatus
      modifies set p | p in ports :: p`massFractionStatus, set p | p in ports :: p`massStreamStatus
      ensures forall p | p in ports && p.kind == MassPort ::
                p.pressureStatus == 1 && p.temperatureStatus == 1 && p.massFractionStatus == 1 && p.massStreamStatus == 1
      ensures forall p | p in ports && p.kind == EnergyPort ::
                && p.pressureStatus == old(p.pressureStatus) && p.temperatureStatus == old(p.temperatureStatus)
                && p.massFractionStatus == old(p.massFractionStatus) && p.massStreamStatus == old(p.massStreamStatus)
    {
      var k := 0;
      while k < |ports|
        invariant 0 <= k <= |ports|
        invariant forall p | p in ports[..k] && p.kind == MassPort ::
                    p.pressureStatus == 1 && p.temperatureStatus == 1 && p.massFractionStatus == 1 && p.massStreamStatus == 1
        invariant forall p | p in ports && p.kind == EnergyPort ::
                    && p.pressureStatus == old(p.pressureStatus) && p.temperatureStatus == old(p.temperatureStatus)
                    && p.massFractionStatus == old(p.massFractionStatus) && p.massStreamStatus == old(p.massStreamStatus)
      {
        assert ports[..k + 1] == ports[..k] + [ports[k]];
        assert ports[k] in ports;
        ports[k].SetStatusCalculated();
        k := k + 1;
      }
      assert ports[..k] == ports;
    }

    /**
     * The integrity check of `solve` (ModelBase.py:640-644) over the named
     * branches, in order: every branch's stream balance is read and its
     * absolute value taken; a warning is only logged, but the first branch
     * without a balance or without a stream fails.
     */
    function CheckBalances(names: seq<string>): (r: Result<()>)
      requires forall n | n in names :: n in branches.entries
      reads this`branches, branches.entries.Values`balance
      ensures r.Ok? <==> forall n | n in names :: StreamBalance(branches.entries[n].balance).Ok?
      ensures r.Err? ==> exists n | n in names && StreamBalance(branches.entries[n].balance).Err? ::
                           r.error == StreamBalance(branches.entries[n].balance).error
    {
      if |names| == 0 then Ok(())
      else
        var first := StreamBalance(branches.entries[names[0]].balance);
        if first.Err? then Err(first.error) else CheckBalances(names[1..])
    }

    /** `{name: component.get_status()}` in the components' order (ModelBase.py:647-649). */
    method StatusOf() returns (d: Dict<string, int>)
      requires components.Valid()
      ensures StatusDict(d)
    {
      var collected: Dict<string, int> := Empty();
      var i := 0;
      while i < |components.keys|
        invariant 0 <= i <= |components.keys|
        invariant collected.keys == components.keys[..i]
        invariant collected.entries.Keys == set j | 0 <= j < i :: components.keys[j]
        invariant forall n | n in collected.entries :: collected.entries[n] == components.entries[n].status
      {
        var n := components.keys[i];
        assert n !in components.keys[..i];
        collected := collected.Put(n, components.entries[n].status);
        assert components.keys[..i + 1] == components.keys[..i] + [n];
        i := i + 1;
      }
      assert components.keys[..i] == components.keys;
      d := collected;
    }

    /**
     * The iteration of `solve` (ModelBase.py:604-626): passes over the
     * calculation order while some branch is not calculated and fewer than
     * `timeout_max` passes were made.  Before the branches are built there is
     * no calculation order, and the first pass fails with an AttributeError.
     * `settled` says whether every branch ended calculated, `passes` counts
     * the passes.
     */
    method Iterate(runcount: nat) returns (failure: Option<ErrorClass>, controlled: seq<string>, ghost settled: bool, ghost passes: nat)
      requires Valid() && Settled()
      modifies Branches()`runcount, Branches()`balance, Branches()`trace, Branches()`tempFixed, Branches()`tempAdaptive,
               Branches()`calculated, Branches()`loopControlled,
               Units()`status, Units()`massFraction, Units()`buffers, Units()`storageLevel, Units()`loopControl,
               BranchPorts()`stream, BranchPorts()`pressure, BranchPorts()`temperature, BranchPorts()`pressureStatus,
               BranchPorts()`temperatureStatus, BranchPorts()`updatedFluid, BranchPorts()`massFractionStatus,
               BranchPorts()`massStreamStatus
      ensures Valid() && Settled()
      ensures passes <= settings.timeoutMax || passes == 0
      ensures failure.None? ==> (settled <==> AllDone())
      ensures failure.None? && !settled ==> passes >= settings.timeoutMax
      ensures failure.None? && settled ==>
                forall n | n in branches.entries :: Balanced(branches.entries[n].balance, settings.absoluteModelError)
      ensures calculationOrder.None? ==> passes == 0 || failure == Some(AttributeError)
    {
      var rerun, names := false, [];
      controlled := [];
      failure := None;
      passes := 0;
      var timeout := 0;
      var all := AllCalculated();
      var timeoutMax := settings.timeoutMax;
      while !all && timeout < timeoutMax && failure.None?
        invariant Valid() && Settled()
        invariant settings.timeoutMax == timeoutMax
        invariant 0 <= timeout && passes == timeout
        invariant timeout <= timeoutMax || timeout == 0
        invariant failure.None? ==> (all <==> AllDone())
        invariant calculationOrder.None? ==> timeout == 0 || failure == Some(AttributeError)
        decreases timeoutMax - timeout
      {
        timeout := timeout + 1;
        passes := timeout;
        failure, rerun, names, controlled, all := Round(runcount, rerun, names, controlled);
      }
      settled := all;
    }

    /**
     * One pass of the iteration of `solve`, followed by the test of whether
     * every branch is calculated.
     */
    method Round(runcount: nat, rerun0: bool, names0: seq<string>, controlled0: seq<string>)
      returns (failure: Option<ErrorClass>, rerun: bool, names: seq<string>, controlled: seq<string>, all: bool)
      requires Valid() && Settled()
      modifies Branches()`runcount, Branches()`balance, Branches()`trace, Branches()`tempFixed, Branches()`tempAdaptive,
               Branches()`calculated, Branches()`loopControlled,
               Units()`status, Units()`massFraction, Units()`buffers, Units()`storageLevel, Units()`loopControl,
               BranchPorts()`stream, BranchPorts()`pressure, BranchPorts()`temperature, BranchPorts()`pressureStatus,
               BranchPorts()`temperatureStatus, BranchPorts()`updatedFluid, BranchPorts()`massFractionStatus,
               BranchPorts()`massStreamStatus
      ensures Valid() && Settled()
      ensures failure.None? ==> (all <==> AllDone())
      ensures calculationOrder.None? ==> failure == Some(AttributeError)
    {
      rerun, names, controlled := rerun0, names0, controlled0;
      failure := None;
      if calculationOrder.None? {
        failure := Some(AttributeError);
      } else {
        var p := Pass(calculationOrder.value, runcount, rerun, names, controlled);
        if p.Err? {
          failure := Some(p.error);
        } else {
          rerun, names, controlled := p.value.0, p.value.1, p.value.2;
        }
      }
      all := AllCalculated();
    }

    /** `self.status = d`: nothing the other steps of `solve` established changes. */
    method SetStatus(d: Dict<string, int>, ghost controlled: seq<string>)
      requires Valid()
      modifies this`status
      ensures status == d
      ensures Valid()
      ensures old(Settled()) ==> Settled()
      ensures old(BranchesReset()) ==> BranchesReset()
      ensures old(MassPortsCalculated()) ==> MassPortsCalculated()
      ensures old(Released(controlled)) ==> Released(controlled)
      ensures old(BalancesReadable()) ==> BalancesReadable()
      ensures old(StatusDict(d)) ==> StatusDict(status)
    {
      status := d;
    }

    /**
     * The first half of the end of `solve` (ModelBase.py:629-633): every
     * branch is reset and the collected components give up their loop
     * control.
     */
    method Release(controlled: seq<string>) returns (r: Result<()>)
      requires Valid()
      modifies Branches()`calculated, Branches()`loopControlled, Units()`loopControl
      ensures Valid() && Settled() && BranchesReset()
      ensures r.Ok? <==> forall n | n in controlled :: n in components.entries
      ensures r.Err? ==> r == Err(KeyError)
      ensures r.Ok? ==> Released(controlled)
    {
      ResetBranches();
      r := ClearControlled(controlled);
    }

    /**
     * The second half of the end of `solve` (ModelBase.py:635-651): every
     * port is marked calculated, the balances are checked and the
     * components' statuses are collected; `solve` returns 0.
     */
    method Finish(ghost controlled: seq<string>) returns (r: Result<int>)
      requires Valid()
      modifies Ports()`pressureStatus, Ports()`temperatureStatus, Ports()`massFractionStatus, Ports()`massStreamStatus,
               this`status
      ensures Valid()
      ensures old(BranchesReset()) ==> BranchesReset()
      ensures old(Released(controlled)) ==> Released(controlled)
      ensures r.Ok? <==> BalancesReadable()
      ensures r.Ok? ==> r.value == 0 && MassPortsCalculated() && StatusDict(status)
    {
      SetPortsCalculated();
      var checked := CheckBalances(branches.keys);
      if checked.Err? {
        r := Err(checked.error);
      } else {
        Collect(controlled);
        r := Ok(0);
      }
    }

    /** The components' statuses collected into the model's status (ModelBase.py:647-649). */
    method Collect(ghost controlled: seq<string>)
      requires Valid()
      modifies this`status
      ensures Valid() && StatusDict(status)
      ensures old(BranchesReset()) ==> BranchesReset()
      ensures old(MassPortsCalculated()) ==> MassPortsCalculated()
      ensures old(Released(controlled)) ==> Released(controlled)
      ensures old(BalancesReadable()) ==> BalancesReadable()
    {
      var d := StatusOf();
      SetStatus(d, controlled);
    }

    /**
     * The end of `solve` (ModelBase.py:628-651): every branch is reset, the
     * collected components give up their loop control, every port is marked
     * calculated, the balances are checked and the components' statuses are
     * collected; `solve` returns 0.
     */
    method Cleanup(controlled: seq<string>) returns (r: Result<int>)
      requires Valid()
      modifies Branches()`calculated, Branches()`loopControlled, Units()`loopControl,
               Ports()`pressureStatus, Ports()`temperatureStatus, Ports()`massFractionStatus, Ports()`massStreamStatus,
               this`status
      ensures Valid() && Settled()
      ensures BranchesReset()
      ensures (exists n | n in controlled :: n !in components.entries) ==> r == Err(KeyError)
      ensures r.Ok? <==> && (forall n | n in controlled :: n in components.entries)
                         && BalancesReadable()
      ensures r.Ok? ==> && r.value == 0
                        && Released(controlled)
                        && MassPortsCalculated()
                        && StatusDict(status)
    {
      var released := Release(controlled);
      if released.Err? {
        return Err(KeyError);
      }
      r := Finish(controlled);
    }

    /**
     * `solve` for one time step: a model without a time resolution is a
     * ModelError; otherwise the branches are iterated and the model cleaned
     * up.  When every branch ended calculated, every branch is balanced
     * within `absolute_model_error`, and then the integrity check passes.
     */
    method Solve(runcount: nat) returns (r: Result<int>, ghost settled: bool, ghost passes: nat)
      requires Valid() && Settled()
      modifies Branches()`runcount, Branches()`balance, Branches()`trace, Branches()`tempFixed, Branches()`tempAdaptive,
               Branches()`calculated, Branches()`loopControlled,
               Units()`status, Units()`massFraction, Units()`buffers, Units()`storageLevel, Units()`loopControl,
               BranchPorts()`stream, BranchPorts()`pressure, BranchPorts()`temperature, BranchPorts()`pressureStatus,
               BranchPorts()`temperatureStatus, BranchPorts()`updatedFluid, BranchPorts()`massFractionStatus,
               BranchPorts()`massStreamStatus,
               Ports()`pressureStatus, Ports()`temperatureStatus, Ports()`massFractionStatus, Ports()`massStreamStatus,
               this`status
      ensures Valid() && Settled()
      ensures settings.timeResolution.None? ==> r == Err(ModelError)
      ensures r.Ok? ==> r.value == 0 && (settled || passes >= settings.timeoutMax)
      ensures r.Ok? && settled ==>
                forall n | n in branches.entries :: Balanced(branches.entries[n].balance, settings.absoluteModelError)
      ensures r.Ok? ==> BranchesReset()
      ensures r.Ok? ==> MassPortsCalculated()
      ensures r.Ok? ==> StatusDict(status)
    {
      if settings.timeResolution.None? {
        return Err(ModelError), false, 0;
      }
      var failure, controlled;
      failure, controlled, settled, passes := Iterate(runcount);
      if failure.Some? {
        return Err(failure.value), settled, passes;
      }
      r := Cleanup(controlled);
    }

    // ----- run (ModelBase.py:536-578) -----

    /**
     * No port is shared: component names name different components, a port
     * belongs to one component at one position, and different ports keep
     * different result records (each component creates its own ports).
     */
    ghost predicate Disjoint()
      reads this`components, components.entries.Values`ports
    {
      && (forall m, n | m in components.entries && n in components.entries && m != n ::
            components.entries[m] != components.entries[n])
      && (forall c, d, p | c in Units() && d in Units() && p in c.ports && p in d.ports :: c == d)
      && (forall c, i, j | c in Units() && 0 <= i < j < |c.ports| :: c.ports[i] != c.ports[j])
      && (forall p, q | p in Ports() && q in Ports() && p != q :: p.results != q.results)
    }

    /** The result records of the model's ports. */
    ghost function Results(): set<PortResult>
      reads this`components, components.entries.Values`ports
    {
      set p | p in Ports() :: p.results
    }

    /**
     * Every component has `k` entries in its status history, and every port
     * of the model is well formed and has `k` entries in its stream history.
     */
    ghost predicate Recorded(k: nat)
      reads this`components, components.entries.Values`ports, components.entries.Values`statusHistory
      reads Ports()`splitInto, Ports()`splitOut, Ports()`maxInto, Ports()`maxOut
      reads Results()`streamHistory, Results()`pressureHistory, Results()`temperatureHistory, Results()`massFractionHistory
    {
      && (forall c | c in Units() :: |c.statusHistory| == k)
      && (forall p | p in Ports() :: p.Valid() && |p.results.streamHistory.value| == k)
    }

    /** Within one component, different positions hold different ports with different result records. */
    lemma ApartWithin(c: Component)
      requires Disjoint() && c in Units()
      ensures forall i, j | 0 <= i < j < |c.ports| :: c.ports[i] != c.ports[j] && c.ports[i].results != c.ports[j].results
    {
      forall i, j | 0 <= i < j < |c.ports| ensures c.ports[i] != c.ports[j] && c.ports[i].results != c.ports[j].results {
        assert c.ports[i] in c.ports && c.ports[j] in c.ports;
      }
    }

    /** Two different components share no port and no result record. */
    lemma Apart(c: Component, d: Component)
      requires Disjoint() && c in Units() && d in Units() && c != d
      ensures forall p, q | p in c.ports && q in d.ports :: p != q && p.results != q.results
    {
      forall p, q | p in c.ports && q in d.ports ensures p != q && p.results != q.results {
        assert p in c.ports && q in d.ports;
      }
    }

    /**
     * The component has `k` entries in its status history, and every port of
     * it is well formed and has `k` entries in its stream history.
     */
    static ghost predicate Saved(c: Component, k: nat)
      reads c`ports, c`statusHistory, set p | p in c.ports :: p`splitInto, set p | p in c.ports :: p`splitOut
      reads set p | p in c.ports :: p`maxInto, set p | p in c.ports :: p`maxOut
      reads set p | p in c.ports :: p.results`streamHistory, set p | p in c.ports :: p.results`pressureHistory
      reads set p | p in c.ports :: p.results`temperatureHistory, set p | p in c.ports :: p.results`massFractionHistory
    {
      |c.statusHistory| == k && forall p | p in c.ports :: p.Valid() && |p.results.streamHistory.value| == k
    }

    /** Every port recorded `k` entries exactly when every component's ports did. */
    lemma RecordedSaved(k: nat)
      requires components.Valid() && Recorded(k)
      ensures forall j | 0 <= j < |components.keys| :: Saved(components.entries[components.keys[j]], k)
    {
      forall j | 0 <= j < |components.keys| ensures Saved(components.entries[components.keys[j]], k) {
        var c := components.entries[components.keys[j]];
        assert c in Units();
        forall p | p in c.ports ensures p.Valid() && |p.results.streamHistory.value| == k {
          assert p in Ports();
        }
      }
    }

    /** The converse of `RecordedSaved`. */
    lemma SavedRecorded(k: nat)
      requires components.Valid()
      requires forall j | 0 <= j < |components.keys| :: Saved(components.entries[components.keys[j]], k)
      ensures Recorded(k)
    {
      forall c | c in Units() ensures |c.statusHistory| == k {
        var n :| n in components.entries && components.entries[n] == c;
        var j :| 0 <= j < |components.keys| && components.keys[j] == n;
        assert Saved(components.entries[components.keys[j]], k);
      }
      forall p | p in Ports() ensures p.Valid() && |p.results.streamHistory.value| == k {
        var c :| c in components.entries.Values && p in c.ports;
        var n :| n in components.entries && components.entries[n] == c;
        var j :| 0 <= j < |components.keys| && components.keys[j] == n;
        assert Saved(components.entries[components.keys[j]], k);
      }
    }

    /** `m` holds the current streams of every component's ports, in port order, under the component's name. */
    ghost predicate Current(m: map<string, seq<Option<real>>>)
      reads this`components, components.entries.Values`ports, Ports()`stream
    {
      forall n | n in components.entries ::
        && n in m
        && var c := components.entries[n];
           assert c in Units() && forall p | p in c.ports :: p in Ports();
           StreamsAre(c.ports, m[n])
    }

    /** `s` lists the current streams of `ports`, in order. */
    static ghost predicate StreamsAre(ports: seq<Port>, s: seq<Option<real>>)
      reads ports`stream
    {
      |s| == |ports| && forall j | 0 <= j < |ports| :: s[j] == ports[j].stream
    }

    /** The current streams of every component's ports, in port order, under the component's name. */
    ghost function CurrentStreams(): (m: map<string, seq<Option<real>>>)
      reads this`components, components.entries.Values`ports, Ports()`stream
      ensures m.Keys == components.entries.Keys && Current(m)
    {
      map n | n in components.entries ::
        var c := components.entries[n];
        assert c in Units() && forall p | p in c.ports :: p in Ports();
        StreamsOf(c.ports)
    }

    /**
     * Entry `i` of the component's status history is its status in
     * `statuses[i]`, where it is filed under `name`, and entry `i` of the
     * stream history of its `j`-th port is that port's stream in
     * `streams[i]`, filed under `name` at position `j`.
     */
    static ghost predicate UnitLogged(c: Component, name: string, statuses: seq<Dict<string, int>>,
                                      streams: seq<map<string, seq<Option<real>>>>)
      reads c`statusHistory, c`ports, set p | p in c.ports :: p.results`streamHistory
    {
      && |c.statusHistory| == |statuses|
      && (forall i | 0 <= i < |statuses| :: name in statuses[i].entries && c.statusHistory[i] == statuses[i].entries[name])
      && (forall i | 0 <= i < |streams| :: name in streams[i] && |streams[i][name]| == |c.ports|)
      && forall j | 0 <= j < |c.ports| ::
           && c.ports[j].results.streamHistory.Some? && |c.ports[j].results.streamHistory.value| == |streams|
           && forall i | 0 <= i < |streams| :: c.ports[j].results.streamHistory.value[i] == streams[i][name][j]
    }

    /**
     * The histories of the model hold one entry per step of `statuses` and
     * `streams`: every component's status history lists its status in each
     * step's collected statuses, and every port's stream history its stream
     * in each step.
     */
    ghost predicate Logged(statuses: seq<Dict<string, int>>, streams: seq<map<string, seq<Option<real>>>>)
      reads this`components, components.entries.Values`ports, components.entries.Values`statusHistory, Results()`streamHistory
    {
      && |streams| == |statuses|
      && forall n {:trigger UnitLogged(components.entries[n], n, statuses, streams)} | n in components.entries ::
           UnitLogged(components.entries[n], n, statuses, streams)
    }

    /**
     * The components before the `i`-th in `keys` are logged for the steps of
     * `statuses'` and `streams'`, the others for those of `statuses` and `streams`.
     */
    ghost predicate LoggedBefore(i: nat, statuses: seq<Dict<string, int>>, streams: seq<map<string, seq<Option<real>>>>,
                                 statuses': seq<Dict<string, int>>, streams': seq<map<string, seq<Option<real>>>>)
      reads this`components, components.entries.Values`ports, components.entries.Values`statusHistory, Results()`streamHistory
    {
      && components.Valid() && i <= |components.keys|
      && (forall j | 0 <= j < i ::
            UnitLogged(components.entries[components.keys[j]], components.keys[j], statuses', streams'))
      && (forall j | i <= j < |components.keys| ::
            UnitLogged(components.entries[components.keys[j]], components.keys[j], statuses, streams))
    }

    /** Before the first step every history is empty. */
    lemma LoggedEmpty()
      requires Recorded(0)
      ensures Logged([], [])
    {
      forall n | n in components.entries ensures UnitLogged(components.entries[n], n, [], []) {
        var c := components.entries[n];
        assert c in Units();
        forall j | 0 <= j < |c.ports|
          ensures c.ports[j].results.streamHistory.Some? && |c.ports[j].results.streamHistory.value| == 0
        {
          var p := c.ports[j];
          assert p in c.ports;
          assert p in Ports();
        }
      }
    }

    /** A component none of whose status or stream histories changed stays logged. */
    static twostate lemma UnitLoggedKept(c: Component, new name: string, new statuses: seq<Dict<string, int>>,
                                         new streams: seq<map<string, seq<Option<real>>>>)
      requires old(allocated(name) && allocated(statuses) && allocated(streams))
      requires old(UnitLogged(c, name, statuses, streams)) && Unaltered(c)
      ensures UnitLogged(c, name, statuses, streams)
    {
    }

    /**
     * A component whose status and stream histories each gained the current
     * value is logged for one more step, whose statuses `d` file its status
     * under its name and whose streams `m` its ports' streams.
     */
    static twostate lemma UnitLoggedAppend(c: Component, new name: string, new statuses: seq<Dict<string, int>>,
                                           new streams: seq<map<string, seq<Option<real>>>>, new d: Dict<string, int>,
                                           new m: map<string, seq<Option<real>>>)
      requires old(allocated(name) && allocated(statuses) && allocated(streams))
      requires old(UnitLogged(c, name, statuses, streams)) && Appended(c)
      requires name in d.entries && d.entries[name] == c.status
      requires name in m && StreamsAre(c.ports, m[name])
      ensures UnitLogged(c, name, statuses + [d], streams + [m])
    {
      forall i | 0 <= i < |statuses| + 1
        ensures name in (statuses + [d])[i].entries && c.statusHistory[i] == (statuses + [d])[i].entries[name]
      {
        if i < |statuses| {
          assert c.statusHistory[i] == old(c.statusHistory)[i];
        }
      }
      forall j | 0 <= j < |c.ports|
        ensures && c.ports[j].results.streamHistory.Some? && |c.ports[j].results.streamHistory.value| == |streams| + 1
                && forall i | 0 <= i < |streams| + 1 :: c.ports[j].results.streamHistory.value[i] == (streams + [m])[i][name][j]
      {
        var p := c.ports[j];
        assert p in c.ports;
        forall i | 0 <= i < |streams| + 1 ensures p.results.streamHistory.value[i] == (streams + [m])[i][name][j] {
          if i < |streams| {
            assert p.results.streamHistory.value[i] == old(p.results.streamHistory).value[i];
          }
        }
      }
    }

    /** `reset_history` on each of the ports. */
    static method ResetPorts(ports: seq<Port>)
      requires forall p, q | p in ports && q in ports && p != q :: p.results != q.results
      modifies set p | p in ports :: p`splitInto, set p | p in ports :: p`splitOut
      modifies set p | p in ports :: p`maxInto, set p | p in ports :: p`maxOut
      modifies set p | p in ports :: p.results`streamHistory, set p | p in ports :: p.results`pressureHistory
      modifies set p | p in ports :: p.results`temperatureHistory, set p | p in ports :: p.results`massFractionHistory
      modifies set p | p in ports :: p`pressureStatus, set p | p in ports :: p`temperatureStatus
      modifies set p | p in ports :: p`massFractionStatus, set p | p in ports :: p`massStreamStatus
      ensures forall p | p in ports :: p.Valid() && p.results.streamHistory == Some([])
    {
      var k := 0;
      while k < |ports|
        invariant 0 <= k <= |ports|
        invariant forall p | p in ports[..k] :: p.Valid() && p.results.streamHistory == Some([])
      {
        assert ports[..k + 1] == ports[..k] + [ports[k]];
        assert ports[k] in ports;
        ports[k].ResetHistory();
        k := k + 1;
      }
      assert ports[..k] == ports;
    }

    /** `save_state` on one port: no other port with its own result record is affected. */
    static method SaveOne(q: Port)
      requires q.Valid()
      modifies q`splitInto, q`splitOut, q`maxInto, q`maxOut,
               q.results`streamHistory, q.results`pressureHistory, q.results`temperatureHistory, q.results`massFractionHistory
      ensures q.Valid() && q.results.streamHistory == Some(old(q.results.streamHistory.value) + [q.stream])
      ensures forall p: Port | old(allocated(p)) && p != q && p.results != q.results && old(p.Valid()) ::
                p.Valid() && p.results.streamHistory == old(p.results.streamHistory)
    {
      q.SaveState();
    }

    /**
     * `save_state` on each of the ports: the stream history of each port,
     * `before[p]` beforehand, gains the port's current stream as its last entry.
     */
    static method SavePorts(ports: seq<Port>, ghost before: map<Port, seq<Option<real>>>)
      requires forall i, j | 0 <= i < j < |ports| :: ports[i] != ports[j] && ports[i].results != ports[j].results
      requires forall p | p in ports :: p.Valid() && p in before && p.results.streamHistory == Some(before[p])
      modifies set p | p in ports :: p`splitInto, set p | p in ports :: p`splitOut
      modifies set p | p in ports :: p`maxInto, set p | p in ports :: p`maxOut
      modifies set p | p in ports :: p.results`streamHistory, set p | p in ports :: p.results`pressureHistory
      modifies set p | p in ports :: p.results`temperatureHistory, set p | p in ports :: p.results`massFractionHistory
      ensures forall p | p in ports :: p.Valid() && p.results.streamHistory == Some(before[p] + [p.stream])
      ensures forall p: Port | old(allocated(p)) && p !in ports && (forall q | q in ports :: q.results != p.results) && old(p.Valid()) ::
                p.Valid() && p.results.streamHistory == old(p.results.streamHistory)
    {
      var i := 0;
      while i < |ports|
        invariant 0 <= i <= |ports|
        invariant forall j | 0 <= j < i :: ports[j].Valid() && ports[j].results.streamHistory == Some(before[ports[j]] + [ports[j].stream])
        invariant forall j | i <= j < |ports| :: ports[j].Valid() && ports[j].results.streamHistory == Some(before[ports[j]])
      {
        assert ports[i] in ports;
        SaveOne(ports[i]);
        i := i + 1;
      }
      forall p | p in ports ensures p.Valid() && p.results.streamHistory == Some(before[p] + [p.stream]) {
        var j :| 0 <= j < |ports| && ports[j] == p;
      }
    }

    /**
     * `_reset_component_history` and `_reset_port_history` of every component
     * (ModelBase.py:545-547): every component's status and storage level
     * histories and every port's history start empty.
     */
    method ResetAll()
      requires components.Valid() && Disjoint()
      modifies Ports()`splitInto, Ports()`splitOut, Ports()`maxInto, Ports()`maxOut
      modifies Results()`streamHistory, Results()`pressureHistory, Results()`temperatureHistory, Results()`massFractionHistory
      modifies Units()`statusHistory, Units()`storageLevel
      modifies Ports()`pressureStatus, Ports()`temperatureStatus, Ports()`massFractionStatus, Ports()`massStreamStatus
      ensures Recorded(0) && forall c | c in Units() :: c.storageLevel == []
    {
      var i := 0;
      while i < |components.keys|
        invariant 0 <= i <= |components.keys|
        invariant forall j | 0 <= j < i ::
                    Saved(components.entries[components.keys[j]], 0) && components.entries[components.keys[j]].storageLevel == []
      {
        ResetComponent(i);
        i := i + 1;
      }
      SavedRecorded(0);
      forall c | c in Units() ensures c.storageLevel == [] {
        var n :| n in components.entries && components.entries[n] == c;
        var j :| 0 <= j < |components.keys| && components.keys[j] == n;
      }
    }

    /**
     * `_reset_component_history` and then `reset_history` on the ports of the
     * `i`-th component, the components before it being reset already.
     */
    method ResetComponent(i: nat)
      requires components.Valid() && Disjoint() && i < |components.keys|
      requires forall j | 0 <= j < i ::
                 Saved(components.entries[components.keys[j]], 0) && components.entries[components.keys[j]].storageLevel == []
      modifies Ports()`splitInto, Ports()`splitOut, Ports()`maxInto, Ports()`maxOut
      modifies Results()`streamHistory, Results()`pressureHistory, Results()`temperatureHistory, Results()`massFractionHistory
      modifies Units()`statusHistory, Units()`storageLevel
      modifies Ports()`pressureStatus, Ports()`temperatureStatus, Ports()`massFractionStatus, Ports()`massStreamStatus
      ensures forall j | 0 <= j <= i ::
                Saved(components.entries[components.keys[j]], 0) && components.entries[components.keys[j]].storageLevel == []
    {
      var c := components.entries[components.keys[i]];
      assert c in Units();
      c.ResetHistory();
      ApartWithin(c);
      forall j | 0 <= j < i
        ensures forall p, q | p in components.entries[components.keys[j]].ports && q in c.ports ::
                  p != q && p.results != q.results
      {
        Apart(components.entries[components.keys[j]], c);
      }
      ResetPorts(c.ports);
    }

    /**
     * `component.save_state()` and `port.save_state()` for every port of
     * every component, in order (ModelBase.py:573-576): every component's
     * status history gains its current status, as collected in `status`, and
     * every port's stream history its current stream.
     */
    method SaveAll(ghost k: nat, ghost statuses: seq<Dict<string, int>>, ghost streams: seq<map<string, seq<Option<real>>>>,
                   ghost m: map<string, seq<Option<real>>>)
      requires components.Valid() && Disjoint() && Recorded(k) && StatusDict(status) && Current(m) && Logged(statuses, streams)
      modifies Ports()`splitInto, Ports()`splitOut, Ports()`maxInto, Ports()`maxOut
      modifies Results()`streamHistory, Results()`pressureHistory, Results()`temperatureHistory, Results()`massFractionHistory
      modifies Units()`statusHistory
      ensures Recorded(k + 1) && StatusDict(status) && Current(m) && Logged(statuses + [status], streams + [m])
    {
      RecordedSaved(k);
      ghost var statuses', streams' := statuses + [status], streams + [m];
      forall j | 0 <= j < |components.keys|
        ensures UnitLogged(components.entries[components.keys[j]], components.keys[j], statuses, streams)
      {
        assert components.keys[j] in components.entries;
      }
      var i := 0;
      while i < |components.keys|
        invariant 0 <= i <= |components.keys|
        invariant StatusDict(status) && Current(m)
        invariant forall j | 0 <= j < |components.keys| :: Saved(components.entries[components.keys[j]], if j < i then k + 1 else k)
        invariant LoggedBefore(i, statuses, streams, statuses', streams')
      {
        SaveNext(i, k, statuses, streams, statuses', streams', m);
        i := i + 1;
      }
      SavedRecorded(k + 1);
      forall n | n in components.entries ensures UnitLogged(components.entries[n], n, statuses', streams') {
        var j :| 0 <= j < |components.keys| && components.keys[j] == n;
      }
    }

    /**
     * One pass of the loop of `save_state`: the `i`-th component and its
     * ports are saved, and the log records it.
     */
    method SaveNext(i: nat, ghost k: nat, ghost statuses: seq<Dict<string, int>>, ghost streams: seq<map<string, seq<Option<real>>>>,
                    ghost statuses': seq<Dict<string, int>>, ghost streams': seq<map<string, seq<Option<real>>>>,
                    ghost m: map<string, seq<Option<real>>>)
      requires components.Valid() && Disjoint() && i < |components.keys|
      requires statuses' == statuses + [status] && streams' == streams + [m] && StatusDict(status) && Current(m)
      requires forall j | 0 <= j < |components.keys| :: Saved(components.entries[components.keys[j]], if j < i then k + 1 else k)
      requires LoggedBefore(i, statuses, streams, statuses', streams')
      modifies Ports()`splitInto, Ports()`splitOut, Ports()`maxInto, Ports()`maxOut
      modifies Results()`streamHistory, Results()`pressureHistory, Results()`temperatureHistory, Results()`massFractionHistory
      modifies Units()`statusHistory
      ensures StatusDict(status) && Current(m)
      ensures forall j | 0 <= j < |components.keys| :: Saved(components.entries[components.keys[j]], if j <= i then k + 1 else k)
      ensures LoggedBefore(i + 1, statuses, streams, statuses', streams')
    {
      SaveComponent(i, k);
      CurrentKept(m);
      LoggedComponent(i, statuses, streams, statuses', streams', m);
    }

    /**
     * `save_state` on the `i`-th component and then on its ports, the
     * components before it being saved already: its status history gains its
     * current status and each of its ports' stream histories the port's
     * current stream, and no other component's histories change.
     */
    method SaveComponent(i: nat, ghost k: nat)
      requires components.Valid() && Disjoint() && i < |components.keys|
      requires forall j | 0 <= j < |components.keys| :: Saved(components.entries[components.keys[j]], if j < i then k + 1 else k)
      modifies Ports()`splitInto, Ports()`splitOut, Ports()`maxInto, Ports()`maxOut
      modifies Results()`streamHistory, Results()`pressureHistory, Results()`temperatureHistory, Results()`massFractionHistory
      modifies Units()`statusHistory
      ensures forall j | 0 <= j < |components.keys| :: Saved(components.entries[components.keys[j]], if j <= i then k + 1 else k)
      ensures Appended(components.entries[components.keys[i]])
      ensures forall j | 0 <= j < |components.keys| && j != i :: Unaltered(components.entries[components.keys[j]])
    {
      var c := components.entries[components.keys[i]];
      assert c in Units();
      ApartWithin(c);
      forall j | 0 <= j < |components.keys| && j != i
        ensures components.entries[components.keys[j]] != c
        ensures forall p, q | p in components.entries[components.keys[j]].ports && q in c.ports ::
                  p != q && p.results != q.results
      {
        Apart(components.entries[components.keys[j]], c);
      }
      SaveUnit(c, k);
      forall j | 0 <= j < |components.keys| && j != i
        ensures Saved(components.entries[components.keys[j]], if j < i then k + 1 else k)
        ensures Unaltered(components.entries[components.keys[j]])
      {
        var d := components.entries[components.keys[j]];
        assert d in Units();
        forall p | p in d.ports ensures p.Valid() && p.results.streamHistory == old(p.results.streamHistory) {
          assert p in old(d.ports);
        }
      }
    }

    /** The status history of `c` gained its status and each port's stream history the port's stream. */
    static twostate predicate Appended(c: Component)
      reads c`statusHistory, c`ports, c`status, set p | p in c.ports :: p`stream, set p | p in c.ports :: p.results`streamHistory
    {
      && Still(c)
      && c.statusHistory == old(c.statusHistory) + [c.status]
      && forall p | p in c.ports :: old(p.results.streamHistory).Some? &&
                                    p.results.streamHistory == Some(old(p.results.streamHistory).value + [p.stream])
    }

    /** Neither the status history of `c` nor the stream history of any of its ports changed. */
    static twostate predicate Unaltered(c: Component)
      reads c`statusHistory, c`ports, c`status, set p | p in c.ports :: p`stream, set p | p in c.ports :: p.results`streamHistory
    {
      && Still(c) && unchanged(c`statusHistory)
      && forall p | p in c.ports :: p.results.streamHistory == old(p.results.streamHistory)
    }

    /** The ports and the status of `c` and the streams of its ports are as they were. */
    static twostate predicate Still(c: Component)
      reads c`ports, c`status, set p | p in c.ports :: p`stream
    {
      unchanged(c`ports, c`status) && forall p | p in c.ports :: unchanged(p`stream)
    }

    /** The statuses of the components and the streams of their ports are as they were. */
    twostate lemma CurrentKept(m: map<string, seq<Option<real>>>)
      requires unchanged(this`components, this`status) && components.Valid()
      requires old(StatusDict(status) && Current(m))
      requires forall j | 0 <= j < |components.keys| :: Still(components.entries[components.keys[j]])
      ensures StatusDict(status) && Current(m)
    {
      forall n | n in components.entries
        ensures n in status.entries && status.entries[n] == components.entries[n].status
        ensures n in m && StreamsAre(components.entries[n].ports, m[n])
      {
        var j :| 0 <= j < |components.keys| && components.keys[j] == n;
        var c := components.entries[n];
        assert Still(c);
        assert old(c in Units() && forall p | p in c.ports :: p in Ports());
        assert old(StreamsAre(c.ports, m[n]));
        forall q | 0 <= q < |c.ports| ensures m[n][q] == c.ports[q].stream {
          assert c.ports[q] in c.ports;
        }
      }
    }

    /**
     * After `save_state` on the `i`-th component the components up to it are
     * logged for one more step, whose statuses `statuses'` end with `status`
     * and whose streams `streams'` end with `m`, the others still for the
     * steps before; the statuses and streams themselves are as they were.
     */
    twostate lemma LoggedComponent(new i: nat, new statuses: seq<Dict<string, int>>, new streams: seq<map<string, seq<Option<real>>>>,
                                   new statuses': seq<Dict<string, int>>, new streams': seq<map<string, seq<Option<real>>>>,
                                   new m: map<string, seq<Option<real>>>)
      requires old(allocated(statuses) && allocated(streams) && allocated(statuses') && allocated(streams'))
      requires unchanged(this`components, this`status) && i < |components.keys| && components.Valid()
      requires statuses' == statuses + [status] && streams' == streams + [m]
      requires StatusDict(status) && Current(m)
      requires old(LoggedBefore(i, statuses, streams, statuses', streams'))
      requires Appended(components.entries[components.keys[i]])
      requires forall j | 0 <= j < |components.keys| && j != i :: Unaltered(components.entries[components.keys[j]])
      ensures LoggedBefore(i + 1, statuses, streams, statuses', streams')
    {
      var c := components.entries[components.keys[i]];
      assert c in Units() && forall p | p in c.ports :: p in Ports();
      UnitLoggedAppend(c, components.keys[i], statuses, streams, status, m);
      forall j | 0 <= j < |components.keys| && j != i
        ensures UnitLogged(components.entries[components.keys[j]], components.keys[j],
                           if j < i then statuses' else statuses, if j < i then streams' else streams)
      {
        var d := components.entries[components.keys[j]];
        if j < i {
          UnitLoggedKept(d, components.keys[j], statuses', streams');
        } else {
          UnitLoggedKept(d, components.keys[j], statuses, streams);
        }
      }
    }

    /**
     * `component.save_state()` and then `port.save_state()` on each of its
     * ports (ModelBase.py:574-576): the status history gains the component's
     * current status, and each port's stream history the port's current stream.
     */
    static method SaveUnit(c: Component, ghost k: nat)
      requires forall i, j | 0 <= i < j < |c.ports| :: c.ports[i] != c.ports[j] && c.ports[i].results != c.ports[j].results
      requires Saved(c, k)
      modifies c`statusHistory
      modifies set p | p in c.ports :: p`splitInto, set p | p in c.ports :: p`splitOut
      modifies set p | p in c.ports :: p`maxInto, set p | p in c.ports :: p`maxOut
      modifies set p | p in c.ports :: p.results`streamHistory, set p | p in c.ports :: p.results`pressureHistory
      modifies set p | p in c.ports :: p.results`temperatureHistory, set p | p in c.ports :: p.results`massFractionHistory
      ensures Saved(c, k + 1)
      ensures c.statusHistory == old(c.statusHistory) + [c.status]
      ensures forall p | p in c.ports :: old(p.results.streamHistory).Some? &&
                                         p.results.streamHistory == Some(old(p.results.streamHistory).value + [p.stream])
      ensures forall p: Port | old(allocated(p)) && p !in c.ports && (forall q | q in c.ports :: q.results != p.results) && old(p.Valid()) ::
                p.Valid() && p.results.streamHistory == old(p.results.streamHistory)
    {
      ghost var before := map p | p in c.ports :: p.results.streamHistory.value;
      c.SaveState();
      SavePorts(c.ports, before);
    }

    /** `solve` within one step of `run`: the ports' histories are left as they were. */
    method SolveKeeping(runcount: nat, ghost k: nat) returns (r: Result<int>)
      requires Valid() && Settled() && Disjoint() && Recorded(k)
      modifies Branches()`runcount, Branches()`balance, Branches()`trace, Branches()`tempFixed, Branches()`tempAdaptive,
               Branches()`calculated, Branches()`loopControlled,
               Units()`status, Units()`massFraction, Units()`buffers, Units()`storageLevel, Units()`loopControl,
               BranchPorts()`stream, BranchPorts()`pressure, BranchPorts()`temperature, BranchPorts()`pressureStatus,
               BranchPorts()`temperatureStatus, BranchPorts()`updatedFluid, BranchPorts()`massFractionStatus,
               BranchPorts()`massStreamStatus,
               Ports()`pressureStatus, Ports()`temperatureStatus, Ports()`massFractionStatus, Ports()`massStreamStatus,
               this`status
      ensures Valid() && Settled() && Disjoint() && Recorded(k)
      ensures settings.timeResolution.None? ==> r == Err(ModelError)
      ensures r.Ok? ==> StatusDict(status)
    {
      ghost var settled, passes;
      ghost var ports := Ports();
      assert forall p | p in ports :: p.Valid() && |p.results.streamHistory.value| == k;
      r, settled, passes := Solve(runcount);
      forall p | p in ports ensures p.Valid() && |p.results.streamHistory.value| == k {
        p.Kept();
      }
    }

    /** `SolveKeeping`, which leaves every history, and so the log, as it was. */
    method SolveLogged(runcount: nat, ghost k: nat, ghost statuses: seq<Dict<string, int>>,
                       ghost streams: seq<map<string, seq<Option<real>>>>) returns (r: Result<int>)
      requires Valid() && Settled() && Disjoint() && Recorded(k) && Logged(statuses, streams)
      modifies Branches()`runcount, Branches()`balance, Branches()`trace, Branches()`tempFixed, Branches()`tempAdaptive,
               Branches()`calculated, Branches()`loopControlled,
               Units()`status, Units()`massFraction, Units()`buffers, Units()`storageLevel, Units()`loopControl,
               BranchPorts()`stream, BranchPorts()`pressure, BranchPorts()`temperature, BranchPorts()`pressureStatus,
               BranchPorts()`temperatureStatus, BranchPorts()`updatedFluid, BranchPorts()`massFractionStatus,
               BranchPorts()`massStreamStatus,
               Ports()`pressureStatus, Ports()`temperatureStatus, Ports()`massFractionStatus, Ports()`massStreamStatus,
               this`status
      ensures Valid() && Settled() && Disjoint() && Recorded(k) && Logged(statuses, streams)
      ensures settings.timeResolution.None? ==> r == Err(ModelError)
      ensures r.Ok? ==> StatusDict(status)
    {
      r := SolveKeeping(runcount, k);
    }

    /**
     * The end of one step of `run` (ModelBase.py:567-576): the overall status
     * becomes -1 when some component reports -1, then the state of every
     * component and of every port is saved: the log gains the step's
     * statuses and `now`, the current streams of the ports.
     */
    method RecordStep(ghost k: nat, ghost statuses: seq<Dict<string, int>>, ghost streams: seq<map<string, seq<Option<real>>>>)
      returns (ghost now: map<string, seq<Option<real>>>)
      requires Valid() && Settled() && Disjoint() && Recorded(k) && StatusDict(status) && Logged(statuses, streams)
      modifies Ports()`splitInto, Ports()`splitOut, Ports()`maxInto, Ports()`maxOut
      modifies Results()`streamHistory, Results()`pressureHistory, Results()`temperatureHistory, Results()`massFractionHistory
      modifies Units()`statusHistory
      modifies this`overallStatus
      ensures Valid() && Settled() && Disjoint() && Recorded(k + 1) && StatusDict(status)
      ensures Current(now) && Logged(statuses + [status], streams + [now])
      ensures overallStatus == if -1 in status.entries.Values then -1 else old(overallStatus)
    {
      now := CurrentStreams();
      SaveStep(k, statuses, streams, now);
    }

    /**
     * `RecordStep` for the current streams `m` of the ports, which the
     * stream log gains.
     */
    method SaveStep(ghost k: nat, ghost statuses: seq<Dict<string, int>>, ghost streams: seq<map<string, seq<Option<real>>>>,
                      ghost m: map<string, seq<Option<real>>>)
      requires Valid() && Settled() && Disjoint() && Recorded(k) && StatusDict(status) && Current(m) && Logged(statuses, streams)
      modifies Ports()`splitInto, Ports()`splitOut, Ports()`maxInto, Ports()`maxOut
      modifies Results()`streamHistory, Results()`pressureHistory, Results()`temperatureHistory, Results()`massFractionHistory
      modifies Units()`statusHistory
      modifies this`overallStatus
      ensures Valid() && Settled() && Disjoint() && Recorded(k + 1) && StatusDict(status)
      ensures Current(m) && Logged(statuses + [status], streams + [m])
      ensures overallStatus == if -1 in status.entries.Values then -1 else old(overallStatus)
    {
      ghost var statuses', streams' := statuses + [status], streams + [m];
      SaveKeeping(k, statuses, streams, m);
      SetOverall(if -1 in status.entries.Values then -1 else overallStatus, k + 1, statuses', streams', m);
    }

    /** `SaveAll`, which keeps the model well formed and settled. */
    method SaveKeeping(ghost k: nat, ghost statuses: seq<Dict<string, int>>, ghost streams: seq<map<string, seq<Option<real>>>>,
                       ghost m: map<string, seq<Option<real>>>)
      requires Valid() && Settled() && Disjoint() && Recorded(k) && StatusDict(status) && Current(m) && Logged(statuses, streams)
      modifies Ports()`splitInto, Ports()`splitOut, Ports()`maxInto, Ports()`maxOut
      modifies Results()`streamHistory, Results()`pressureHistory, Results()`temperatureHistory, Results()`massFractionHistory
      modifies Units()`statusHistory
      ensures Valid() && Settled() && Disjoint() && Recorded(k + 1) && StatusDict(status) && Current(m)
      ensures Logged(statuses + [status], streams + [m])
    {
      SaveAll(k, statuses, streams, m);
      Untouched();
    }

    /** The overall status becomes `v`; nothing the other predicates of the model read changes. */
    method SetOverall(v: int, ghost k: nat, ghost statuses: seq<Dict<string, int>>, ghost streams: seq<map<string, seq<Option<real>>>>,
                      ghost m: map<string, seq<Option<real>>>)
      modifies this`overallStatus
      ensures overallStatus == v
      ensures Valid() == old(Valid()) && Settled() == old(Settled()) && Disjoint() == old(Disjoint())
      ensures Recorded(k) == old(Recorded(k)) && StatusDict(status) == old(StatusDict(status))
      ensures Logged(statuses, streams) == old(Logged(statuses, streams)) && Current(m) == old(Current(m))
    {
      overallStatus := v;
    }

    /**
     * One time step of `run` (ModelBase.py:565-576): `solve`, the overall
     * status set to -1 when some component reports -1, and the state of
     * every component and every port saved, so that the log gains the step's
     * statuses and `now`, the streams of the ports after the step.
     */
    method Step(runcount: nat, ghost k: nat, ghost statuses: seq<Dict<string, int>>, ghost streams: seq<map<string, seq<Option<real>>>>)
      returns (r: Result<int>, ghost now: map<string, seq<Option<real>>>)
      requires Valid() && Settled() && Disjoint() && Recorded(k) && Logged(statuses, streams)
      modifies Branches()`runcount, Branches()`balance, Branches()`trace, Branches()`tempFixed, Branches()`tempAdaptive,
               Branches()`calculated, Branches()`loopControlled,
               Units()`status, Units()`massFraction, Units()`buffers, Units()`storageLevel, Units()`loopControl,
               BranchPorts()`stream, BranchPorts()`pressure, BranchPorts()`temperature, BranchPorts()`pressureStatus,
               BranchPorts()`temperatureStatus, BranchPorts()`updatedFluid, BranchPorts()`massFractionStatus,
               BranchPorts()`massStreamStatus,
               Ports()`pressureStatus, Ports()`temperatureStatus, Ports()`massFractionStatus, Ports()`massStreamStatus,
               this`status
      modifies Ports()`splitInto, Ports()`splitOut, Ports()`maxInto, Ports()`maxOut
      modifies Results()`streamHistory, Results()`pressureHistory, Results()`temperatureHistory, Results()`massFractionHistory
      modifies Units()`statusHistory
      modifies this`overallStatus
      ensures Valid() && Settled() && Disjoint()
      ensures settings.timeResolution.None? ==> r == Err(ModelError)
      ensures Current(now)
      ensures r.Ok? ==> && Recorded(k + 1) && StatusDict(status)
                        && Logged(statuses + [status], streams + [now])
                        && overallStatus == if -1 in status.entries.Values then -1 else old(overallStatus)
    {
      r := SolveLogged(runcount, k, statuses, streams);
      if r.Ok? {
        now := RecordStep(k, statuses, streams);
      } else {
        now := CurrentStreams();
      }
    }

    /**
     * The start of `run` (ModelBase.py:545-549): every component's status and
     * storage level histories and every port's history are emptied, and the
     * overall status is 0; the model itself is left as it was.
     */
    method StartRun()
      requires Valid() && Settled() && Disjoint()
      modifies Ports()`splitInto, Ports()`splitOut, Ports()`maxInto, Ports()`maxOut
      modifies Results()`streamHistory, Results()`pressureHistory, Results()`temperatureHistory, Results()`massFractionHistory
      modifies Units()`statusHistory, Units()`storageLevel
      modifies Ports()`pressureStatus, Ports()`temperatureStatus, Ports()`massFractionStatus, Ports()`massStreamStatus
      modifies this`overallStatus
      ensures Valid() && Settled() && Disjoint() && Recorded(0) && overallStatus == 0
      ensures forall c | c in Units() :: c.storageLevel == []
    {
      ResetAll();
      Untouched();
      SetOverall(0, 0, [], [], map[]);
    }

    /**
     * `run`: every component's and every port's history is emptied, the
     * overall status starts at 0, and `IterationCount` steps are solved and
     * saved, in order.  The overall status is -1 exactly when some step left
     * a component with status -1, and every component and every port holds
     * one history entry per step: the status collected in that step and the
     * stream its port had at the end of that step.
     */
    method Run() returns (r: Result<()>, ghost statuses: seq<Dict<string, int>>, ghost streams: seq<map<string, seq<Option<real>>>>)
      requires Valid() && Settled() && Disjoint()
      modifies Branches()`runcount, Branches()`balance, Branches()`trace, Branches()`tempFixed, Branches()`tempAdaptive,
               Branches()`calculated, Branches()`loopControlled,
               Units()`status, Units()`massFraction, Units()`buffers, Units()`storageLevel, Units()`loopControl,
               BranchPorts()`stream, BranchPorts()`pressure, BranchPorts()`temperature, BranchPorts()`pressureStatus,
               BranchPorts()`temperatureStatus, BranchPorts()`updatedFluid, BranchPorts()`massFractionStatus,
               BranchPorts()`massStreamStatus,
               Ports()`pressureStatus, Ports()`temperatureStatus, Ports()`massFractionStatus, Ports()`massStreamStatus,
               this`status
      modifies Ports()`splitInto, Ports()`splitOut, Ports()`maxInto, Ports()`maxOut
      modifies Results()`streamHistory, Results()`pressureHistory, Results()`temperatureHistory, Results()`massFractionHistory
      modifies Units()`statusHistory
      modifies this`overallStatus
      ensures Valid() && Settled()
      ensures IterationCount(profileLen, settings.timeResolution).Err? ==> r == Err(ZeroDivisionError)
      ensures settings.timeResolution.None? && IterationCount(profileLen, None) != Ok(0) ==> r == Err(ModelError)
      ensures r.Ok? ==> && IterationCount(profileLen, settings.timeResolution).Ok?
                        && |statuses| == Steps(IterationCount(profileLen, settings.timeResolution).value)
                        && Recorded(|statuses|) && Logged(statuses, streams) && overallStatus == Overall(statuses)
                        && (|statuses| > 0 ==> status == statuses[|statuses| - 1])
    {
      StartRun();
      var count := IterationCount(profileLen, settings.timeResolution);
      if count.Err? {
        r, statuses, streams := Err(ZeroDivisionError), [], [];
      } else {
        r, statuses, streams := RunSteps(Steps(count.value));
      }
    }

    /**
     * `get_full_hours_of_use`: a component of the model is run with the whole
     * model, then the energy its one port of the type drew over the run is
     * divided by the port's peak stream.  `ran` is what the run returned, and
     * None when there was no run.
     */
    method GetFullHoursOfUse(name: string, t: PortType) returns (r: Result<real>, ghost ran: Option<Result<()>>)
      requires Valid() && Settled() && Disjoint()
      modifies Branches()`runcount, Branches()`balance, Branches()`trace, Branches()`tempFixed, Branches()`tempAdaptive,
               Branches()`calculated, Branches()`loopControlled,
               Units()`status, Units()`massFraction, Units()`buffers, Units()`storageLevel, Units()`loopControl,
               BranchPorts()`stream, BranchPorts()`pressure, BranchPorts()`temperature, BranchPorts()`pressureStatus,
               BranchPorts()`temperatureStatus, BranchPorts()`updatedFluid, BranchPorts()`massFractionStatus,
               BranchPorts()`massStreamStatus,
               Ports()`pressureStatus, Ports()`temperatureStatus, Ports()`massFractionStatus, Ports()`massStreamStatus,
               this`status
      modifies Ports()`splitInto, Ports()`splitOut, Ports()`maxInto, Ports()`maxOut
      modifies Results()`streamHistory, Results()`pressureHistory, Results()`temperatureHistory, Results()`massFractionHistory
      modifies Units()`statusHistory
      modifies this`overallStatus
      ensures Valid() && Settled()
      ensures ran.None? <==> name !in components.entries
      ensures ran.None? ==> r == Err(ComponentError)
      ensures ran.Some? && ran.value.Err? ==> r == Err(ran.value.error)
      ensures ran == Some(Ok(())) ==> name in components.entries && ReportsHours(name, t, r)
    {
      if name in components.entries {
        var run, _, _ := Run();
        ran := Some(run);
        if run.Ok? {
          r := HoursAfterRun(name, t);
        } else {
          r := Err(run.error);
        }
      } else {
        r, ran := Err(ComponentError), None;
      }
    }

    /** The ports of the type on the named component, and the hours of use of the one port. */
    method HoursAfterRun(name: string, t: PortType) returns (r: Result<real>)
      requires Valid() && name in components.entries
      ensures ReportsHours(name, t, r)
    {
      assert components.entries[name].Valid();
      r := PortHours(components.entries[name].GetPortsByType(t), settings.timeResolution);
    }

    /**
     * What `get_full_hours_of_use` reports after the run: `len(None)` fails
     * when the component has no port of the type, more than one such port is
     * a ComponentError, none at all an IndexError, and otherwise the full-load
     * hours of the one port's stream history.
     */
    ghost predicate ReportsHours(name: string, t: PortType, r: Result<real>)
      requires Valid() && name in components.entries
      reads this`components, this`branches, this`branchSet
      reads components.entries.Values`numberOfPorts, components.entries.Values`ports,
            components.entries.Values`portTypes, components.entries.Values`controlledPort,
            components.entries.Values`loopControl, components.entries.Values`massIn, components.entries.Values`massOut
      reads branchSet`connected, branchSet`portsConnected, branchSet`loopControlled, branchSet`unitPorts
      reads settings`timeResolution, Results()`streamHistory
    {
      var ports := components.entries[name].GetPortsByType(t);
      && (ports.None? ==> r == Err(TypeError))
      && (ports.Some? && |ports.value| > 1 ==> r == Err(ComponentError))
      && (ports == Some([]) ==> r == Err(IndexError))
      && (ports.Some? && |ports.value| == 1 ==>
            r == HoursOfHistory(ports.value[0].results.streamHistory, settings.timeResolution))
    }

    /** While the model's structure stays as it was, so do its footprints. */
    twostate lemma FootprintsKept()
      requires unchanged(this`components, this`branches) && unchanged(Units()`ports, Branches()`unitPorts)
      ensures Branches() == old(Branches()) && Units() == old(Units()) && BranchPorts() == old(BranchPorts())
      ensures Ports() == old(Ports()) && Results() == old(Results())
    {
    }

    /** The loop of `run` (ModelBase.py:563-576): `count` steps, stopped by the first failing one. */
    method RunSteps(count: nat) returns (r: Result<()>, ghost statuses: seq<Dict<string, int>>,
                                         ghost streams: seq<map<string, seq<Option<real>>>>)
      requires Valid() && Settled() && Disjoint() && Recorded(0) && overallStatus == 0
      modifies Branches()`runcount, Branches()`balance, Branches()`trace, Branches()`tempFixed, Branches()`tempAdaptive,
               Branches()`calculated, Branches()`loopControlled,
               Units()`status, Units()`massFraction, Units()`buffers, Units()`storageLevel, Units()`loopControl,
               BranchPorts()`stream, BranchPorts()`pressure, BranchPorts()`temperature, BranchPorts()`pressureStatus,
               BranchPorts()`temperatureStatus, BranchPorts()`updatedFluid, BranchPorts()`massFractionStatus,
               BranchPorts()`massStreamStatus,
               Ports()`pressureStatus, Ports()`temperatureStatus, Ports()`massFractionStatus, Ports()`massStreamStatus,
               this`status
      modifies Ports()`splitInto, Ports()`splitOut, Ports()`maxInto, Ports()`maxOut
      modifies Results()`streamHistory, Results()`pressureHistory, Results()`temperatureHistory, Results()`massFractionHistory
      modifies Units()`statusHistory
      modifies this`overallStatus
      ensures Valid() && Settled()
      ensures settings.timeResolution.None? && count != 0 ==> r == Err(ModelError)
      ensures r.Ok? ==> && |statuses| == count && Recorded(count) && Logged(statuses, streams)
                        && overallStatus == Overall(statuses)
                        && (count > 0 ==> status == statuses[count - 1] && Current(streams[count - 1]))
    {
      LoggedEmpty();
      r := Ok(());
      statuses, streams := [], [];
      var runcount := 0;
      while runcount < count && r.Ok?
        invariant runcount <= count && |statuses| == runcount
        invariant Branches() == old(Branches()) && Units() == old(Units()) && BranchPorts() == old(BranchPorts())
        invariant Ports() == old(Ports()) && Results() == old(Results())
        invariant Valid() && Settled() && Disjoint()
        invariant r.Ok? ==> Recorded(runcount) && Logged(statuses, streams) && overallStatus == Overall(statuses)
        invariant settings.timeResolution.None? ==> (r.Ok? ==> runcount == 0) && (r.Err? ==> r == Err(ModelError))
        invariant r.Ok? && runcount > 0 ==> status == statuses[runcount - 1] && Current(streams[runcount - 1])
        decreases count - runcount, if r.Ok? then 1 else 0
      {
        label Head:
        var step, now := Step(runcount, runcount, statuses, streams);
        FootprintsKept@Head();
        if step.Err? {
          r := Err(step.error);
        } else {
          assert (statuses + [status])[..runcount] == statuses && (streams + [now])[runcount] == now;
          statuses, streams := statuses + [status], streams + [now];
          runcount := runcount + 1;
        }
      }
    }
  }
}
