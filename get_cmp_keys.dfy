/** Ordered, duplicate-free collection of port ids over components (helper/GetCmpKeys.py). */
module GetCmpKeys {

  type PortId = string

  /** The keys of `s` not already in `acc`, appended to `acc` in order. */
  function AppendNew(acc: seq<PortId>, s: seq<PortId>): seq<PortId>
    decreases |s|
  {
    if s == [] then acc
    else
      var r := AppendNew(acc, s[..|s| - 1]);
      if s[|s| - 1] in r then r else r + [s[|s| - 1]]
  }

  /** The key list of `ports[name]`, or nothing when the name is absent or its entry is empty. */
  function EntryKeys(name: string, ports: map<string, seq<PortId>>): seq<PortId>
  {
    if name in ports && |ports[name]| > 0 then ports[name] else []
  }

  /** All keys of all included entries, walking `names` in order, duplicates kept. */
  function AllKeys(names: seq<string>, ports: map<string, seq<PortId>>): seq<PortId>
    decreases |names|
  {
    if names == [] then [] else AllKeys(names[..|names| - 1], ports) + EntryKeys(names[|names| - 1], ports)
  }

  /** The first position of `k` in `s`. */
  function FirstIndex(s: seq<PortId>, k: PortId): (i: nat)
    requires k in s
    ensures i < |s| && s[i] == k && k !in s[..i]
  {
    if s[0] == k then 0 else 1 + FirstIndex(s[1..], k)
  }

  lemma {:induction false} AppendNewExtends(acc: seq<PortId>, s: seq<PortId>)
    ensures |acc| <= |AppendNew(acc, s)| && AppendNew(acc, s)[..|acc|] == acc
    ensures forall k :: k in AppendNew(acc, s) <==> k in acc || k in s
    decreases |s|
  {
    if s != [] {
      AppendNewExtends(acc, s[..|s| - 1]);
      assert s == s[..|s| - 1] + [s[|s| - 1]];
    }
  }

  lemma {:induction false} AppendNewDistinct(acc: seq<PortId>, s: seq<PortId>)
    requires forall i, j :: 0 <= i < j < |acc| ==> acc[i] != acc[j]
    ensures forall i, j :: 0 <= i < j < |AppendNew(acc, s)| ==> AppendNew(acc, s)[i] != AppendNew(acc, s)[j]
    decreases |s|
  {
    if s != [] {
      AppendNewDistinct(acc, s[..|s| - 1]);
    }
  }

  /** Appending `t` after `s` is appending `s`, then `t`. */
  lemma {:induction false} AppendNewConcat(acc: seq<PortId>, s: seq<PortId>, t: seq<PortId>)
    ensures AppendNew(acc, s + t) == AppendNew(AppendNew(acc, s), t)
    decreases |t|
  {
    if t == [] {
      assert s + t == s;
    } else {
      assert (s + t)[..|s + t| - 1] == s + t[..|t| - 1];
      AppendNewConcat(acc, s, t[..|t| - 1]);
    }
  }

  /** Every pair of kept keys appears in `s`, the earlier one first occurring earlier. */
  predicate FirstSeenOrdered(r: seq<PortId>, s: seq<PortId>)
  {
    forall i, j :: 0 <= i < j < |r| ==> r[i] in s && r[j] in s && FirstIndex(s, r[i]) < FirstIndex(s, r[j])
  }

  /** Starting from nothing, the kept keys appear in the order of their first occurrence. */
  lemma {:induction false} AppendNewFirstSeenOrder(s: seq<PortId>)
    ensures FirstSeenOrdered(AppendNew([], s), s)
    decreases |s|
  {
    if s != [] {
      var p, k := s[..|s| - 1], s[|s| - 1];
      var r := AppendNew([], p);
      AppendNewFirstSeenOrder(p);
      AppendNewExtends([], p);
      assert s == p + [k];
      forall x | x in p ensures x in s && FirstIndex(s, x) == FirstIndex(p, x) {
        FirstIndexPrefix(p, [k], x);
      }
      if k !in r {
        assert k !in p;
        FirstIndexAppend(p, k);
        var r2 := r + [k];
        forall i, j | 0 <= i < j < |r2|
          ensures r2[i] in s && r2[j] in s && FirstIndex(s, r2[i]) < FirstIndex(s, r2[j])
        {
          assert r2[i] == r[i] && r[i] in p;
          if j < |r| {
            assert r2[j] == r[j] && r[j] in p;
          }
        }
      } else {
        forall i, j | 0 <= i < j < |r|
          ensures r[i] in s && r[j] in s && FirstIndex(s, r[i]) < FirstIndex(s, r[j])
        {
          assert r[i] in p && r[j] in p;
        }
      }
    }
  }

  lemma {:induction false} FirstIndexPrefix(p: seq<PortId>, q: seq<PortId>, x: PortId)
    requires x in p
    ensures x in p + q && FirstIndex(p + q, x) == FirstIndex(p, x)
    decreases |p|
  {
    if p[0] != x {
      assert (p + q)[1..] == p[1..] + q;
      FirstIndexPrefix(p[1..], q, x);
    }
  }

  lemma {:induction false} FirstIndexAppend(p: seq<PortId>, k: PortId)
    requires k !in p
    ensures FirstIndex(p + [k], k) == |p|
    decreases |p|
  {
    if p != [] {
      assert (p + [k])[1..] == p[1..] + [k];
      FirstIndexAppend(p[1..], k);
    }
  }

  /**
   * `GetCmpKeys(names, ports)`: for each name that has a non-empty entry in
   * `ports`, each of the entry's keys is appended unless already collected.
   * Each entry's keys are given in the entry's own (insertion) order.
   */
  method GetCmpKeys(names: seq<string>, ports: map<string, seq<PortId>>) returns (keys: seq<PortId>)
    ensures keys == AppendNew([], AllKeys(names, ports))
  {
    keys := [];
    var n := 0;
    while n < |names|
      invariant 0 <= n <= |names|
      invariant keys == AppendNew([], AllKeys(names[..n], ports))
    {
      var name := names[n];
      assert names[..n + 1][..n] == names[..n];
      if name in ports {
        if |ports[name]| > 0 {
          var keysIn := ports[name];
          var i := 0;
          ghost var before := AllKeys(names[..n], ports);
          assert before + keysIn[..0] == before;
          while i < |keysIn|
            invariant 0 <= i <= |keysIn|
            invariant keys == AppendNew([], before + keysIn[..i])
          {
            assert keysIn[..i + 1] == keysIn[..i] + [keysIn[i]];
            assert (before + keysIn[..i + 1])[..|before + keysIn[..i + 1]| - 1] == before + keysIn[..i];
            if keysIn[i] !in keys {
              keys := keys + [keysIn[i]];
            }
            i := i + 1;
          }
          assert keysIn[..i] == keysIn;
        }
      }
      assert AllKeys(names[..n + 1], ports) == AllKeys(names[..n], ports) + EntryKeys(name, ports);
      if EntryKeys(name, ports) == [] {
        assert AllKeys(names[..n], ports) + EntryKeys(name, ports) == AllKeys(names[..n], ports);
      }
      n := n + 1;
    }
    assert names[..n] == names;
  }

  /** The collected keys contain no duplicates. */
  lemma CmpKeysDistinct(names: seq<string>, ports: map<string, seq<PortId>>)
    ensures var r := AppendNew([], AllKeys(names, ports));
      forall i, j :: 0 <= i < j < |r| ==> r[i] != r[j]
  {
    AppendNewDistinct([], AllKeys(names, ports));
  }

  /** A key is collected exactly when some listed name has a non-empty entry holding it. */
  lemma {:induction false} CmpKeysMembers(names: seq<string>, ports: map<string, seq<PortId>>, k: PortId)
    ensures k in AppendNew([], AllKeys(names, ports)) <==>
      exists n :: 0 <= n < |names| && names[n] in ports && |ports[names[n]]| > 0 && k in ports[names[n]]
    decreases |names|
  {
    AppendNewExtends([], AllKeys(names, ports));
    if names != [] {
      var p := names[..|names| - 1];
      CmpKeysMembers(p, ports, k);
      AppendNewExtends([], AllKeys(p, ports));
      if k in EntryKeys(names[|names| - 1], ports) {
        assert names[|names| - 1] in ports;
      }
      if exists n :: 0 <= n < |names| && names[n] in ports && |ports[names[n]]| > 0 && k in ports[names[n]] {
        var n :| 0 <= n < |names| && names[n] in ports && |ports[names[n]]| > 0 && k in ports[names[n]];
        if n < |p| {
          assert p[n] == names[n];
        }
      }
    }
  }

  /** Keys are collected in first-seen order over the names in order and each entry's keys in order. */
  lemma CmpKeysOrder(names: seq<string>, ports: map<string, seq<PortId>>)
    ensures FirstSeenOrdered(AppendNew([], AllKeys(names, ports)), AllKeys(names, ports))
  {
    AppendNewFirstSeenOrder(AllKeys(names, ports));
  }
}
