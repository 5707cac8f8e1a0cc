/**
 * Python dictionaries as the modelled code uses them: a finite map together
 * with the order in which its keys were first inserted.  Iterating a Python
 * dict visits the keys in that order, and assigning to an existing key keeps
 * its place.
 */
module Dicts {

  datatype Dict<K(==,!new), V> = Dict(keys: seq<K>, entries: map<K, V>)
  {
    /** Every key is listed exactly once, and the listed keys are exactly the mapped ones. */
    ghost predicate Valid()
    {
      && (forall i, j :: 0 <= i < j < |keys| ==> keys[i] != keys[j])
      && (forall k :: k in entries <==> k in keys)
    }

    /** `d[k] = v`: a new key goes to the end, an existing key keeps its place. */
    function Put(k: K, v: V): (d: Dict<K, V>)
      ensures d.entries == entries[k := v]
      ensures k in entries ==> d.keys == keys
      ensures k !in entries ==> d.keys == keys + [k]
      ensures Valid() ==> d.Valid()
    {
      if k in entries then Dict(keys, entries[k := v])
      else
        AppendKeepsValid(k, v);
        Dict(keys + [k], entries[k := v])
    }

    /** A key not yet mapped can be appended without breaking the invariant. */
    lemma AppendKeepsValid(k: K, v: V)
      requires k !in entries
      ensures Valid() ==> Dict(keys + [k], entries[k := v]).Valid()
    {
      if Valid() {
        var ks := keys + [k];
        forall i, j | 0 <= i < j < |ks| ensures ks[i] != ks[j] {
          assert ks[i] == keys[i];
          if j < |keys| {
            assert ks[j] == keys[j];
          } else {
            assert keys[i] in keys;
          }
        }
        forall x ensures x in entries[k := v] <==> x in ks {
          assert x in ks <==> x in keys || x == k;
        }
      }
    }

    /** Assigning `m[k]` to each key `k` of `ks`, in order. */
    function PutAll(ks: seq<K>, m: map<K, V>): (d: Dict<K, V>)
      requires forall k | k in ks :: k in m
      ensures d.entries.Keys == entries.Keys + set k | k in ks
      ensures forall k | k in d.entries :: d.entries[k] == if k in ks then m[k] else entries[k]
      ensures |d.keys| >= |keys| && d.keys[..|keys|] == keys
      ensures Valid() ==> d.Valid()
      decreases |ks|
    {
      if |ks| == 0 then
        this
      else
        var front := ks[..|ks| - 1];
        var last := ks[|ks| - 1];
        assert ks == front + [last];
        var d0 := PutAll(front, m);
        var d := d0.Put(last, m[last]);
        assert d.keys[..|keys|] == d0.keys[..|keys|];
        d
    }

    /** Keys that are all new are appended after the existing ones, in their order. */
    lemma {:induction false} PutAllFresh(ks: seq<K>, m: map<K, V>)
      requires forall k | k in ks :: k in m
      ensures Fresh(ks) ==> PutAll(ks, m).keys == keys + ks
      decreases |ks|
    {
      if |ks| > 0 && Fresh(ks) {
        var front := ks[..|ks| - 1];
        var last := ks[|ks| - 1];
        assert ks == front + [last];
        FreshFront(ks);
        PutAllFresh(front, m);
        assert keys + front + [last] == keys + ks;
      }
    }

    /** Dropping the last of fresh keys leaves fresh keys that do not hold it. */
    lemma FreshFront(ks: seq<K>)
      requires |ks| > 0
      ensures Fresh(ks) ==> Fresh(ks[..|ks| - 1]) && ks[|ks| - 1] !in ks[..|ks| - 1]
    {
      if Fresh(ks) {
        var front := ks[..|ks| - 1];
        forall i | 0 <= i < |front| ensures front[i] == ks[i] && front[i] != ks[|ks| - 1] {}
      }
    }

    /** Keys that are pairwise distinct and none of them mapped yet. */
    ghost predicate Fresh(ks: seq<K>)
    {
      && (forall k | k in ks :: k !in entries)
      && (forall i, j :: 0 <= i < j < |ks| ==> ks[i] != ks[j])
    }

    /** `d.update(other)`: the keys of `other` are assigned in its order, so its values win. */
    function Update(other: Dict<K, V>): (d: Dict<K, V>)
      requires other.Valid()
      ensures d.entries == entries + other.entries
      ensures |d.keys| >= |keys| && d.keys[..|keys|] == keys
      ensures Fresh(other.keys) ==> d.keys == keys + other.keys
      ensures Valid() ==> d.Valid()
    {
      PutAllFresh(other.keys, other.entries);
      UpdateEntries(other);
      PutAll(other.keys, other.entries)
    }

    /** Assigning every entry of a valid dictionary gives the merged map. */
    lemma UpdateEntries(other: Dict<K, V>)
      requires other.Valid()
      ensures PutAll(other.keys, other.entries).entries == entries + other.entries
    {
      var d := PutAll(other.keys, other.entries);
      var e := entries + other.entries;
      assert (set k | k in other.keys) == other.entries.Keys;
      assert d.entries.Keys == e.Keys;
      forall k | k in d.entries ensures d.entries[k] == e[k] {}
    }

    /** `d.pop(k)` (or `del d[k]`): the key disappears, the others keep their order. */
    function Remove(k: K): (d: Dict<K, V>)
      ensures d.entries == entries - {k}
      ensures d.keys == Without(keys, k)
      ensures Valid() ==> d.Valid()
    {
      WithoutKeepsDistinct(keys, k);
      Dict(Without(keys, k), entries - {k})
    }
  }

  /** A dictionary whose key list and map agree. */
  type PyDict<K(==,!new), V> = d: Dict<K, V> | d.Valid() witness Dict([], map[])

  /** The empty dictionary `{}`. */
  function Empty<K(==,!new), V>(): (d: Dict<K, V>)
    ensures d.Valid() && |d.keys| == 0
  {
    Dict([], map[])
  }

  /** The list with every occurrence of `k` taken out, the rest in order. */
  function Without<K(==,!new)>(s: seq<K>, k: K): (r: seq<K>)
    ensures forall x :: x in r <==> x in s && x != k
    ensures |r| <= |s|
  {
    if |s| == 0 then []
    else
      var rest := Without(s[1..], k);
      assert forall x :: x in s <==> x == s[0] || x in s[1..];
      if s[0] == k then rest else [s[0]] + rest
  }

  /** Taking a key out of a list without repetitions leaves a list without repetitions. */
  lemma {:induction false} WithoutKeepsDistinct<K(!new)>(s: seq<K>, k: K)
    ensures (forall i, j :: 0 <= i < j < |s| ==> s[i] != s[j]) ==>
            forall i, j :: 0 <= i < j < |Without(s, k)| ==> Without(s, k)[i] != Without(s, k)[j]
    decreases |s|
  {
    if |s| > 0 && forall i, j :: 0 <= i < j < |s| ==> s[i] != s[j] {
      var tail := s[1..];
      assert forall i, j :: 0 <= i < j < |tail| ==> tail[i] != tail[j] by {
        forall i, j | 0 <= i < j < |tail| ensures tail[i] != tail[j] {
          assert tail[i] == s[i + 1] && tail[j] == s[j + 1];
        }
      }
      WithoutKeepsDistinct(tail, k);
      var rest := Without(tail, k);
      if s[0] != k {
        assert s[0] !in tail by {
          forall j | 0 <= j < |tail| ensures tail[j] != s[0] {
            assert tail[j] == s[j + 1];
          }
        }
        var r := [s[0]] + rest;
        forall i, j | 0 <= i < j < |r| ensures r[i] != r[j] {
          assert r[j] == rest[j - 1];
          if i > 0 {
            assert r[i] == rest[i - 1];
          } else {
            assert rest[j - 1] in rest;
          }
        }
      }
    }
  }

  /** Taking out a key the list does not hold leaves the list as it was. */
  lemma {:induction false} WithoutAbsent<K(!new)>(s: seq<K>, k: K)
    requires k !in s
    ensures Without(s, k) == s
  {
    if |s| > 0 {
      assert s[1..] == s[1..] && k !in s[1..];
      WithoutAbsent(s[1..], k);
      assert s == [s[0]] + s[1..];
    }
  }
}
