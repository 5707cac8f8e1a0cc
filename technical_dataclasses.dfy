/** Efficiency data sets and the per-component efficiency registry (model_base/Dataclasses/TechnicalDataclasses.py). */
module TechnicalDataclasses {
  import opened Wrappers
  import opened CustomErrors
  import opened Units
  import opened Streamtypes

  /** `Efficiency`: an efficiency curve converting one medium into another. */
  class Efficiency {
    const mediumReferenced: PortType
    const unitReferenced: Unit
    const mediumCalculated: PortType
    const unitCalculated: Unit
    var loadRange: seq<real>
    var efficienciesAtLoad: seq<real>
    /** Whether an interpolation function has been built; the interpolation itself is not modelled. */
    var interpolated: bool

    /** Construction followed by `__post_init__`'s length check. */
    constructor (mediumReferenced: PortType, unitReferenced: Unit, mediumCalculated: PortType, unitCalculated: Unit,
                 loadRange: seq<real>, efficienciesAtLoad: seq<real>)
      ensures this.mediumReferenced == mediumReferenced && this.mediumCalculated == mediumCalculated
      ensures this.unitReferenced == unitReferenced && this.unitCalculated == unitCalculated
      ensures this.loadRange == loadRange && this.efficienciesAtLoad == efficienciesAtLoad
      ensures interpolated == (|loadRange| == |efficienciesAtLoad|)
    {
      this.mediumReferenced := mediumReferenced;
      this.unitReferenced := unitReferenced;
      this.mediumCalculated := mediumCalculated;
      this.unitCalculated := unitCalculated;
      this.loadRange := loadRange;
      this.efficienciesAtLoad := efficienciesAtLoad;
      interpolated := |loadRange| == |efficienciesAtLoad|;
    }

    /** `set_efficiency`: the two lists are replaced only when their lengths agree. */
    method SetEfficiency(loadValues: seq<real>, efficiencyValues: seq<real>)
      modifies this
      ensures |loadValues| == |efficiencyValues| ==>
        loadRange == loadValues && efficienciesAtLoad == efficiencyValues && interpolated
      ensures |loadValues| != |efficiencyValues| ==>
        loadRange == old(loadRange) && efficienciesAtLoad == old(efficienciesAtLoad)
      ensures interpolated == (old(interpolated) || |loadRange| == |efficienciesAtLoad|)
    {
      if |loadValues| == |efficiencyValues| {
        loadRange := loadValues;
        efficienciesAtLoad := efficiencyValues;
      }
      if |loadRange| == |efficienciesAtLoad| {
        interpolated := true;
      }
    }
  }

  /** The media pair an efficiency converts between. */
  function Media(e: Efficiency): (PortType, PortType)
  {
    (e.mediumReferenced, e.mediumCalculated)
  }

  /** The position of the first efficiency with the given media pair. */
  function FirstMatch(all: seq<Efficiency>, media: (PortType, PortType)): (i: Option<nat>)
    ensures i.Some? ==> i.value < |all| && Media(all[i.value]) == media
    ensures i.Some? ==> forall j :: 0 <= j < i.value ==> Media(all[j]) != media
    ensures i.None? ==> forall j :: 0 <= j < |all| ==> Media(all[j]) != media
  {
    if all == [] then None
    else if Media(all[0]) == media then Some(0)
    else
      var rest := FirstMatch(all[1..], media);
      if rest.Some? then Some(rest.value + 1) else None
  }

  /** `Efficiencies`: the efficiency registry of one component. */
  class Efficiencies {
    const className: string
    var allEfficiencies: seq<Efficiency>

    /** No two registered efficiencies convert between the same media pair. */
    predicate Valid()
      reads this
    {
      forall i, j :: 0 <= i < j < |allEfficiencies| ==> Media(allEfficiencies[i]) != Media(allEfficiencies[j])
    }

    constructor (className: string)
      ensures Valid() && this.className == className && allEfficiencies == []
    {
      this.className := className;
      allEfficiencies := [];
    }

    /** `get_efficiency_by_media`: the first matching efficiency, or None. */
    method GetEfficiencyByMedia(mediumReferenced: PortType, mediumCalculated: PortType) returns (r: Option<Efficiency>)
      ensures r.Some? <==> FirstMatch(allEfficiencies, (mediumReferenced, mediumCalculated)).Some?
      ensures r.Some? ==> r.value == allEfficiencies[FirstMatch(allEfficiencies, (mediumReferenced, mediumCalculated)).value]
    {
      var matched: seq<Efficiency> := [];
      var i := 0;
      while i < |allEfficiencies|
        invariant 0 <= i <= |allEfficiencies|
        invariant forall e :: e in matched ==> Media(e) == (mediumReferenced, mediumCalculated)
        invariant matched == [] <==> FirstMatch(allEfficiencies[..i], (mediumReferenced, mediumCalculated)).None?
        invariant matched != [] ==>
          matched[0] == allEfficiencies[FirstMatch(allEfficiencies[..i], (mediumReferenced, mediumCalculated)).value]
      {
        FirstMatchExtend(allEfficiencies, i, (mediumReferenced, mediumCalculated));
        var e := allEfficiencies[i];
        if e.mediumReferenced == mediumReferenced && e.mediumCalculated == mediumCalculated {
          matched := matched + [e];
        }
        i := i + 1;
      }
      assert allEfficiencies[..i] == allEfficiencies;
      if |matched| >= 1 {
        r := Some(matched[0]);
      } else {
        r := None;
      }
    }

    /** `check_if_efficiency_not_included`. */
    method CheckIfEfficiencyNotIncluded(mediumReferenced: PortType, mediumCalculated: PortType) returns (notIncluded: bool)
      ensures notIncluded <==> forall j :: 0 <= j < |allEfficiencies| ==> Media(allEfficiencies[j]) != (mediumReferenced, mediumCalculated)
    {
      var e := GetEfficiencyByMedia(mediumReferenced, mediumCalculated);
      notIncluded := e.None?;
    }

    /** `add_new_efficiency`: appends only when no efficiency with the same media pair is registered. */
    method AddNewEfficiency(e: Efficiency)
      requires Valid()
      modifies this
      ensures Valid()
      ensures (forall j :: 0 <= j < |old(allEfficiencies)| ==> Media(old(allEfficiencies)[j]) != Media(e)) ==>
        allEfficiencies == old(allEfficiencies) + [e]
      ensures (exists j :: 0 <= j < |old(allEfficiencies)| && Media(old(allEfficiencies)[j]) == Media(e)) ==>
        allEfficiencies == old(allEfficiencies)
    {
      var notIncluded := CheckIfEfficiencyNotIncluded(e.mediumReferenced, e.mediumCalculated);
      if notIncluded {
        allEfficiencies := allEfficiencies + [e];
      }
    }

    /** `add_new_efficiencies`: adds each in order. */
    method AddNewEfficiencies(es: seq<Efficiency>)
      requires Valid()
      modifies this
      ensures Valid()
      ensures |old(allEfficiencies)| <= |allEfficiencies| && allEfficiencies[..|old(allEfficiencies)|] == old(allEfficiencies)
      ensures forall e :: e in es ==> exists j :: 0 <= j < |allEfficiencies| && Media(allEfficiencies[j]) == Media(e)
    {
      var k := 0;
      while k < |es|
        invariant 0 <= k <= |es|
        invariant Valid()
        invariant |old(allEfficiencies)| <= |allEfficiencies| && allEfficiencies[..|old(allEfficiencies)|] == old(allEfficiencies)
        invariant forall e :: e in es[..k] ==> exists j :: 0 <= j < |allEfficiencies| && Media(allEfficiencies[j]) == Media(e)
      {
        ghost var before := allEfficiencies;
        AddNewEfficiency(es[k]);
        assert before == allEfficiencies[..|before|];
        assert es[..k + 1] == es[..k] + [es[k]];
        if allEfficiencies != before {
          assert Media(allEfficiencies[|before|]) == Media(es[k]);
        }
        forall e | e in es[..k + 1]
          ensures exists j :: 0 <= j < |allEfficiencies| && Media(allEfficiencies[j]) == Media(e)
        {
          if e in es[..k] {
            var j :| 0 <= j < |before| && Media(before[j]) == Media(e);
            assert allEfficiencies[j] == before[j];
          }
        }
        k := k + 1;
      }
      assert es[..k] == es;
    }

    /** `update_efficiency`: only the matching efficiency is updated; without a match nothing changes. */
    method UpdateEfficiency(mediumReferenced: PortType, mediumCalculated: PortType,
                            loadValues: seq<real>, efficiencyValues: seq<real>)
      modifies set e | e in allEfficiencies
      ensures FirstMatch(allEfficiencies, (mediumReferenced, mediumCalculated)).None? ==>
        forall e :: e in allEfficiencies ==> unchanged(e)
      ensures FirstMatch(allEfficiencies, (mediumReferenced, mediumCalculated)).Some? ==>
        var target := allEfficiencies[FirstMatch(allEfficiencies, (mediumReferenced, mediumCalculated)).value];
        (forall e :: e in allEfficiencies && e != target ==> unchanged(e)) &&
        (|loadValues| == |efficiencyValues| ==> target.loadRange == loadValues && target.efficienciesAtLoad == efficiencyValues)
    {
      var found := GetEfficiencyByMedia(mediumReferenced, mediumCalculated);
      if found.Some? {
        found.value.SetEfficiency(loadValues, efficiencyValues);
      }
    }

    /** `get_efficiencies_at_load`: the values of the last registered efficiency; none registered raises UnboundLocalError. */
    method GetEfficienciesAtLoad() returns (r: Result<seq<real>>)
      ensures allEfficiencies == [] ==> r == Err(UnboundLocalError)
      ensures allEfficiencies != [] ==> r == Ok(allEfficiencies[|allEfficiencies| - 1].efficienciesAtLoad)
    {
      var last: Option<seq<real>> := None;
      var i := 0;
      while i < |allEfficiencies|
        invariant 0 <= i <= |allEfficiencies|
        invariant i == 0 <==> last.None?
        invariant i > 0 ==> last == Some(allEfficiencies[i - 1].efficienciesAtLoad)
      {
        last := Some(allEfficiencies[i].efficienciesAtLoad);
        i := i + 1;
      }
      if last.None? {
        r := Err(UnboundLocalError);
      } else {
        r := Ok(last.value);
      }
    }
  }

  lemma {:induction false} FirstMatchExtend(all: seq<Efficiency>, i: nat, media: (PortType, PortType))
    requires i < |all|
    ensures FirstMatch(all[..i + 1], media) ==
      if FirstMatch(all[..i], media).Some? then FirstMatch(all[..i], media)
      else if Media(all[i]) == media then Some(i) else None
  {
    var a, b := FirstMatch(all[..i], media), FirstMatch(all[..i + 1], media);
    if a.Some? {
      assert all[..i + 1][a.value] == all[..i][a.value];
      assert forall j :: 0 <= j < a.value ==> all[..i + 1][j] == all[..i][j];
      FirstMatchUnique(all[..i + 1], media, a.value);
    } else if Media(all[i]) == media {
      assert forall j :: 0 <= j < i ==> all[..i + 1][j] == all[..i][j];
      FirstMatchUnique(all[..i + 1], media, i);
    } else {
      assert forall j :: 0 <= j <= i ==> j < i ==> all[..i + 1][j] == all[..i][j];
    }
  }

  lemma FirstMatchUnique(all: seq<Efficiency>, media: (PortType, PortType), k: nat)
    requires k < |all| && Media(all[k]) == media
    requires forall j :: 0 <= j < k ==> Media(all[j]) != media
    ensures FirstMatch(all, media) == Some(k)
  {
  }
}
