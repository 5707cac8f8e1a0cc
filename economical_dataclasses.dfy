/**
 * Economic input parameters: their percentage checks, setters, unit validation
 * and name lookups (model_base/Dataclasses/EconomicalDataclasses.py).
 */
module EconomicalDataclasses {
  import opened Wrappers
  import opened CustomErrors
  import opened Units
  import opened Streamtypes

  /**
   * `check_percentage_rate`: whether a warning is logged.  It never rejects a
   * value and ignores None; the setters below store the value either way.
   */
  predicate PercentageRateWarns(value: Option<real>, lowerLimit: real, upperLimit: real)
  {
    value.Some? && (value.value > upperLimit || value.value < lowerLimit)
  }

  /** A rate's factor: rate + 1 for a given rate. */
  function RateFactor(rate: real): (f: real)
    ensures f - rate == 1.0
  {
    rate + 1.0
  }

  /** The interpolated investment-cost function, kept as its support points; the interpolation itself is not modelled. */
  datatype InvestmentFunction = InvestmentFunction(points: seq<(real, real)>)

  /** `CAPEXParameters`. */
  class CAPEXParameters {
    var name: Option<string>
    var investmentCost: Option<real>
    var investmentFunction: Option<InvestmentFunction>
    var investmentYear: Option<int>
    var referenceYear: Option<int>
    var lifeCycle: real
    var riskSurcharge: Option<real>
    var priceDev: Option<real>
    var fundingVolume: real
    var interestRate: Option<real>
    var riskSurchargeFactor: Option<real>
    var priceDevFactor: Option<real>
    var interestRateFactor: Option<real>

    /** Construction followed by `__post_init__`, which routes the three rates through their setters. */
    constructor (name: Option<string>, investmentCost: Option<real>, investmentFunction: Option<InvestmentFunction>,
                 investmentYear: Option<int>, referenceYear: Option<int>, lifeCycle: real,
                 riskSurcharge: Option<real>, priceDev: Option<real>, fundingVolume: real, interestRate: Option<real>)
      ensures this.name == name && this.investmentCost == investmentCost && this.investmentFunction == investmentFunction
      ensures this.investmentYear == investmentYear && this.referenceYear == referenceYear
      ensures this.lifeCycle == lifeCycle && this.fundingVolume == fundingVolume
      ensures this.riskSurcharge == riskSurcharge && this.priceDev == priceDev && this.interestRate == interestRate
      ensures riskSurchargeFactor == if riskSurcharge.Some? then Some(RateFactor(riskSurcharge.value)) else None
      ensures priceDevFactor == if priceDev.Some? then Some(RateFactor(priceDev.value)) else None
      ensures interestRateFactor == if interestRate.Some? then Some(RateFactor(interestRate.value)) else None
    {
      this.name := name;
      this.investmentCost := investmentCost;
      this.investmentFunction := investmentFunction;
      this.investmentYear := investmentYear;
      this.referenceYear := referenceYear;
      this.lifeCycle := lifeCycle;
      this.riskSurcharge := riskSurcharge;
      this.priceDev := priceDev;
      this.fundingVolume := fundingVolume;
      this.interestRate := interestRate;
      riskSurchargeFactor, priceDevFactor, interestRateFactor := None, None, None;
      new;
      SetRiskSurcharge(riskSurcharge);
      SetPriceDevFactor(priceDev);
      SetInterestRate(interestRate);
    }

    /** `set_investment_function`: only takes effect while no fixed investment cost is set. */
    method SetInvestmentFunction(f: InvestmentFunction)
      modifies this`investmentFunction
      ensures investmentFunction == if investmentCost.None? then Some(f) else old(investmentFunction)
    {
      if investmentCost.None? {
        investmentFunction := Some(f);
      }
    }

    /** `set_interest_rate` (warning range 0 to 0.20). */
    method SetInterestRate(rate: Option<real>)
      modifies this`interestRate, this`interestRateFactor
      ensures interestRate == rate
      ensures interestRateFactor == if rate.Some? then Some(RateFactor(rate.value)) else old(interestRateFactor)
    {
      interestRate := rate;
      if rate.Some? {
        interestRateFactor := Some(RateFactor(rate.value));
      }
    }

    /** `set_price_dev_factor` (warning range -0.25 to 0.25). */
    method SetPriceDevFactor(priceDev: Option<real>)
      modifies this`priceDev, this`priceDevFactor
      ensures this.priceDev == priceDev
      ensures priceDevFactor == if priceDev.Some? then Some(RateFactor(priceDev.value)) else old(priceDevFactor)
    {
      this.priceDev := priceDev;
      if priceDev.Some? {
        priceDevFactor := Some(RateFactor(priceDev.value));
      }
    }

    /** `set_risk_surcharge` (warning range 0 to 0.25). */
    method SetRiskSurcharge(riskSurcharge: Option<real>)
      modifies this`riskSurcharge, this`riskSurchargeFactor
      ensures this.riskSurcharge == riskSurcharge
      ensures riskSurchargeFactor == if riskSurcharge.Some? then Some(RateFactor(riskSurcharge.value)) else old(riskSurchargeFactor)
    {
      this.riskSurcharge := riskSurcharge;
      if riskSurcharge.Some? {
        riskSurchargeFactor := Some(RateFactor(riskSurcharge.value));
      }
    }
  }

  /** `OPEXFixParameters`. */
  class OPEXFixParameters {
    var name: Option<string>
    var yearlyFixedOpex: real
    var interestRate: Option<real>
    var interestRateFactor: Option<real>

    constructor (name: Option<string>, yearlyFixedOpex: real, interestRate: Option<real>)
      ensures this.name == name && this.yearlyFixedOpex == yearlyFixedOpex && this.interestRate == interestRate
      ensures interestRateFactor == if interestRate.Some? then Some(RateFactor(interestRate.value)) else None
    {
      this.name := name;
      this.yearlyFixedOpex := yearlyFixedOpex;
      this.interestRate := interestRate;
      interestRateFactor := None;
      new;
      SetInterestRate(interestRate);
    }

    /** `set_interest_rate` (warning range 0 to 0.20). */
    method SetInterestRate(rate: Option<real>)
      modifies this`interestRate, this`interestRateFactor
      ensures interestRate == rate
      ensures interestRateFactor == if rate.Some? then Some(RateFactor(rate.value)) else old(interestRateFactor)
    {
      interestRate := rate;
      if rate.Some? {
        interestRateFactor := Some(RateFactor(rate.value));
      }
    }
  }

  /** `Direction`: the cost dictionaries of one cost kind, per flow direction. */
  class Direction {
    var unit: Unit
    var costsIn: Option<map<string, real>>
    var costsOut: Option<map<string, real>>

    constructor (unit: Unit)
      ensures this.unit == unit && costsIn == None && costsOut == None
    {
      this.unit := unit;
      costsIn, costsOut := None, None;
    }
  }

  /** `_set_direction_costs`: 'in' sets the incoming costs, 'out' the outgoing ones, any other string changes nothing. */
  method SetDirectionCosts(parameter: Direction, direction: string, values: map<string, real>)
    modifies parameter
    ensures parameter.unit == old(parameter.unit)
    ensures parameter.costsIn == if direction == "in" then Some(values) else old(parameter.costsIn)
    ensures parameter.costsOut == if direction == "out" then Some(values) else old(parameter.costsOut)
  {
    if direction == "in" {
      parameter.costsIn := Some(values);
    } else if direction == "out" {
      parameter.costsOut := Some(values);
    }
  }

  /**
   * The unit checks of `StreamEconParameters.__post_init__`, in the source's
   * order; a cost kind that is None is not checked.
   */
  function StreamEconUnitCheck(amountUnit: Option<Unit>, yearlyUnit: Option<Unit>, powerUnit: Option<Unit>): (r: Option<ErrorClass>)
    ensures r.None? <==>
      (amountUnit.None? || amountUnit.value in {EuroPerKWh, EuroPerKg}) &&
      (yearlyUnit.None? || yearlyUnit.value == EuroPerYear) &&
      (powerUnit.None? || powerUnit.value == EuroPerKW)
    ensures r.Some? ==> r.value == EconomicDataClassError
  {
    if amountUnit.Some? && amountUnit.value !in {EuroPerKWh, EuroPerKg} then Some(EconomicDataClassError)
    else if yearlyUnit.Some? && yearlyUnit.value != EuroPerYear then Some(EconomicDataClassError)
    else if powerUnit.Some? && powerUnit.value != EuroPerKW then Some(EconomicDataClassError)
    else None
  }

  /** The default cost directions (€/kW, €/kWh, €/a) pass the unit checks. */
  lemma DefaultStreamEconUnitsValid()
    ensures StreamEconUnitCheck(Some(EuroPerKWh), Some(EuroPerYear), Some(EuroPerKW)).None?
    ensures StreamEconUnitCheck(Some(EuroPerKW), Some(EuroPerYear), Some(EuroPerKW)) == Some(EconomicDataClassError)
  {
  }

  /** `StreamEconParameters`, after a successful `__post_init__`. */
  class StreamEconParameters {
    var streamType: PortType
    var firstPaymentYear: int
    var powerRelatedCosts: Option<Direction>
    var amountRelatedCosts: Option<Direction>
    var yearlyFixedCosts: Option<Direction>
    var priceDev: Option<real>
    var interestRate: Option<real>
    var priceDevFactor: Option<real>
    var interestRateFactor: Option<real>

    constructor (streamType: PortType, firstPaymentYear: int, powerRelatedCosts: Option<Direction>,
                 amountRelatedCosts: Option<Direction>, yearlyFixedCosts: Option<Direction>,
                 priceDev: Option<real>, interestRate: Option<real>)
      ensures this.streamType == streamType && this.firstPaymentYear == firstPaymentYear
      ensures this.powerRelatedCosts == powerRelatedCosts && this.amountRelatedCosts == amountRelatedCosts
      ensures this.yearlyFixedCosts == yearlyFixedCosts
      ensures this.priceDev == priceDev && this.interestRate == interestRate
      ensures priceDevFactor == if priceDev.Some? then Some(RateFactor(priceDev.value)) else None
      ensures interestRateFactor == if interestRate.Some? then Some(RateFactor(interestRate.value)) else None
    {
      this.streamType := streamType;
      this.firstPaymentYear := firstPaymentYear;
      this.powerRelatedCosts := powerRelatedCosts;
      this.amountRelatedCosts := amountRelatedCosts;
      this.yearlyFixedCosts := yearlyFixedCosts;
      this.priceDev := priceDev;
      this.interestRate := interestRate;
      priceDevFactor, interestRateFactor := None, None;
      new;
      SetPriceDevFactor(priceDev);
      SetInterestRate(interestRate);
    }

    /** `set_interest_rate` (warning range 0 to 0.20). */
    method SetInterestRate(rate: Option<real>)
      modifies this`interestRate, this`interestRateFactor
      ensures interestRate == rate
      ensures interestRateFactor == if rate.Some? then Some(RateFactor(rate.value)) else old(interestRateFactor)
    {
      interestRate := rate;
      if rate.Some? {
        interestRateFactor := Some(RateFactor(rate.value));
      }
    }

    /** `set_price_dev_factor` (warning range -0.25 to 0.25). */
    method SetPriceDevFactor(priceDev: Option<real>)
      modifies this`priceDev, this`priceDevFactor
      ensures this.priceDev == priceDev
      ensures priceDevFactor == if priceDev.Some? then Some(RateFactor(priceDev.value)) else old(priceDevFactor)
    {
      this.priceDev := priceDev;
      if priceDev.Some? {
        priceDevFactor := Some(RateFactor(priceDev.value));
      }
    }
  }

  /**
   * Constructing `StreamEconParameters`: `__post_init__` raises
   * EconomicDataClassError when a cost kind carries the wrong unit.
   */
  method NewStreamEconParameters(streamType: PortType, firstPaymentYear: int, powerRelatedCosts: Option<Direction>,
                                 amountRelatedCosts: Option<Direction>, yearlyFixedCosts: Option<Direction>,
                                 priceDev: Option<real>, interestRate: Option<real>)
    returns (r: Result<StreamEconParameters>)
    ensures r.Err? <==> StreamEconUnitCheck(
      if amountRelatedCosts.Some? then Some(amountRelatedCosts.value.unit) else None,
      if yearlyFixedCosts.Some? then Some(yearlyFixedCosts.value.unit) else None,
      if powerRelatedCosts.Some? then Some(powerRelatedCosts.value.unit) else None).Some?
    ensures r.Err? ==> r.error == EconomicDataClassError
    ensures r.Ok? ==> fresh(r.value) && r.value.streamType == streamType && r.value.amountRelatedCosts == amountRelatedCosts
  {
    var check := StreamEconUnitCheck(
      if amountRelatedCosts.Some? then Some(amountRelatedCosts.value.unit) else None,
      if yearlyFixedCosts.Some? then Some(yearlyFixedCosts.value.unit) else None,
      if powerRelatedCosts.Some? then Some(powerRelatedCosts.value.unit) else None);
    var p := new StreamEconParameters(streamType, firstPaymentYear, powerRelatedCosts, amountRelatedCosts,
                                      yearlyFixedCosts, priceDev, interestRate);
    if check.Some? {
      r := Err(check.value);
    } else {
      r := Ok(p);
    }
  }

  /** The position of the first element whose name equals `name`, if any. */
  function FirstByName(names: seq<Option<string>>, name: Option<string>): (i: Option<nat>)
    ensures i.Some? ==> i.value < |names| && names[i.value] == name && forall j :: 0 <= j < i.value ==> names[j] != name
    ensures i.None? ==> forall j :: 0 <= j < |names| ==> names[j] != name
  {
    if names == [] then None
    else if names[0] == name then Some(0)
    else
      var rest := FirstByName(names[1..], name);
      if rest.Some? then Some(rest.value + 1) else None
  }

  /** `EconomicalParameters`: the component's CAPEX and fixed OPEX lists (None when not given). */
  class EconomicalParameters {
    var componentCapex: Option<seq<CAPEXParameters>>
    var fixedOpex: Option<seq<OPEXFixParameters>>

    constructor (componentCapex: Option<seq<CAPEXParameters>>, fixedOpex: Option<seq<OPEXFixParameters>>)
      ensures this.componentCapex == componentCapex && this.fixedOpex == fixedOpex
    {
      this.componentCapex := componentCapex;
      this.fixedOpex := fixedOpex;
    }

    /** `get_capex_element_by_name`: the first element with that name, or None (also for a None list). */
    method GetCapexElementByName(name: Option<string>) returns (r: Option<CAPEXParameters>)
      ensures componentCapex.None? ==> r.None?
      ensures componentCapex.Some? ==>
        (r.Some? <==> exists j :: 0 <= j < |componentCapex.value| && componentCapex.value[j].name == name)
      ensures r.Some? ==> componentCapex.Some? && r.value.name == name
      ensures r.Some? ==> exists i :: 0 <= i < |componentCapex.value| && componentCapex.value[i] == r.value && (forall j :: 0 <= j < i ==> componentCapex.value[j].name != name)
    {
      if componentCapex.None? {
        return None;
      }
      var elements := componentCapex.value;
      var names := seq(|elements|, i requires 0 <= i < |elements| reads elements => elements[i].name);
      var i := FirstByName(names, name);
      assert forall j :: 0 <= j < |elements| ==> names[j] == elements[j].name;
      if i.Some? {
        r := Some(elements[i.value]);
        assert elements[i.value].name == name && forall j :: 0 <= j < i.value ==> elements[j].name != name;
      } else {
        r := None;
        assert forall j :: 0 <= j < |elements| ==> names[j] == elements[j].name;
      }
    }

    /** `get_opex_element_by_name`: the first fixed-OPEX element with that name, or None. */
    method GetOpexElementByName(name: Option<string>) returns (r: Option<OPEXFixParameters>)
      ensures fixedOpex.None? ==> r.None?
      ensures fixedOpex.Some? ==>
        (r.Some? <==> exists j :: 0 <= j < |fixedOpex.value| && fixedOpex.value[j].name == name)
      ensures r.Some? ==> fixedOpex.Some? && r.value.name == name
      ensures r.Some? ==> exists i :: 0 <= i < |fixedOpex.value| && fixedOpex.value[i] == r.value && (forall j :: 0 <= j < i ==> fixedOpex.value[j].name != name)
    {
      if fixedOpex.None? {
        return None;
      }
      var elements := fixedOpex.value;
      var names := seq(|elements|, i requires 0 <= i < |elements| reads elements => elements[i].name);
      var i := FirstByName(names, name);
      assert forall j :: 0 <= j < |elements| ==> names[j] == elements[j].name;
      if i.Some? {
        r := Some(elements[i.value]);
        assert elements[i.value].name == name && forall j :: 0 <= j < i.value ==> elements[j].name != name;
      } else {
        r := None;
        assert forall j :: 0 <= j < |elements| ==> names[j] == elements[j].name;
      }
    }
  }
}
