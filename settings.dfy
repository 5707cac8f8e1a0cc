/** Model-wide technical and economic settings (basic/Settings.py). */
module Settings {
  import opened Wrappers

  /** `BasicTechnicalSettings`. */
  class BasicTechnicalSettings {
    var timeResolution: Option<int>
    var absoluteModelError: real
    var timeoutMax: int

    /** The dataclass with its defaults: a tolerance of 1e-12 and three attempts. */
    constructor (timeResolution: Option<int>)
      ensures this.timeResolution == timeResolution
      ensures absoluteModelError == 0.000000000001 && timeoutMax == 3
    {
      this.timeResolution := timeResolution;
      absoluteModelError := 0.000000000001;
      timeoutMax := 3;
    }

    /** The dataclass with every field given. */
    constructor WithValues(timeResolution: Option<int>, absoluteModelError: real, timeoutMax: int)
      ensures this.timeResolution == timeResolution
      ensures this.absoluteModelError == absoluteModelError && this.timeoutMax == timeoutMax
    {
      this.timeResolution := timeResolution;
      this.absoluteModelError := absoluteModelError;
      this.timeoutMax := timeoutMax;
    }

    method SetTimeResolution(tr: Option<int>)
      modifies this
      ensures timeResolution == tr
      ensures absoluteModelError == old(absoluteModelError) && timeoutMax == old(timeoutMax)
    {
      timeResolution := tr;
    }
  }

  /** `calculate_total_time_period`: end − start + 1, or None when a year is missing. */
  function TotalTimePeriod(startYear: Option<int>, endYear: Option<int>): (p: Option<int>)
    ensures p.Some? <==> startYear.Some? && endYear.Some?
  {
    if endYear.Some? && startYear.Some? then Some(endYear.value - startYear.value + 1) else None
  }

  /** The years from start to end inclusive. */
  function YearsBetween(startYear: int, endYear: int): (years: set<int>)
    ensures forall y :: y in years ==> startYear <= y <= endYear
    decreases endYear - startYear
  {
    if endYear < startYear then {} else YearsBetween(startYear, endYear - 1) + {endYear}
  }

  /**
   * Setting the start year 2025 on the range 2020-2040: as written the range
   * becomes 2020-2025, six years, where the intended 2025-2040 has sixteen.
   */
  lemma StartYearAsWrittenShortensRange()
    ensures TotalTimePeriod(Some(2020), Some(2025)) == Some(6)
    ensures TotalTimePeriod(Some(2025), Some(2040)) == Some(16)
  {
  }

  /** For start ≤ end the total time period is the number of calendar years from start to end inclusive. */
  lemma {:induction false} TotalTimePeriodCountsYears(startYear: int, endYear: int)
    requires startYear <= endYear
    ensures TotalTimePeriod(Some(startYear), Some(endYear)) == Some(|YearsBetween(startYear, endYear)|)
    decreases endYear - startYear
  {
    if startYear < endYear {
      TotalTimePeriodCountsYears(startYear, endYear - 1);
      assert endYear !in YearsBetween(startYear, endYear - 1);
    } else {
      assert YearsBetween(startYear, endYear) == {startYear};
    }
  }

  /** A rate's factor, rate + 1 (None stands for a rate of None). */
  function Factor(rate: Option<real>): Option<real>
  {
    if rate.Some? then Some(rate.value + 1.0) else None
  }

  /** `BasicEconomicalSettings`. */
  class BasicEconomicalSettings {
    var referenceYear: Option<int>
    var startYear: Option<int>
    var endYear: Option<int>
    var basicInterestRate: Option<real>
    var estimatedInflationRate: Option<real>
    var eegLevyForUseOfSelfGeneratedPower: real
    var basicInterestRateFactor: Option<real>
    var estimatedInflationRateFactor: Option<real>
    var totalTimePeriod: Option<int>

    /** The dataclass's construction followed by `__post_init__`: both factors and the period are derived. */
    constructor (referenceYear: Option<int>, startYear: Option<int>, endYear: Option<int>,
                 basicInterestRate: Option<real>, estimatedInflationRate: Option<real>, eeg: real)
      ensures this.referenceYear == referenceYear && this.startYear == startYear && this.endYear == endYear
      ensures this.basicInterestRate == basicInterestRate && this.estimatedInflationRate == estimatedInflationRate
      ensures eegLevyForUseOfSelfGeneratedPower == eeg
      ensures basicInterestRateFactor == Factor(basicInterestRate)
      ensures estimatedInflationRateFactor == Factor(estimatedInflationRate)
      ensures totalTimePeriod == TotalTimePeriod(startYear, endYear)
    {
      this.referenceYear := referenceYear;
      this.startYear := startYear;
      this.endYear := endYear;
      this.basicInterestRate := basicInterestRate;
      this.estimatedInflationRate := estimatedInflationRate;
      eegLevyForUseOfSelfGeneratedPower := eeg;
      basicInterestRateFactor := None;
      estimatedInflationRateFactor := None;
      totalTimePeriod := None;
      new;
      SetBasicInterestRate(basicInterestRate);
      SetEstimatedInflationRate(estimatedInflationRate);
      CalculateTotalTimePeriod();
    }

    /** The defaults: no years, 5 % interest, 2 % inflation, no levy. */
    constructor Default()
      ensures referenceYear == None && startYear == None && endYear == None
      ensures basicInterestRate == Some(0.05) && estimatedInflationRate == Some(0.02)
      ensures basicInterestRateFactor == Some(1.05) && estimatedInflationRateFactor == Some(1.02)
      ensures totalTimePeriod == None && eegLevyForUseOfSelfGeneratedPower == 0.0
    {
      referenceYear, startYear, endYear := None, None, None;
      basicInterestRate, estimatedInflationRate := Some(0.05), Some(0.02);
      eegLevyForUseOfSelfGeneratedPower := 0.0;
      basicInterestRateFactor, estimatedInflationRateFactor := Some(1.05), Some(1.02);
      totalTimePeriod := None;
    }

    /** `set_estimated_inflation_rate`: an out-of-range rate only logs; a None rate keeps the old factor. */
    method SetEstimatedInflationRate(rate: Option<real>)
      modifies this
      ensures estimatedInflationRate == rate
      ensures estimatedInflationRateFactor == if rate.Some? then Factor(rate) else old(estimatedInflationRateFactor)
      ensures basicInterestRate == old(basicInterestRate) && basicInterestRateFactor == old(basicInterestRateFactor)
      ensures startYear == old(startYear) && endYear == old(endYear) && totalTimePeriod == old(totalTimePeriod)
      ensures referenceYear == old(referenceYear) && eegLevyForUseOfSelfGeneratedPower == old(eegLevyForUseOfSelfGeneratedPower)
    {
      estimatedInflationRate := rate;
      if rate.Some? {
        estimatedInflationRateFactor := Some(rate.value + 1.0);
      }
    }

    /** `set_basic_interest_rate`. */
    method SetBasicInterestRate(rate: Option<real>)
      modifies this
      ensures basicInterestRate == rate
      ensures basicInterestRateFactor == if rate.Some? then Factor(rate) else old(basicInterestRateFactor)
      ensures estimatedInflationRate == old(estimatedInflationRate) && estimatedInflationRateFactor == old(estimatedInflationRateFactor)
      ensures startYear == old(startYear) && endYear == old(endYear) && totalTimePeriod == old(totalTimePeriod)
      ensures referenceYear == old(referenceYear) && eegLevyForUseOfSelfGeneratedPower == old(eegLevyForUseOfSelfGeneratedPower)
    {
      basicInterestRate := rate;
      if rate.Some? {
        basicInterestRateFactor := Some(rate.value + 1.0);
      }
    }

    /** `set_start_year`: as written it stores the year in `end_year`; `start_year` is left unchanged. */
    method SetStartYear(year: Option<int>)
      modifies this
      ensures endYear == year && startYear == old(startYear)
      ensures totalTimePeriod == TotalTimePeriod(startYear, year)
      ensures basicInterestRate == old(basicInterestRate) && estimatedInflationRate == old(estimatedInflationRate)
      ensures basicInterestRateFactor == old(basicInterestRateFactor) && estimatedInflationRateFactor == old(estimatedInflationRateFactor)
    {
      endYear := year;
      CalculateTotalTimePeriod();
    }

    /**
     * `set_start_year` as its name and documentation intend: the year becomes
     * the start of the calculation range, the end year is kept, and the period
     * is recomputed from both.
     */
    method SetStartYearIntended(year: Option<int>)
      modifies this
      ensures startYear == year && endYear == old(endYear)
      ensures totalTimePeriod == TotalTimePeriod(year, endYear)
      ensures basicInterestRate == old(basicInterestRate) && estimatedInflationRate == old(estimatedInflationRate)
      ensures basicInterestRateFactor == old(basicInterestRateFactor) && estimatedInflationRateFactor == old(estimatedInflationRateFactor)
    {
      startYear := year;
      CalculateTotalTimePeriod();
    }

    /** `set_end_year`. */
    method SetEndYear(year: Option<int>)
      modifies this
      ensures endYear == year && startYear == old(startYear)
      ensures totalTimePeriod == TotalTimePeriod(startYear, year)
      ensures basicInterestRate == old(basicInterestRate) && estimatedInflationRate == old(estimatedInflationRate)
      ensures basicInterestRateFactor == old(basicInterestRateFactor) && estimatedInflationRateFactor == old(estimatedInflationRateFactor)
    {
      endYear := year;
      CalculateTotalTimePeriod();
    }

    /** `calculate_total_time_period`. */
    method CalculateTotalTimePeriod()
      modifies this
      ensures totalTimePeriod == TotalTimePeriod(startYear, endYear)
      ensures startYear == old(startYear) && endYear == old(endYear) && referenceYear == old(referenceYear)
      ensures basicInterestRate == old(basicInterestRate) && estimatedInflationRate == old(estimatedInflationRate)
      ensures basicInterestRateFactor == old(basicInterestRateFactor) && estimatedInflationRateFactor == old(estimatedInflationRateFactor)
      ensures eegLevyForUseOfSelfGeneratedPower == old(eegLevyForUseOfSelfGeneratedPower)
    {
      totalTimePeriod := TotalTimePeriod(startYear, endYear);
    }
  }
}
