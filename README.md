# H2-Index-III core, modelled in Dafny

H2-Index-III simulates hydrogen and energy systems in time steps. A system is a set of components:
- sources, consumers, grids and storages (gas storages included);
- each with ports of a stream type (electricity, hydrogen, ...) and a direction;
- linked by branches, one branch per stream type and group of connections.

At each time step the model solves every branch in a computed order:
- First the components fixed on the branch are run. They set their streams from profiles or limits.
- Then the adaptive components are asked to take up what is left, in priority order.
- When the branch balance is still not zero, loop control writes values to the ports named in its rules, and the branch is run again. This repeats up to a timeout.

Afterwards the model:
- resets the loop controls;
- marks the ports calculated;
- collects every component's status;
- saves each component's status and each port's state into their histories.

This project models that core:
- the model (`ModelBase`): building the branches from the connections, solving one step, running all steps, full-load hours;
- the branch solver (`Branches`): the balance, the fixed/adaptive phases, loop control and the retry loop;
- ports, with their stream limits, profiles and history (`Ports`);
- the generic component and its unit kinds: source, consumer, grid, storage, gas storage (`GenericUnits`, `Components`, `UnitRules`, `Storages`);
- settings, stream types and quantities, custom errors, unit conversion;
- the `range_limit` and id helpers, Excel coordinates, `get_cmp_keys`;
- the economical, technical and export data classes.

Modelling choices:
- Objects whose fields the source updates in place (model, branch, component, port, port results, counters, settings) are classes.
- Everything else is datatypes and functions.
- Python exceptions are `Err` values of a `Result`; their classes follow the custom errors.
- `None` is an `Option`.
- Streams are reals. Bounds, pressures and temperatures that may be infinite are `Ext` values.

## Model

Glue members have no row of their own; what they do is stated on the members they call. `Branches.RunComponent` dispatches a component to `RunStorageGas` or `RunUnit` (Branches.py), `Branches.Branch.Setup` is `Prepare` followed, on a rerun, by `MarkCalculated`, and `ModelBase.Model.Untouched` and `ModelBase.Model.FootprintsKept` are proof steps about the model's frame.

| member | source | states |
|---|---|---|
| RangeLimits.RangeLimit | base_python/source/helper/range_limit.py:4-16 | a value below the lower bound becomes the lower bound, one above the upper bound becomes the upper bound (the upper test wins with crossed bounds), a value in range is returned unchanged, and with ordered bounds the result always lies in the range |
| RangeLimits.RangeLimitIdempotent | base_python/source/helper/range_limit.py:4-16 | clamping an already clamped value changes nothing |
| RangeLimits.RangeLimitMonotone | base_python/source/helper/range_limit.py:4-16 | clamping preserves the order of two values |
| RangeLimits.InRangeIffFixedPoint | base_python/source/helper/range_limit.py:19-29 | `in_range` with numeric bounds holds exactly for the values that `range_limit` leaves unchanged |
| RangeLimits.InRangeNeedsNumericBounds | base_python/source/helper/range_limit.py:19-29 | `in_range` is false whenever a bound is not a number |
| Misc.Digits | base_python/source/helper/misc.py:19 | `str(n)` of a non-negative integer is a non-empty string of decimal digits, one digit long below 10 and at most two below 100 |
| Misc.RJust | base_python/source/helper/misc.py:19 | `rjust` keeps the string as its suffix and pads it on the left with the fill character up to the width |
| Misc.CreateId | base_python/source/helper/misc.py:1-19 | an id is the letter followed by digits, exactly three characters for numbers 0 to 99 and longer above 99 |
| Misc.CreateIdRoundTrip | base_python/source/helper/misc.py:1-19 | the letter and the number can be read back from the id of every non-negative number, leading zero included |
| Misc.CreateIdInjective | base_python/source/helper/misc.py:1-19 | distinct counters give distinct ids, so ids built from a counter are unique |
| Misc.FirstIdsExamples | base_python/source/helper/misc.py:19 | the first branch id is B00 and the first component id C01 |
| Misc.LongIdExample | base_python/source/helper/misc.py:17-19 | a number above 99 gives a four-character id rather than an error |
| Counters.IdCounters.NextComponentId | base_python/source/modules/GenericUnit.py:371-393 | the component counter is incremented before formatting, so ids are C01, C02, … |
| Counters.IdCounters.NextBranchId | base_python/source/model_base/Branches.py:55-72 | the branch counter is formatted before it is incremented, so ids are B00, B01, … |
| Counters.IdCounters.ResetIDs | base_python/source/model_base/ModelBase.py:95-101 | both counters are back at zero |
| Units.SymbolInjective | base_python/source/basic/Units.py:9-28 | distinct units have distinct string values (the duplicate value 'kg/m³' makes `kg_per_norm_cubic_meter` an alias) |
| Quantities.GetUnitOfQuantity | base_python/source/basic/Quantities.py:48-56 | a quantity has a unit exactly when it is in the physical or economical table, and the physical table is consulted first |
| Quantities.UnitsOfQuantities | base_python/source/basic/Quantities.py:31-45 | pressure is in Pa, temperature in K, mass streams in kg, power streams in kW, media costs in the three currency units; stream, mass fraction and price development factor have no unit |
| Quantities.TripleOnlyForMediaCosts | base_python/source/basic/Quantities.py:31-33 | only media costs have a triple of alternative units |
| Streamtypes.StreamDirection.Value | base_python/source/basic/Streamtypes.py:7-10 | the direction values are -1, 1 and 0, zero exactly for bidirectional and negative exactly for streams into the component |
| Streamtypes.DirectionOfSign | base_python/source/basic/Streamtypes.py:7-10 | every sign is the value of exactly the direction returned |
| Streamtypes.NamesDisjoint | base_python/source/basic/Streamtypes.py:19-41 | commodity names identify commodities and no mass commodity is named like an energy commodity |
| Streamtypes.GetStreamUnit | base_python/source/basic/Streamtypes.py:62-63 | a commodity has a unit exactly when it is listed |
| Streamtypes.GetStreamType | base_python/source/basic/Streamtypes.py:66-67 | a commodity has a stream type exactly when it is listed |
| Streamtypes.StreamTablesAgree | base_python/source/basic/Streamtypes.py:44-59 | the unit and type tables list the same commodities; power is in kW and mass in kg; unlisted gases have neither |
| CustomErrors.Parent | base_python/source/basic/CustomErrors.py:1-24 | every class but the root has a parent one level higher in the hierarchy |
| CustomErrors.IsA | base_python/source/basic/CustomErrors.py:1-24 | every error class is caught by `except Exception` |
| CustomErrors.IsADepth | base_python/source/basic/CustomErrors.py:1-24 | a class is only a subclass of classes at its own level or above, and at its own level only of itself |
| CustomErrors.IsATransitive | base_python/source/basic/CustomErrors.py:1-24 | the subclass relation is transitive |
| CustomErrors.IsAAntisymmetric | base_python/source/basic/CustomErrors.py:1-24 | two classes that are subclasses of each other are the same |
| CustomErrors.BranchErrorHierarchy | base_python/source/basic/CustomErrors.py:11-16 | a branch connection error is caught as a branch error and as a model error, not the other way round, and cost-function errors are not model errors |
| Conversion.Resolution2Second | base_python/source/helper/Conversion.py:23-33 | a step of m minutes lasts 60·m seconds: the seconds, read back in minutes, are m |
| Conversion.Second2Resolution | base_python/source/helper/Conversion.py:35-43 | the result is the reciprocal of `resolution2second`, and a zero resolution raises ZeroDivisionError |
| Conversion.Resolution2Hour | base_python/source/helper/Conversion.py:45-54 | a step in hours is its length in seconds divided by 3600 |
| Conversion.Hour2Resolution | base_python/source/helper/Conversion.py:56-65 | the result is the reciprocal of `resolution2hour`, and a zero resolution raises ZeroDivisionError |
| Conversion.K2C | base_python/source/helper/Conversion.py:109-119 | the Celsius value lies 273.15 below the Kelvin value |
| Conversion.C2K | base_python/source/helper/Conversion.py:121-131 | the Kelvin value lies 273.15 above the Celsius value |
| Conversion.Pa2bar | base_python/source/helper/Conversion.py:133-143 | the bar value times 10^5 is the Pascal value |
| Conversion.Bar2Pa | base_python/source/helper/Conversion.py:145-155 | the Pascal value divided by 10^5 is the bar value |
| Conversion.ConversionRoundTrips | base_python/source/helper/Conversion.py:88-156 | Kelvin/Celsius and Pascal/bar conversions undo each other; 273.15 K is 0 °C and 10^5 Pa is 1 bar |
| Settings.BasicTechnicalSettings.constructor | base_python/source/basic/Settings.py:27-31 | the technical settings default to an absolute model error of 1e-12 and three attempts |
| Settings.BasicTechnicalSettings.WithValues | base_python/source/basic/Settings.py:27-31 | every field takes the value given |
| Settings.BasicTechnicalSettings.SetTimeResolution | base_python/source/model_base/ModelBase.py:222 | the model's time resolution is stored in the settings and nothing else changes |
| Settings.TotalTimePeriod | base_python/source/basic/Settings.py:96-101 | the period is defined exactly when both years are given |
| Settings.TotalTimePeriodCountsYears | base_python/source/basic/Settings.py:96-101 | for start ≤ end the period is the number of calendar years from start to end inclusive |
| Settings.BasicEconomicalSettings.constructor | base_python/source/basic/Settings.py:34-106 | after construction both factors are rate + 1 (None for a None rate) and the total period is derived from the years |
| Settings.BasicEconomicalSettings.Default | base_python/source/basic/Settings.py:36-41 | by default no years are set, interest is 5 % (factor 1.05), inflation 2 % (factor 1.02) and the levy 0 |
| Settings.BasicEconomicalSettings.SetEstimatedInflationRate | base_python/source/basic/Settings.py:57-62 | the rate is stored, its factor becomes rate + 1 unless the rate is None, an out-of-range rate is still stored, and every other setting is kept |
| Settings.BasicEconomicalSettings.SetBasicInterestRate | base_python/source/basic/Settings.py:64-69 | the rate is stored, its factor becomes rate + 1 unless the rate is None, and every other setting is kept |
| Settings.BasicEconomicalSettings.SetStartYear | base_python/source/basic/Settings.py:71-81 | as written the given year lands in `end_year` while `start_year` is kept, and the period is recomputed from them |
| Settings.BasicEconomicalSettings.SetStartYearIntended | base_python/source/basic/Settings.py:71-81 | the intended `set_start_year`: the year becomes the start year, the end year is kept and the period is recomputed from both |
| Settings.StartYearAsWrittenShortensRange | base_python/source/basic/Settings.py:80 | on a 2020-2040 range the start year 2025, written to the end year, gives a six-year period where the intended range has sixteen years |
| Settings.BasicEconomicalSettings.SetEndYear | base_python/source/basic/Settings.py:83-94 | the end year is stored and the period is recomputed from the start year and it |
| Settings.BasicEconomicalSettings.CalculateTotalTimePeriod | base_python/source/basic/Settings.py:96-101 | the period is end − start + 1 when both years are set, None otherwise, and nothing else changes |
| ExcelCoordinates.LetterValue | base_python/source/helper/ExcelCoordinates.py:9 | a letter's value is 1 to 26 in either case |
| ExcelCoordinates.Col2Num | base_python/source/helper/ExcelCoordinates.py:5-10 | the loop computes the bijective base-26 value of the column name, skipping characters that are not ASCII letters |
| ExcelCoordinates.ColumnName | base_python/source/helper/ExcelCoordinates.py:12-21 | a column name is made of capital letters and is empty only for 0 |
| ExcelCoordinates.Num2Col | base_python/source/helper/ExcelCoordinates.py:12-21 | a positive number gives its column name; as written a negative number gives "" and 0 gives "Z" |
| ExcelCoordinates.ColumnValueOfName | base_python/source/helper/ExcelCoordinates.py:5-21 | `col2num(num2col(n)) == n` for every column number |
| ExcelCoordinates.ColumnNameOfValue | base_python/source/helper/ExcelCoordinates.py:5-21 | `num2col(col2num(s)) == s` for every non-empty upper-case name |
| ExcelCoordinates.ColumnValueCaseInsensitive | base_python/source/helper/ExcelCoordinates.py:7-9 | column names are read without regard to case |
| ExcelCoordinates.ColumnExamples | base_python/source/helper/ExcelCoordinates.py:5-21 | A is 1, z is 26, AA is 27 and 28 is AB |
| ExcelCoordinates.LetterPrefix | base_python/source/helper/ExcelCoordinates.py:27 | the result is the length of the longest run of ASCII letters at the start |
| ExcelCoordinates.CoordinateFromString | base_python/source/helper/ExcelCoordinates.py:24-30 | a cell reference parses exactly when it is letters followed by digits (a single final newline allowed, as `$` allows it); anything else raises ValueError |
| ExcelCoordinates.CoordinateRoundTrip | base_python/source/helper/ExcelCoordinates.py:24-30 | the name of a column followed by a row number parses back to that column and row |
| ExcelCoordinates.Split | base_python/source/helper/ExcelCoordinates.py:39 | `split` gives at least one piece and no piece holds the separator |
| ExcelCoordinates.SplitJoin | base_python/source/helper/ExcelCoordinates.py:39 | joining the pieces of a split with the separator gives the string back |
| ExcelCoordinates.AreaFromString | base_python/source/helper/ExcelCoordinates.py:36-40 | an area parses exactly when it has one ':' between two valid cell references; anything else raises ValueError |
| GetCmpKeys.FirstIndex | base_python/source/helper/GetCmpKeys.py:10 | the first position of a key holds it and no earlier position does |
| GetCmpKeys.AppendNewExtends | base_python/source/helper/GetCmpKeys.py:9-11 | appending unseen keys keeps what was collected as a prefix and collects exactly the keys of either list |
| GetCmpKeys.AppendNewDistinct | base_python/source/helper/GetCmpKeys.py:9-11 | the `not key in keys` test keeps a duplicate-free list duplicate-free |
| GetCmpKeys.AppendNewConcat | base_python/source/helper/GetCmpKeys.py:5-11 | collecting over two lists one after another is collecting over their concatenation |
| GetCmpKeys.AppendNewFirstSeenOrder | base_python/source/helper/GetCmpKeys.py:9-11 | keys are kept in the order of their first occurrence |
| GetCmpKeys.FirstIndexPrefix | base_python/source/helper/GetCmpKeys.py:10 | extending a list does not move the first occurrence of a key it already holds |
| GetCmpKeys.FirstIndexAppend | base_python/source/helper/GetCmpKeys.py:10-11 | a new key first occurs where it is appended |
| GetCmpKeys.GetCmpKeys | base_python/source/helper/GetCmpKeys.py:3-13 | the nested loops collect, without repetition, the keys of every listed name whose entry is non-empty, in first-seen order |
| GetCmpKeys.CmpKeysDistinct | base_python/source/helper/GetCmpKeys.py:3-13 | the collected keys have no duplicates |
| GetCmpKeys.CmpKeysMembers | base_python/source/helper/GetCmpKeys.py:3-13 | a key is collected exactly when some listed name has a non-empty entry holding it |
| GetCmpKeys.CmpKeysOrder | base_python/source/helper/GetCmpKeys.py:3-13 | collected keys are ordered by their first occurrence over the names in order |
| Ports.LimitOrderAsWritten | base_python/source/model_base/Port.py:187-198 | the stored pair is the given pair or its swap, and when it is swapped it is in descending order |
| Ports.LimitOrderAsWrittenKeepsFarBoundFirst | base_python/source/model_base/Port.py:195-197 | the limit pair (10, 5) is stored unchanged, so the bound of larger magnitude stays first |
| Ports.LimitOrder | base_python/source/model_base/Port.py:195-197 | the stored pair has its bound of smaller magnitude first, and a pair already in that order is kept |
| Ports.LimitOrderDiffersOnlyOnDescendingPairs | base_python/source/model_base/Port.py:187-217 | the reorder as written and as intended differ exactly on pairs whose first bound is larger both in magnitude and in value, so they agree on every ascending pair |
| Ports.StreamLimited | base_python/source/model_base/Port.py:369-402 | with limits set, a value short of the minimum load becomes 0, otherwise it is clamped into the sorted limits, so the result is 0 or lies within the limits |
| Ports.StreamLimitedKeepsAdmissibleValues | base_python/source/model_base/Port.py:369-402 | a value within the limits that is not short of the minimum load is returned unchanged |
| Ports.StreamLimitedKeepsSide | base_python/source/model_base/Port.py:369-402 | limits on one side of zero keep the result on that side |
| Ports.LimitedValue | base_python/source/model_base/Port.py:465-479 | zero and values against the port's direction become 0; with limits, a one-way port applies `get_stream_limited_value` and a bidirectional port `range_limit`; without limits the value passes |
| Ports.BinaryGate | base_python/source/model_base/Port.py:481-490 | a non-zero value is kept only when the binary profile of its direction, if any, holds 1 at the run count, and is set to 0 otherwise; reading past that profile raises IndexError |
| Ports.CheckedValue | base_python/source/model_base/Port.py:448-492 | a zero value or one against the port's direction is checked to 0; otherwise the result is the limited value or 0, and the only error is IndexError |
| Ports.CheckedValueRespectsSign | base_python/source/model_base/Port.py:448-492 | the checked value of a one-way port never flows against the port, provided its limits reach into the port's direction |
| Ports.CheckedValueWithinLimits | base_python/source/model_base/Port.py:448-492 | a non-zero checked value lies within the port's limits |
| Ports.CheckedValueWithoutLimits | base_python/source/model_base/Port.py:476-477 | without limits or binary profile, an admissible value is stored exactly as given |
| Ports.LimitedValueIdempotent | base_python/source/model_base/Port.py:448-479 | checking an already checked value again does not change it |
| Ports.StoreProfile | base_python/source/model_base/Port.py:95-124 | a one-signed profile replaces the entry of the matching one-way direction; a mixed profile goes into the bidirectional entry of a bidirectional port and raises KeyError when that entry is missing; anything else is only logged; at most one direction is added |
| Ports.StoreProfileNeverCreatesBidirectionalEntry | base_python/source/model_base/Port.py:95-124 | no profile is ever stored under a bidirectional entry that did not exist before |
| Ports.ProfileValuesAt | base_python/source/model_base/Port.py:259-273 | the answer maps every profile to its value at the run count, and a profile that is too short raises IndexError |
| Ports.ProfileValuesAsWritten | base_python/source/model_base/Port.py:247-277 | with a sign given, a missing entry raises KeyError; without one, a port whose own sign has no entry gets None, because the one-way test always holds |
| Ports.ProfileValuesAsWrittenReads | base_python/source/model_base/Port.py:247-277 | a value found is the profile value at the run count under the given sign, or else under the port's own sign; None only when no sign is given and the port's own sign has no entry |
| Ports.OnlyDirection | base_python/source/model_base/Port.py:270-272 | for a single stored direction, this is that direction |
| Ports.ProfileValues | base_python/source/model_base/Port.py:247-277 | the intended lookup agrees with the code for given signs and one-way ports; a bidirectional port reads its only stored profile, and with none or two profiles the answer stays empty |
| Ports.ProfileRoundTrip | base_python/source/model_base/Port.py:247-277 | a profile stored on a one-way port is read back at every step within it |
| Ports.BidirectionalProfileLostAsWritten | base_python/source/model_base/Port.py:247-277 | as written, a bidirectional port never reads back a profile stored on it, while the intended lookup returns it |
| Ports.KnownStreams | base_python/source/model_base/Port.py:59 | the streams that are not None are at most as many as the history |
| Ports.KnownStreamsOfComplete | base_python/source/model_base/Port.py:59 | with no None entry, the known streams are the whole history |
| Ports.SplitStep | base_python/source/model_base/Port.py:55-72 | recording one more stream keeps the per-direction split entry by entry and the running maxima at the extremes of the split |
| Ports.Port.Kept | base_python/source/model_base/Port.py:55-72 | the port's history bookkeeping is untouched by any change that leaves its split, maxima and history alone |
| Ports.Port.Energy | base_python/source/model_base/Port_Energy.py:10-25 | a new energy port has no stream, limits or profiles, and an empty stream history; it gets its type and canonical unit unless the given unit differs from the canonical one |
| Ports.Port.Mass | base_python/source/model_base/Port_Mass.py:25-64 | a new mass port has four empty history lists, empty mass fractions, the given pressure and temperature marked uncalculated, and the other statuses at 1 |
| Ports.Port.CheckPortValue | base_python/source/model_base/Port.py:448-492 | the port checks a stream against its own sign, limits and binary profile, with the properties proved for `CheckedValue` |
| Ports.Port.StreamOutcome | base_python/source/model_base/Port.py:159-171 | `set_stream` succeeds exactly when the check succeeds with a finite value, and stores that value |
| Ports.Port.GetStreamLimitedValue | base_python/source/model_base/Port.py:369-402 | with limits the value is limited as `StreamLimited` says; without limits, reading them raises IndexError |
| Ports.Port.GetValueLimits | base_python/source/model_base/Port.py:295-305 | only non-empty limits are reported, and only the stream can have any |
| Ports.Port.GetStreamLimits | base_python/source/model_base/Port.py:279-285 | the stream limits are the stream entry of the reported limits, None when unset |
| Ports.Port.GetProfileValues | base_python/source/model_base/Port.py:247-277 | the port looks up its profiles as the code is written, including its always-true one-way test |
| Ports.Port.GetAllProperties | base_python/source/model_base/Port_Mass.py:242-253 | a mass port reports pressure, temperature, mass fractions and stream; an energy port only its stream (Port_Energy.py:74-82) |
| Ports.Port.SetStream | base_python/source/model_base/Port.py:159-171 | the stored stream is the checked value; a missing value raises TypeError, a failed check leaves the stream unchanged |
| Ports.Port.SetMaximumStream | base_python/source/model_base/Port.py:145-157 | the second stored limit is set through `set_stream`; without limits the call raises IndexError and changes nothing |
| Ports.Port.ProfileOutcome | base_python/source/model_base/Port.py:173-185 | `set_profile_stream` sets the checked stream value of the profile at the run count; a missing profile raises TypeError and a profile without a stream entry raises KeyError |
| Ports.Port.SetProfileStream | base_python/source/model_base/Port.py:173-185 | the stream becomes the checked profile value, or stays unchanged on error |
| Ports.Port.UpdateStreamLimit | base_python/source/model_base/Port.py:187-198 | the limits are replaced by the pair in the order the magnitude test leaves it |
| Ports.Port.SetStreamLimit | base_python/source/model_base/Port.py:203-217 | limits are only set when none exist yet; existing limits are kept |
| Ports.Port.ResetStreamLimits | base_python/source/model_base/Port.py:200-201 | the port has no limits afterwards |
| Ports.Port.SetPortProfile | base_python/source/model_base/Port.py:95-124 | the port's profiles become what `StoreProfile` gives, and are unchanged on KeyError |
| Ports.Port.SetPortBinaryProfile | base_python/source/model_base/Port.py:85-93 | the binary profile of the given direction is replaced and the others kept |
| Ports.Port.SetFixedStatus | base_python/source/model_base/Port.py:135-143 | the fixed status is the given one |
| Ports.Port.SetLinkedBranch | base_python/source/model_base/Port.py:219-227 | the port is linked to the given branch |
| Ports.Port.SaveState | base_python/source/model_base/Port.py:55-72 | the stream is appended to the history (for a mass port, also pressure, temperature and mass fractions: Port_Mass.py:255-264); a known stream extends the direction split and updates both maxima; the port stays well formed |
| Ports.Port.ResetHistory | base_python/source/model_base/Port.py:49-54 | all histories and the split are empty and both maxima are 0 (a mass port also marks every property calculated: Port_Mass.py:66-75); the port is well formed |
| Ports.Port.SetPressure | base_python/source/model_base/Port_Mass.py:116-125 | the pressure is stored and marked uncalculated, and the fluid is flagged for an update |
| Ports.Port.SetTemperature | base_python/source/model_base/Port_Mass.py:127-136 | the temperature is stored and marked uncalculated, and the fluid is flagged for an update |
| Ports.Port.SetMassFraction | base_python/source/model_base/Port_Mass.py:138-147 | the given fractions are merged in, the existing keys keep their order, and, as written, the temperature (not the mass fraction) is marked uncalculated |
| Ports.Port.SetStatusCalculated | base_python/source/model_base/Port_Mass.py:100-106 | on a mass port every property is marked calculated; the base class does nothing (Port.py:78-83) |
| Ports.Port.SetStatusUncalculated | base_python/source/model_base/Port_Mass.py:108-114 | on a mass port every property is marked uncalculated; an energy port has no such method and raises AttributeError |
| Ports.Port.SetMassTypeAndUnit | base_python/source/model_base/Port_Mass.py:77-98 | a non-canonical unit or a second call only logs; otherwise the type is recorded first, a commodity missing from the fraction table raises KeyError, fractions not summing to 1 raise PortMassError, and only then are fractions, stream type and unit set |
| Ports.Port.SetEnergyTypeAndUnit | base_python/source/model_base/Port_Energy.py:31-51 | a port without a type gets the type, its stream type and its canonical unit unless the given unit differs; a typed port keeps its type |
| Ports.Port.SetAllProperties | base_python/source/model_base/Port_Mass.py:149-163 | a mass port copies pressure and temperature, then the checked stream, then merges the fractions; an energy source port has no pressure (AttributeError); an energy port copies only the stream (Port_Energy.py:61-72); a missing stream raises TypeError |
| Ports.NewMassPort | base_python/source/model_base/Port_Mass.py:25-64 | a mass port is created exactly when its commodity is in the fraction table with fractions summing to 1; it then has that type and those fractions and an empty history |
| Ports.MaxOutMatchesHistory | base_python/source/model_base/Port.py:55-72 | the running maximum outflow equals the maximum the result record computes from the stream history |
| Ports.MaxIntoMatchesHistory | base_python/source/model_base/Port.py:55-72 | the running maximum inflow equals the minimum the result record computes from the stream history |
| ExportDataclasses.Positives | base_python/source/model_base/Dataclasses/ExportDataclasses.py:455-456 | the filter keeps exactly the positive entries, in order, as a subsequence of the list |
| ExportDataclasses.Negatives | base_python/source/model_base/Dataclasses/ExportDataclasses.py:458-459 | the filter keeps exactly the negative entries, in order, as a subsequence of the list |
| ExportDataclasses.Max | base_python/source/model_base/Dataclasses/ExportDataclasses.py:474-480 | `max` of a non-empty list is an entry of the list and bounds every entry from above |
| ExportDataclasses.Min | base_python/source/model_base/Dataclasses/ExportDataclasses.py:467-472 | `min` of a non-empty list is an entry of the list and bounds every entry from below |
| ExportDataclasses.Known | base_python/source/model_base/Dataclasses/ExportDataclasses.py:449-453 | a history counts as known exactly when it holds no None, and then its entries are given in order |
| ExportDataclasses.SumSplitsBySign | base_python/source/model_base/Dataclasses/ExportDataclasses.py:455-465 | the sum of a history is the sum of its outflows plus the sum of its inflows |
| ExportDataclasses.SumOfPositives | base_python/source/model_base/Dataclasses/ExportDataclasses.py:461-462 | the summed outflow is never negative, and it is zero only without outflows |
| ExportDataclasses.SumOfNegatives | base_python/source/model_base/Dataclasses/ExportDataclasses.py:464-465 | the summed inflow is never positive, and it is zero only without inflows |
| ExportDataclasses.PortResult.constructor | base_python/source/model_base/Dataclasses/ExportDataclasses.py:360-372 | a new result record holds the given identity, no type, no branch and no histories |
| ExportDataclasses.PortResult.GetStreamHistory | base_python/source/model_base/Dataclasses/ExportDataclasses.py:449-453 | the recorded streams are returned as they are, or as the empty list once any of them is None; without a stream history the call raises KeyError |
| ExportDataclasses.PortResult.GetStreamHistoryOut | base_python/source/model_base/Dataclasses/ExportDataclasses.py:455-456 | the outflows are the positive recorded streams, in order |
| ExportDataclasses.PortResult.GetStreamHistoryIn | base_python/source/model_base/Dataclasses/ExportDataclasses.py:458-459 | the inflows are the negative recorded streams, in order |
| ExportDataclasses.PortResult.GetSumStreamOutByHistory | base_python/source/model_base/Dataclasses/ExportDataclasses.py:461-462 | the summed outflow is never negative |
| ExportDataclasses.PortResult.GetSumStreamInByHistory | base_python/source/model_base/Dataclasses/ExportDataclasses.py:464-465 | the summed inflow is never positive |
| ExportDataclasses.PortResult.GetMaxStreamOutByHistory | base_python/source/model_base/Dataclasses/ExportDataclasses.py:474-480 | the largest outflow, or 0 without outflows, bounds every recorded stream from above |
| ExportDataclasses.PortResult.GetMaxStreamInByHistory | base_python/source/model_base/Dataclasses/ExportDataclasses.py:467-472 | the most negative inflow, or 0 without inflows, bounds every recorded stream from below |
| ExportDataclasses.HistorySumsAddUp | base_python/source/model_base/Dataclasses/ExportDataclasses.py:449-465 | a port's summed outflow and summed inflow add up to the sum of its stream history |
| ExportDataclasses.ElementCAPEX.GetFirstInvestment | base_python/source/model_base/Dataclasses/ExportDataclasses.py:120-126 | the first investment is an entry of the investment list, and an empty list raises IndexError |
| ExportDataclasses.ElementCAPEX.GetReplacementInvests | base_python/source/model_base/Dataclasses/ExportDataclasses.py:128-134 | the replacement investments are every investment after the first |
| ExportDataclasses.InvestmentsSplit | base_python/source/model_base/Dataclasses/ExportDataclasses.py:120-134 | the first investment followed by the replacements is the whole investment list |
| ExportDataclasses.TotalOverFresh | base_python/source/model_base/Dataclasses/ExportDataclasses.py:344-354 | a key that is not listed does not add to the annuity sum |
| ExportDataclasses.TotalOverAppend | base_python/source/model_base/Dataclasses/ExportDataclasses.py:344-354 | a new key adds its value to the sum |
| ExportDataclasses.TotalOverReplace | base_python/source/model_base/Dataclasses/ExportDataclasses.py:344-354 | replacing a key's value changes the sum by the difference |
| ExportDataclasses.TotalOverPut | base_python/source/model_base/Dataclasses/ExportDataclasses.py:292-303 | assigning a key changes the sum by the new value minus the old one (0 for a new key) |
| ExportDataclasses.EnsureLeaf | base_python/source/model_base/Dataclasses/ExportDataclasses.py:338-339 | a missing name is added with the value `{}`, and an existing name is kept |
| ExportDataclasses.EnsureDirection | base_python/source/model_base/Dataclasses/ExportDataclasses.py:336-339 | a missing direction is added holding just that name, and an existing one gets the name if it lacks it |
| ExportDataclasses.ExtendDictionaryIfNecessary | base_python/source/model_base/Dataclasses/ExportDataclasses.py:324-339 | afterwards the path cost type / direction / name exists; a table that already has it is unchanged, and at most the cost type is added to the top-level keys |
| ExportDataclasses.ExtendKeepsEntries | base_python/source/model_base/Dataclasses/ExportDataclasses.py:324-339 | extending keeps every existing leaf with its value, and a leaf it adds is `{}` |
| ExportDataclasses.EnsureLeafKeepsTotal | base_python/source/model_base/Dataclasses/ExportDataclasses.py:338-339 | adding a `{}` leaf does not change the sum |
| ExportDataclasses.EnsureDirectionKeepsTotal | base_python/source/model_base/Dataclasses/ExportDataclasses.py:336-339 | adding a direction with a `{}` leaf does not change the sum |
| ExportDataclasses.ExtendKeepsTotal | base_python/source/model_base/Dataclasses/ExportDataclasses.py:324-339 | extending a table does not change the sum of its leaves |
| ExportDataclasses.SetInDirections | base_python/source/model_base/Dataclasses/ExportDataclasses.py:302-303 | afterwards the leaf at direction / name holds the value |
| ExportDataclasses.SetLeaf | base_python/source/model_base/Dataclasses/ExportDataclasses.py:302-303 | afterwards the leaf at the path holds the value, and the top-level keys keep their order |
| ExportDataclasses.SetLeafTotal | base_python/source/model_base/Dataclasses/ExportDataclasses.py:302-303 | assigning a leaf changes the table sum by the new value minus the old one |
| ExportDataclasses.SetParameterTotal | base_python/source/model_base/Dataclasses/ExportDataclasses.py:292-320 | setting a cost or annuity parameter changes the table sum by the new value minus the value it replaces (0 for a new path) |
| ExportDataclasses.SingleStreamEconResult.constructor | base_python/source/model_base/Dataclasses/ExportDataclasses.py:276-282 | a new stream-cost result has empty cost and annuity tables and a zero annuity |
| ExportDataclasses.SingleStreamEconResult.SetCostParameter | base_python/source/model_base/Dataclasses/ExportDataclasses.py:292-303 | the cost table is extended along the path and the leaf is assigned; the change to the sum is given by `SetParameterTotal` |
| ExportDataclasses.SingleStreamEconResult.SetAnnuityParameter | base_python/source/model_base/Dataclasses/ExportDataclasses.py:305-320 | the annuity table is extended along the path and the leaf is assigned |
| ExportDataclasses.SingleStreamEconResult.SetSumAnnuity | base_python/source/model_base/Dataclasses/ExportDataclasses.py:344-354 | the three nested loops give the annuity as the sum of every leaf of the annuity table, a list leaf adding its own sum |
| ExportDataclasses.SumCapexAnnuities | base_python/source/model_base/Dataclasses/ExportDataclasses.py:669-670 | the loop gives the sum of the CAPEX elements' annuities |
| ExportDataclasses.SumOpexAnnuities | base_python/source/model_base/Dataclasses/ExportDataclasses.py:672-676 | the loop gives the sum of the OPEX elements' annuities |
| ExportDataclasses.SumStreamCostAnnuities | base_python/source/model_base/Dataclasses/ExportDataclasses.py:678-680 | after the loop every stream-cost result holds the sum of its own annuity table, and the total is the sum of those sums |
| ExportDataclasses.ComponentEconResults.constructor | base_python/source/model_base/Dataclasses/ExportDataclasses.py:580-596 | a new component result has no cost elements and a zero annuity |
| ExportDataclasses.ComponentEconResults.SetComponentAnnuity | base_python/source/model_base/Dataclasses/ExportDataclasses.py:659-684 | each category total is recomputed from scratch as the sum of its elements' annuities, the cost elements are kept, and the component annuity is the sum of the four totals |
| ExportDataclasses.ComponentTechnicalResults.constructor | base_python/source/model_base/Dataclasses/ExportDataclasses.py:482-491 | a new technical result has the given identity and an empty history |
| EconomicalDataclasses.RateFactor | base_python/source/model_base/Dataclasses/EconomicalDataclasses.py:172-173 | a rate's factor exceeds the rate by exactly one |
| EconomicalDataclasses.CAPEXParameters.constructor | base_python/source/model_base/Dataclasses/EconomicalDataclasses.py:216-224 | every given field is kept and each factor is rate + 1 for a given rate and unset otherwise, as `__post_init__` runs the three setters |
| EconomicalDataclasses.CAPEXParameters.SetInvestmentFunction | base_python/source/model_base/Dataclasses/EconomicalDataclasses.py:141-155 | the investment function is stored only while no fixed investment cost is set; otherwise it keeps its previous value |
| EconomicalDataclasses.CAPEXParameters.SetInterestRate | base_python/source/model_base/Dataclasses/EconomicalDataclasses.py:163-172 | the rate is stored even outside 0..0.20 (only a warning); the factor becomes rate + 1, and a None rate leaves the old factor in place |
| EconomicalDataclasses.CAPEXParameters.SetPriceDevFactor | base_python/source/model_base/Dataclasses/EconomicalDataclasses.py:174-183 | the price development is stored even outside -0.25..0.25; its factor becomes value + 1, and a None value leaves the old factor |
| EconomicalDataclasses.CAPEXParameters.SetRiskSurcharge | base_python/source/model_base/Dataclasses/EconomicalDataclasses.py:184-193 | the risk surcharge is stored even outside 0..0.25; its factor becomes value + 1, and a None value leaves the old factor |
| EconomicalDataclasses.OPEXFixParameters.constructor | base_python/source/model_base/Dataclasses/EconomicalDataclasses.py:334-338 | name, yearly fixed OPEX and interest rate are kept and the interest factor is rate + 1 when a rate is given |
| EconomicalDataclasses.OPEXFixParameters.SetInterestRate | base_python/source/model_base/Dataclasses/EconomicalDataclasses.py:323-333 | the rate is stored unconditionally; the factor becomes rate + 1, and a None rate leaves the old factor |
| EconomicalDataclasses.Direction.constructor | base_python/source/model_base/Dataclasses/EconomicalDataclasses.py:341-346 | a cost direction starts with its unit and no incoming or outgoing costs |
| EconomicalDataclasses.SetDirectionCosts | base_python/source/model_base/Dataclasses/EconomicalDataclasses.py:430-442 | "in" replaces the incoming costs, "out" the outgoing ones, any other direction changes nothing, and the unit never changes |
| EconomicalDataclasses.StreamEconUnitCheck | base_python/source/model_base/Dataclasses/EconomicalDataclasses.py:474-483 | the stream cost parameters are accepted exactly when each given cost kind has its required unit (€/kWh or €/kg per amount, €/a yearly, €/kW per power); otherwise the error is an EconomicDataClassError |
| EconomicalDataclasses.DefaultStreamEconUnitsValid | base_python/source/model_base/Dataclasses/EconomicalDataclasses.py:366-368 | the default directions pass the unit checks, while €/kW as amount-related cost is refused |
| EconomicalDataclasses.StreamEconParameters.constructor | base_python/source/model_base/Dataclasses/EconomicalDataclasses.py:466-472 | the given fields are kept and the price development and interest factors are value + 1 for given values |
| EconomicalDataclasses.StreamEconParameters.SetInterestRate | base_python/source/model_base/Dataclasses/EconomicalDataclasses.py:444-454 | the rate is stored unconditionally; the factor becomes rate + 1, and a None rate leaves the old factor |
| EconomicalDataclasses.StreamEconParameters.SetPriceDevFactor | base_python/source/model_base/Dataclasses/EconomicalDataclasses.py:455-465 | the price development is stored unconditionally; its factor becomes value + 1, and None leaves the old factor |
| EconomicalDataclasses.NewStreamEconParameters | base_python/source/model_base/Dataclasses/EconomicalDataclasses.py:466-483 | construction fails with EconomicDataClassError exactly when a unit check fails, and otherwise yields fresh parameters holding the given cost directions |
| EconomicalDataclasses.FirstByName | base_python/source/model_base/Dataclasses/EconomicalDataclasses.py:502-505 | `list.index`: the first position holding the name, or none exactly when no entry has it |
| EconomicalDataclasses.EconomicalParameters.constructor | base_python/source/model_base/Dataclasses/EconomicalDataclasses.py:492-498 | the CAPEX and fixed OPEX lists are kept as given |
| EconomicalDataclasses.EconomicalParameters.GetCapexElementByName | base_python/source/model_base/Dataclasses/EconomicalDataclasses.py:500-508 | with no list the result is None; otherwise the first CAPEX element with the name, and None exactly when no element has it |
| EconomicalDataclasses.EconomicalParameters.GetOpexElementByName | base_python/source/model_base/Dataclasses/EconomicalDataclasses.py:510-518 | with no list the result is None; otherwise the first fixed OPEX element with the name, and None exactly when no element has it |
| TechnicalDataclasses.Efficiency.constructor | base_python/source/model_base/Dataclasses/TechnicalDataclasses.py:109-117 | an efficiency keeps its media, units and both lists, and gets its interpolation exactly when the two lists have the same length (`__post_init__` via `check_length`) |
| TechnicalDataclasses.Efficiency.SetEfficiency | base_python/source/model_base/Dataclasses/TechnicalDataclasses.py:143-156 | the load and efficiency lists are replaced only when their lengths agree, and otherwise kept; the interpolation is built whenever the stored lists agree in length |
| TechnicalDataclasses.FirstMatch | base_python/source/model_base/Dataclasses/TechnicalDataclasses.py:209-220 | the first registered efficiency converting between the given media, or none exactly when no efficiency does |
| TechnicalDataclasses.Efficiencies.constructor | base_python/source/model_base/Dataclasses/TechnicalDataclasses.py:172-176 | a registry starts empty, which trivially holds at most one efficiency per media pair |
| TechnicalDataclasses.Efficiencies.GetEfficiencyByMedia | base_python/source/model_base/Dataclasses/TechnicalDataclasses.py:199-220 | the loop over the registry returns the first efficiency for the media pair, and None exactly when there is none |
| TechnicalDataclasses.Efficiencies.CheckIfEfficiencyNotIncluded | base_python/source/model_base/Dataclasses/TechnicalDataclasses.py:178-191 | true exactly when no registered efficiency converts between the given media |
| TechnicalDataclasses.Efficiencies.AddNewEfficiency | base_python/source/model_base/Dataclasses/TechnicalDataclasses.py:242-256 | a new media pair is appended and a pair already present leaves the registry unchanged, so at most one efficiency per media pair is kept |
| TechnicalDataclasses.Efficiencies.AddNewEfficiencies | base_python/source/model_base/Dataclasses/TechnicalDataclasses.py:222-230 | the earlier entries stay as a prefix and afterwards every given efficiency's media pair is registered, still at most once |
| TechnicalDataclasses.Efficiencies.UpdateEfficiency | base_python/source/model_base/Dataclasses/TechnicalDataclasses.py:232-240 | only the first efficiency for the media pair is touched, with `set_efficiency`'s length rule; when none matches nothing changes |
| TechnicalDataclasses.Efficiencies.GetEfficienciesAtLoad | base_python/source/model_base/Dataclasses/TechnicalDataclasses.py:194-197 | the loop leaves the last registered efficiency's values; an empty registry raises UnboundLocalError |
| Storages.PowerToEnergy | base_python/source/modules/Storage.py:44-45 | the energy times 60 is the power times the step length in minutes |
| Storages.EnergyToPower | base_python/source/modules/Storage.py:47-48 | converting an energy back to a power fails with ZeroDivisionError exactly for a zero time resolution |
| Storages.EnergyPowerRoundTrip | base_python/source/modules/Storage.py:44-48 | `energy_to_power` and `power_to_energy` undo each other for every non-zero time resolution |
| Storages.StartBuffers | base_python/source/modules/Storage_Gas.py:340-349 | runcount 0 restarts both levels from the initial level; a new runcount moves the level reached into `buffer_old`; a repeated runcount keeps the buffers |
| Storages.RerunStartsFromSameLevel | base_python/source/modules/Storage_Gas.py:346-349 | rerunning the same timestep starts again from the level the first run started from, whatever level that run reached |
| Storages.NextStepStartsFromReachedLevel | base_python/source/modules/Storage_Gas.py:346-349 | moving on to a new timestep starts from the level the previous run reached |
| Storages.StorageRequest | base_python/source/modules/Storage_Gas.py:354-359 | outside an active run the branch's stream is kept; an active run asks for the full size or one step of charge power, and fails when size or resolution is missing or the resolution is zero |
| Storages.ChargeClamp | base_python/source/modules/Storage_Gas.py:361-362 | the stream is clamped to plus or minus one step of charge power and kept when already within it; with unlimited charge power it is kept, a missing resolution is a TypeError, and a negative resolution with unlimited charge power gives an infinite stream |
| Storages.Uncorrected | base_python/source/modules/Storage_Gas.py:364-368 | the level before correction; it fails with ZeroDivisionError exactly when a discharge meets a zero efficiency |
| Storages.BufferStepAsWritten | base_python/source/modules/Storage_Gas.py:364-380 | the buffer update as written: errors exactly on a division by a zero efficiency, keeps the level within 0..size, and leaves the stream unchanged without a size |
| Storages.BufferStep | base_python/source/modules/Storage_Gas.py:364-380 | the corrected buffer update has the same error cases, level bounds and unsized behaviour as the one written |
| Storages.BufferStepAgreesUnlessLossyOverflow | base_python/source/modules/Storage_Gas.py:370-380 | the written and corrected updates agree except for an overflow at an efficiency other than 1 |
| Storages.BufferStepConserves | base_python/source/modules/Storage_Gas.py:429-448 | with a positive efficiency and a start level within the storage, the corrected update succeeds and the new level is the old one less what the exchanged stream draws |
| Storages.DischargeConserves | base_python/source/modules/Storage_Gas.py:365-380 | the corrected update conserves for a discharging stream |
| Storages.ChargeConserves | base_python/source/modules/Storage_Gas.py:365-376 | the corrected update conserves for a charging stream |
| Storages.OverflowConserves | base_python/source/modules/Storage_Gas.py:372-375 | the corrected overflow stream charges exactly the room left up to the size, and still charges |
| Storages.UnderflowConserves | base_python/source/modules/Storage_Gas.py:377-380 | the underflow correction discharges exactly the level that was left |
| Storages.BufferStepAsWrittenConserves | base_python/source/modules/Storage_Gas.py:364-380 | the update as written always succeeds for a positive efficiency and conserves unless a lossy storage overflows |
| Storages.BufferStepAsWrittenBreaksConservation | base_python/source/modules/Storage_Gas.py:372-375 | size 10, level 9, efficiency 0.5, charge 10: the source fills the storage but reports a charge of 16, which breaks conservation; the corrected update reports 2 and conserves |
| Storages.RecordLevel | base_python/source/modules/Storage_Gas.py:412-417 | the level is stored at `runcount` and every other entry is kept; a runcount past the end of the history appends a 0 and then fails on the index |
| Storages.RecordLevelOverwrites | base_python/source/modules/Storage_Gas.py:412-417 | recording twice at the same runcount is the same as recording the second level once |
| Storages.CorrectedStepPassesCheck | base_python/source/modules/Storage_Gas.py:429-448 | a level recorded by the corrected update, on top of the previous entry, never trips the consistency check |
| Storages.AsWrittenStepFailsCheck | base_python/source/modules/Storage_Gas.py:429-448 | the overflow example above is flagged by the source's own consistency check |
| Storages.StoragePlan | base_python/source/modules/Storage_Gas.py:340-417 | one run's bookkeeping: the buffers restart for the runcount, and a successful run records the new level at `runcount`, keeps every other entry and stays within 0..size |
| Storages.ApplyStep | base_python/source/modules/Storage_Gas.py:364-417 | applies the update as written and records its level; it succeeds exactly when the update succeeds and the history reaches `runcount` |
| Storages.StoragePlanConserves | base_python/source/modules/Storage_Gas.py:340-448 | a successful run conserves the stored amount unless a lossy storage overflows, and the exchanged stream never exceeds the clamped request in magnitude nor reverses it |
| Storages.UnboundedPassiveStoragePassesRequest | base_python/source/modules/Storage_Gas.py:351-380 | a passive storage without size or charge-power limit passes the requested stream through unchanged and its level changes by exactly what that stream draws |
| Components.ClassName | base_python/source/modules/GenericUnit.py:413-414 | each unit kind is named by its Python class, which is the key a sub-component is registered under by default |
| Components.FindPort | base_python/source/modules/GenericUnit.py:216-227 | `get_port_by_id` finds the port carrying the id, or fails with KeyError exactly when no port carries it |
| Components.AdaptiveIds | base_python/source/modules/GenericUnit.py:309-319 | the ids of exactly the ports that are not fixed, in creation order |
| Components.Views | base_python/source/modules/GenericUnit.py:339-344 | one view (type, sign, linked or not) per port, in port order |
| Components.Filtered | base_python/source/modules/GenericUnit.py:339-344 | the two `filter` calls: the positions of the ports of the type and of exactly the sign, ascending |
| Components.FilteredMembers | base_python/source/modules/GenericUnit.py:339-344 | the filter holds each position of that type and sign exactly once and in order, and no other |
| Components.CandidatePositions | base_python/source/modules/GenericUnit.py:339-344 | for a one-way sign the ports of that sign followed by the bidirectional ones; for the bidirectional sign only the bidirectional ones |
| Components.CandidatesMembers | base_python/source/modules/GenericUnit.py:339-344 | the candidates are exactly the ports of the type whose sign is the requested one or bidirectional |
| Components.CandidatesOrder | base_python/source/modules/GenericUnit.py:339-344 | among the candidates those of the requested sign come before the bidirectional ones |
| Components.FirstUnlinked | base_python/source/modules/GenericUnit.py:351-353 | the first candidate no branch is linked to |
| Components.FirstUnlinkedSpec | base_python/source/modules/GenericUnit.py:351-353 | it finds the first unlinked candidate, and none exactly when every candidate is linked |
| Components.PickIndex | base_python/source/modules/GenericUnit.py:321-357 | `get_ports_by_type_and_sign` as a position: a single candidate as it is, among several the first unlinked one or else the first, none without candidates |
| Components.PickIndexFinds | base_python/source/modules/GenericUnit.py:321-357 | the lookup finds a port exactly when some port of the type has the requested sign or is bidirectional, and the port it finds is one of those |
| Components.PickIndexPrefersUnlinked | base_python/source/modules/GenericUnit.py:346-354 | an accepted port no branch uses is preferred to a linked one |
| Components.PickIndexPrefersSign | base_python/source/modules/GenericUnit.py:339-354 | among unlinked accepted ports, or among accepted ports that are all linked, one of the requested sign is preferred to a bidirectional one |
| Components.PickPortMember | base_python/source/modules/GenericUnit.py:321-357 | the port the lookup returns is one of the component's ports |
| Components.PickPortFinds | base_python/source/modules/GenericUnit.py:321-357 | the lookup on the ports themselves finds a port exactly when some port matches, and that port matches |
| Components.PickPortPrefersUnlinked | base_python/source/modules/GenericUnit.py:346-354 | on the ports themselves, a matching port no branch uses is preferred to a linked one |
| Components.PickPortPrefersSign | base_python/source/modules/GenericUnit.py:339-354 | on the ports themselves, a port of the requested sign is preferred to a bidirectional one among equally linked matches |
| GenericUnits.PortsFoundById | base_python/source/modules/GenericUnit.py:172-188 | with ports numbered P00, P01, ... each port is found by its own id |
| GenericUnits.NumberedAppend | base_python/source/modules/GenericUnit.py:172-188 | appending the port numbered next keeps the ports numbered in creation order |
| GenericUnits.ListAdded | base_python/source/modules/GenericUnit.py:189-192 | the type table gains the new id at the end of its type's list, a new type gets a one-entry list, and every other type is unchanged |
| GenericUnits.TypesListedAppend | base_python/source/modules/GenericUnit.py:187-192 | after `_add_port` every id listed under a type is still the id of a port |
| GenericUnits.FindPortAppend | base_python/source/modules/GenericUnit.py:187-188 | appending a port does not change what an existing id finds, and the new id finds the new port |
| GenericUnits.LookupAll | base_python/source/modules/GenericUnit.py:254-255 | the ports listed under a type, each looked up by id, in the order listed; KeyError exactly when some listed id has no port |
| GenericUnits.WellFormedAppend | base_python/source/modules/GenericUnit.py:155-194 | `_add_port` keeps the port invariant: numbered ids, listed ids are ports, and the positions the component holds stay in range |
| GenericUnits.PositionOf | base_python/source/modules/GenericUnit.py:302-307 | a port of the component sits at the returned position |
| GenericUnits.NewPort | base_python/source/modules/GenericUnit.py:175-186 | an energy type builds an energy port and always succeeds; a mass type builds a mass port or fails with the mass port's error; the port carries the given id, type, sign and fixed status |
| GenericUnits.Component.constructor | base_python/source/modules/GenericUnit.py:28-93 | a new component has status 0, no ports, no time resolution, no controlled port, no override, no sub-components, empty status and storage level histories, and the id drawn for it |
| GenericUnits.Component.ResetHistory | base_python/source/modules/GenericUnit.py:111-113 | every entry of the component history (status, storage level) is empty afterwards |
| GenericUnits.Component.SaveState | base_python/source/modules/GenericUnit.py:397-403 | the status history gains exactly one entry, the current status, at its end |
| GenericUnits.Component.AddPort | base_python/source/modules/GenericUnit.py:155-194 | the port counter always advances; on success the new port, with id P followed by the old count, is appended and listed under its type; on failure the ports and the type table are unchanged |
| GenericUnits.Component.GetPortsByType | base_python/source/modules/GenericUnit.py:243-257 | None exactly for a type without ports, otherwise the ports listed under the type, in the order listed |
| GenericUnits.Component.GetAdaptivePorts | base_python/source/modules/GenericUnit.py:309-319 | the ids of the ports that are not fixed, in creation order |
| GenericUnits.Component.Pick | base_python/source/modules/GenericUnit.py:321-357 | the position the lookup by type and sign picks is a port of this component |
| GenericUnits.Component.SetFixedPort | base_python/source/modules/GenericUnit.py:443-457 | the port the lookup picks becomes fixed and no other changes; with no such port the call fails on None (AttributeError) |
| GenericUnits.Component.SetAdaptivePort | base_python/source/modules/GenericUnit.py:459-474 | exactly the ports of the type and sign become adaptive, every other port fixed |
| GenericUnits.Component.SetControlledActivePort | base_python/source/modules/GenericUnit.py:548-559 | the override holds the given port and value |
| GenericUnits.Component.ClearControlledActivePort | base_python/source/modules/GenericUnit.py:561-566 | the override is cleared |
| GenericUnits.Component.CalcControlVar | base_python/source/modules/GenericUnit.py:797-824 | under an override its port and value, with the status set to 1; otherwise the given port and value and the status unchanged; the flag says which |
| GenericUnits.Component.MakeSubComponent | base_python/source/modules/GenericUnit.py:428-431 | the component becomes a sub-component and every port is linked to the given id |
| GenericUnits.Component.SetBranchId | base_python/source/modules/GenericUnit.py:98-100 | the branch id is set |
| GenericUnits.Component.SetSubComponent | base_python/source/modules/GenericUnit.py:405-418 | the sub-component is registered under the given name or else its class name, and is made a sub-component with every port linked to "sub_component" |
| GenericUnits.Component.SetTimeResolution | base_python/source/modules/GenericUnit.py:433-441 | the time resolution is set |
| GenericUnits.Component.SetProfileToPort | base_python/source/modules/GenericUnit.py:502-537 | no matching port only warns and changes nothing; otherwise that port becomes the controlled port and stores the profile (a profile error stops the call), the unit takes the given activity, the time resolution is adopted unless a different one is already set (ComponentError), and no other port's profiles change |
| GenericUnits.Component.SetBinaryProfileToPort | base_python/source/modules/GenericUnit.py:484-500 | the picked port stores the binary profile under the sign; with no such port the call fails (AttributeError) |
| GenericUnits.Component.SetProperties | base_python/source/modules/Source.py:47-56 | a source bounds its output port by 0 and its size (infinite without one), a consumer and a grid change no port, and a gas storage records its mass ports and caps its initial level at its size |
| GenericUnits.Component.BoundOutputPort | base_python/source/modules/Source.py:47-56 | the source's output port gets the limits 0 and size, or fails when there is no output port |
| GenericUnits.Component.SetMassPorts | base_python/source/modules/Storage_Gas.py:87-112 | the mass ports are the picks for into and out of the storage, and the initial level is capped at the size; a missing in port fails (AttributeError) |
| GenericUnits.Component.SetSize | base_python/source/modules/GenericUnit.py:539-546 | the size is replaced and the unit's properties recomputed from it |
| GenericUnits.Component.SetInitialValue | base_python/source/modules/Storage.py:50-52 | the new initial level, capped at the size by `set_properties`; a storage without its in port fails |
| UnitRules.NewSinglePortUnit | base_python/source/modules/Source.py:24-45 | a unit with one port P00 of its stream type, limited by `set_stream_limit`; the component counter advances; an energy type always succeeds and a mass type can fail only with the mass port's errors |
| UnitRules.NewSource | base_python/source/modules/Source.py:24-45 | a source has one port out of the component, fixed exactly when the source is active, with limits 0 and size (infinite without one) |
| UnitRules.NewConsumer | base_python/source/modules/Consumer.py:18-43 | a consumer has one port into the component, fixed exactly when the consumer is active, with limits 0 and minus size (minus infinity without one) |
| UnitRules.NewGrid | base_python/source/modules/Grid.py:17-44 | a grid has one never-fixed port of the given sign and unit, with limits plus and minus size (infinite without one) |
| UnitRules.AddStoragePorts | base_python/source/modules/Storage_Gas.py:71-74 | a gas storage gets two ports, into and then out of the storage |
| UnitRules.NewStorageGas | base_python/source/modules/Storage_Gas.py:25-85 | a gas storage keeps charge power and efficiency, starts its three buffers at the initial level (0 without one), has an empty level history, and has a port into and a port out of it |
| UnitRules.SetStorageFields | base_python/source/modules/Storage.py:33-42 | charge power, efficiency and the initial level in all three buffers, with runcount 0 |
| UnitRules.UnitStep | base_python/source/modules/Source.py:58-90 | the rule a source, consumer or grid run follows: which port is set and to what, or the error that stops the run |
| UnitRules.StepNeedsAPort | base_python/source/modules/Source.py:68-71 | without a controlled port the branch's port id must exist; `get_port_by_id` fails first |
| UnitRules.OverrideDecidesStep | base_python/source/modules/Source.py:74-88 | an override puts its value on its port, whatever the unit and whether it is active |
| UnitRules.ActiveStepIgnoresRequest | base_python/source/modules/Source.py:77-85 | an active unit without override ignores the branch's request: it follows its profile or else runs at its second limit (0 without limits) |
| UnitRules.PassiveSourceStaysWithinLimits | base_python/source/modules/Source.py:89-90 | a passive source sets the request as `get_stream_limited_value` shapes it: 0 or a value within the port's limits, a request within the limits and above the minimum load unchanged, and IndexError without limits |
| UnitRules.PassiveSinkPassesRequest | base_python/source/modules/Consumer.py:76-80 | a passive consumer or grid without override passes the request unchanged to the port the branch names |
| UnitRules.IdPosition | base_python/source/modules/GenericUnit.py:216-227 | the position of the port carrying the id, KeyError exactly when none does |
| UnitRules.LimitsOf | base_python/source/modules/GenericUnit.py:302-307 | the stored limits of each port, in port order |
| UnitRules.ProfilesOf | base_python/source/modules/Source.py:78-79 | `get_profile_values(runcount)` of each port, in port order |
| UnitRules.StepOf | base_python/source/modules/Source.py:58-90 | the rule's step picks one of the component's ports |
| UnitRules.Outcome | base_python/source/modules/Source.py:80-90 | an error of the step is the error of the run |
| UnitRules.WriteStream | base_python/source/modules/Source.py:80-90 | the port at the step's position gets the step's stream and no other port changes |
| UnitRules.Decide | base_python/source/modules/Consumer.py:56-80 | the branches of `run` agree with the rule: its error, or its port and stream, and a consumer's maximum write only with limits |
| UnitRules.RunAt | base_python/source/modules/Consumer.py:64-80 | after `_calc_control_var`, the picked port ends with the rule's stream and every other port keeps its own |
| UnitRules.RunUnit | base_python/source/modules/Grid.py:46-76 | a source, consumer or grid run resets the status (1 under an override) and leaves the rule's stream on the rule's port, every other port unchanged |
| UnitRules.Prepare | base_python/source/modules/Source.py:64-75 | the status is reset to 0, or 1 under an override; the run fails with KeyError exactly when there is no controlled port and no port with the id |
| UnitRules.MassPortAt | base_python/source/modules/Storage_Gas.py:420-427 | the storage's mass port position, or KeyError before `set_properties` ran and AttributeError when no port was found |
| UnitRules.ExchangeWithMassPorts | base_python/source/modules/Storage_Gas.py:420-427 | a charging stream enters through the in port with the out port at 0; otherwise the in port is at 0 and the out port carries the stream with the in port's pressure and temperature; no other port changes |
| UnitRules.StorageRunAt | base_python/source/modules/Storage_Gas.py:340-448 | the buffers and level history follow the buffer bookkeeping, the stream goes through the mass ports, and the flag reports the level check |
| UnitRules.AdoptFractions | base_python/source/modules/Storage_Gas.py:326-333 | a mass port's fractions replace the storage's, an energy port leaves them |
| UnitRules.StorageControl | base_python/source/modules/Storage_Gas.py:325-353 | the status reset, the port lookup whose failure stops the run, the fraction adoption and the control value |
| UnitRules.RunAndCheckLevel | base_python/source/modules/Storage_Gas.py:340-448 | the buffer bookkeeping, then status 1 exactly when the run succeeds and the level check flags it |
| UnitRules.RunStorageGas | base_python/source/modules/Storage_Gas.py:314-448 | an unknown port id fails with KeyError and changes nothing but the status; otherwise fractions adopted, buffers and level history as planned, status 1 under an override or a flagged level |
| Connections2Branches.FirstLinkable | base_python/source/model_base/Connections2Branches.py:33-36 | the first port at or after the position that is unlinked, of the connection's sign and of the branch's type |
| Connections2Branches.FirstLinkableIsFirst | base_python/source/model_base/Connections2Branches.py:33-51 | no port before the chosen one is linkable, and none is found exactly when no port is linkable |
| Connections2Branches.FindLinkable | base_python/source/model_base/Connections2Branches.py:33-51 | the scan over the component's ports in creation order stops at the first linkable port |
| Connections2Branches.Register | base_python/source/model_base/Connections2Branches.py:44-50 | `setdefault` then `append`: the name becomes listed, a new name is added at the end, and every other name's list is unchanged |
| Connections2Branches.RegisterAppends | base_python/source/model_base/Connections2Branches.py:44-50 | a port id not yet listed under the name is appended to its list, so one component's ports keep their linking order |
| Connections2Branches.File | base_python/source/model_base/Connections2Branches.py:43-50 | a fixed port is registered in the fixed part and an adaptive port in the adaptive part, the other part unchanged, the id appended when new |
| Connections2Branches.Connect | base_python/source/model_base/Connections2Branches.py:39-41 | linking registers the component under its name in the branch, the branch finds the port, and the port and the component carry the branch id |
| Connections2Branches.LinkOne | base_python/source/model_base/Connections2Branches.py:20-53 | an unknown component name is a KeyError; a component without a linkable port is a BranchConnectionError; otherwise its first linkable port is linked and filed |
| Connections2Branches.ConnectionNames | base_python/source/model_base/Connections2Branches.py:20-22 | the component names of a branch's connections, in order |
| Connections2Branches.LinkBranch | base_python/source/model_base/Connections2Branches.py:17-54 | the first failing connection stops the build with its error; on success every connected name is linked to the branch and the split files only connected components |
| Connections2Branches.PrioritizedFollowsRules | base_python/source/model_base/Connections2Branches.py:69-72 | the components the rules take first are exactly the adaptive components the rules list, each once, in rule order |
| Connections2Branches.OutsideMembers | base_python/source/model_base/Connections2Branches.py:75 | the components `update` adds afterwards are exactly those the rules do not list, in their own order |
| Connections2Branches.Outside | base_python/source/model_base/Connections2Branches.py:75 | the components appended after the rule order are never more than the adaptive components |
| Connections2Branches.OutsideStep | base_python/source/model_base/Connections2Branches.py:70-72 | popping one more rule's component leaves the components outside the longer rule list |
| Connections2Branches.PrioritizedFrom | base_python/source/model_base/Connections2Branches.py:69-72 | reading the rules from one position on, the first rule decides first |
| Connections2Branches.OutsideUpTo | base_python/source/model_base/Connections2Branches.py:70-72 | taking out the component of the next rule leaves those outside the rules read so far |
| Connections2Branches.SortingDone | base_python/source/model_base/Connections2Branches.py:75 | after the last rule, `update` gives the prioritized components followed by the rest, with the same port lists |
| Connections2Branches.SortByPriority | base_python/source/model_base/Connections2Branches.py:65-76 | the sorted adaptive part lists the components the rules name, in rule order, then the rest in their order, each with its unchanged port list |
| Connections2Branches.SortedRulesFirst | base_python/source/model_base/Connections2Branches.py:65-76 | the sorted adaptive part lists every component once and no component outside the rules comes before one inside them |
| Connections2Branches.Get | base_python/source/model_base/Connections2Branches.py:100 | `dict.get` gives None exactly for an absent name, else the list of its port ids |
| Connections2Branches.RemoveFirst | base_python/source/model_base/Connections2Branches.py:101 | `list.remove` of a present name shortens the list by one; an absent name leaves it unchanged |
| Connections2Branches.GetNeverIn | base_python/source/model_base/Connections2Branches.py:100 | what `dict.get` returns is a list or None, never a string, so the dependency test `in port_ids` never holds |
| Connections2Branches.PruneOverKeepsAll | base_python/source/model_base/Connections2Branches.py:99-101 | the inner loop of the dependency test removes nothing |
| Connections2Branches.PruneOver | base_python/source/model_base/Connections2Branches.py:99-101 | the inner loop of the dependency test only removes names: what is left is a part of the names given |
| Connections2Branches.Pruned | base_python/source/model_base/Connections2Branches.py:97-101 | `names_no_dependencies` keeps only names it started from, never more of them |
| Connections2Branches.PrunedKeepsAll | base_python/source/model_base/Connections2Branches.py:97-101 | as written, `names_no_dependencies` keeps every component name, whatever the dependencies |
| Connections2Branches.NoDependencies | base_python/source/model_base/Connections2Branches.py:97-101 | the two nested loops compute the dependency-free names |
| Connections2Branches.Ready | base_python/source/model_base/Connections2Branches.py:104-109 | a branch is computable next exactly when every component on its fixed side is free of dependencies; one without fixed components always is |
| Connections2Branches.Satisfied | base_python/source/model_base/Connections2Branches.py:105-107 | `all_satisfied` holds exactly when every fixed component of the branch is dependency-free |
| Connections2Branches.FirstReady | base_python/source/model_base/Connections2Branches.py:104-114 | the first open branch, from the given position on, that is ready |
| Connections2Branches.FirstReadyIsFirst | base_python/source/model_base/Connections2Branches.py:104-114 | no open branch before the chosen one is ready, and none is chosen exactly when none is ready |
| Connections2Branches.FindReady | base_python/source/model_base/Connections2Branches.py:104-114 | the scan over the open branches stops at the first ready one |
| Connections2Branches.Schedule | base_python/source/model_base/Connections2Branches.py:88-115 | the ordering loop moves at most one branch per pass and never leaves more branches open than it started with |
| Connections2Branches.SchedulePartitions | base_python/source/model_base/Connections2Branches.py:88-115 | the passes split the branches: each is either moved once or left open with its own split, at most one per pass |
| Connections2Branches.InOrderSplits | base_python/source/model_base/Connections2Branches.py:88-115 | taking branches in insertion order moves the first ones, as many as there are passes, and leaves the rest open in order |
| Connections2Branches.ScheduleInOrder | base_python/source/model_base/Connections2Branches.py:88-115 | because the dependency test never holds, a branch whose fixed components are all model components is always ready, so the passes take the branches in insertion order |
| Connections2Branches.ScheduleTakesHead | base_python/source/model_base/Connections2Branches.py:104-114 | a pass over open branches that are all ready moves the first one |
| Connections2Branches.OrderBranches | base_python/source/model_base/Connections2Branches.py:88-119 | the loop runs at most one pass more than there are components and its result is the schedule; branches left over are a BranchConnectionError |
| Connections2Branches.OrderedAsInserted | base_python/source/model_base/Connections2Branches.py:88-119 | as written the branch order is the insertion order, and ordering succeeds exactly when there are at most as many branches as components plus one |
| Connections2Branches.MissingFixed | base_python/source/model_base/Connections2Branches.py:57-60 | the last branch without a fixed part is the one reported, and none exactly when every branch has a fixed part |
| Connections2Branches.FindMissingFixed | base_python/source/model_base/Connections2Branches.py:57-62 | the loop reports the last branch whose fixed part is empty |
| Connections2Branches.SortAll | base_python/source/model_base/Connections2Branches.py:65-76 | every branch keeps its place and its fixed part, and its adaptive part is sorted by the priority rules |
| Connections2Branches.SortedReady | base_python/source/model_base/Connections2Branches.py:104-109 | when every split names only model components, every sorted split is ready from the first pass on |
| Connections2Branches.Arrange | base_python/source/model_base/Connections2Branches.py:56-119 | the arrangement fails with BranchConnectionError exactly when some branch lacks a fixed part or there are more branches than components plus one; otherwise every branch is sorted and ordered as inserted |
| Branches.CheckPortSign | base_python/source/model_base/Branches.py:513-530 | a port can take the branch balance exactly when it is bidirectional, the balance is zero, or its direction opposes the balance (an inflow port for a surplus, an outflow port for a deficit) |
| Branches.CheckPortSignChangeValidity | base_python/source/model_base/Branches.py:493-511 | a value a loop control wants to write is acceptable exactly when the port is bidirectional, the value is zero, or the value has the port's own sign |
| Branches.SignTestsAgree | base_python/source/model_base/Branches.py:493-530 | for a non-zero balance both sign tests agree: a port can take a balance exactly when it may carry the negated balance |
| Branches.PortLimitedValue | base_python/source/model_base/Branches.py:201-224 | without limits the value passes unchanged; with limits it is clamped into the interval between the two bounds, whatever order they are stored in |
| Branches.BidirectionalPortsAreClamped | base_python/source/model_base/Branches.py:201-224 | a value above the upper bound is replaced by that bound |
| Branches.Opened | base_python/source/model_base/Branches.py:126-141 | the first port folded into an empty balance opens it with the port's stream, and for a mass port also with its pressure, temperature and mass fractions |
| Branches.ReconcileProperty | base_python/source/model_base/Branches.py:549-584 | comparing a branch property with a port's: equal values agree, a calculated port value the branch lacks is adopted (as its absolute value), two different calculated values clash, otherwise the branch value is imposed on the port |
| Branches.ReconcileLeavesAgreement | base_python/source/model_base/Branches.py:549-584 | whenever the comparison does not clash, afterwards branch and port hold the same value (up to the sign of an adopted value) |
| Branches.FractionMismatch | base_python/source/model_base/Branches.py:585-598 | the mass-fraction check passes exactly when every fraction of the port is present in the branch and exceeds the branch's by at most the tolerance; a failure is a missing key or a branch error |
| Branches.FractionCheckIsOneSided | base_python/source/model_base/Branches.py:585-598 | the fraction check only looks at the port exceeding the branch: a port fraction 0.5 against a branch fraction 0.9 passes |
| Branches.MergeFractions | base_python/source/model_base/Branches.py:585-598 | the fractions of a fresh balance are replaced by the port's items; a fraction list already turned into items only accepts a port without fractions and otherwise raises a type error |
| Branches.Merge | base_python/source/model_base/Branches.py:532-603 | folding a port into a balance adds its stream, keeps an energy balance free of pressure and temperature, refuses an energy port on a mass balance and a missing stream, and for mass ports reconciles pressure, temperature and fractions |
| Branches.MergeCountsEveryFold | base_python/source/model_base/Branches.py:326-339 | folding the same port a second time adds its stream a second time: the balance does not remember which ports it has seen |
| Branches.FixedRequest | base_python/source/model_base/Branches.py:346-354 | a fixed component is asked for the negated branch stream, or zero when the balance is still empty; a balance without a stream is a type error |
| Branches.AdaptiveChoiceFrom | base_python/source/model_base/Branches.py:374-396 | the chosen adaptive port index lies inside the component's port list |
| Branches.AdaptiveChoice | base_python/source/model_base/Branches.py:374-396 | a component without ports is an index error; otherwise the chosen port is one of its ports |
| Branches.AdaptiveChoiceFromMeaning | base_python/source/model_base/Branches.py:377-396 | from a starting index, the choice is the first port whose sign can take the balance, asked for the negated balance, or the component's first port asked for zero when none can |
| Branches.AdaptiveChoiceMeaning | base_python/source/model_base/Branches.py:374-396 | every port before the chosen one fails the sign test; the chosen port passes it and is asked for the negated balance, or no port passes and the first is asked for zero |
| Branches.ControlPortFrom | base_python/source/model_base/Branches.py:443-446 | the port a loop control acts on has a stream and lies at or after the starting index; failure is a type error |
| Branches.ControlPortFromPicksFirst | base_python/source/model_base/Branches.py:443-446 | the chosen port is the first whose stream opposes the residual, or the last port when none does |
| Branches.ControlPortFromFails | base_python/source/model_base/Branches.py:443-446 | the search fails only on a port without a stream that comes before any port opposing the residual |
| Branches.ControlValue | base_python/source/model_base/Branches.py:449-464 | the value written by loop control is zero or has the port's sign; on the first attempt it is the stream minus the residual clamped to the port limits, on later attempts an unclamped candidate or else zero |
| Branches.UntouchedCandidateClosesResidual | base_python/source/model_base/Branches.py:449-464 | when the candidate needs no clamping, the residual left after the control is zero |
| Branches.LaterAttemptsZeroClampedCandidates | base_python/source/model_base/Branches.py:449-461 | from the second attempt on, a candidate the limits would clamp is replaced by zero |
| Branches.PromoteOne | base_python/source/model_base/Branches.py:473-486 | promoting a controlled component moves it from the adaptive to the fixed ports with its port ids; a component already fixed is left alone |
| Branches.Promote | base_python/source/model_base/Branches.py:473-486 | every loop-controlled component ends on the fixed side, and components already fixed keep their port ids |
| Branches.PromoteEffect | base_python/source/model_base/Branches.py:473-486 | after promotion every controlled component is fixed, earlier fixed entries and their order are kept, and a component stays adaptive only if it was not controlled or already fixed |
| Branches.PromoteFixedIsNoop | base_python/source/model_base/Branches.py:473-486 | promoting components that are all fixed already changes nothing |
| Branches.PromoteIdempotent | base_python/source/model_base/Branches.py:473-486 | promoting the same components twice is the same as promoting them once |
| Branches.WithPort | base_python/source/model_base/Branches.py:112-124 | registering a port makes it the port found under its id, and adds no other port |
| Branches.WithPortKeepsOthers | base_python/source/model_base/Branches.py:112-124 | registering a port changes the lookup of no other port id |
| Branches.WithPortAppendsNew | base_python/source/model_base/Branches.py:112-124 | a port id not yet registered is appended; a known one is replaced in place, keeping the length |
| Branches.NotRunMembers | base_python/source/model_base/Branches.py:345-347 | the components a phase runs are exactly those of its list that have not run yet |
| Branches.NotRunCovers | base_python/source/model_base/Branches.py:345-404 | after a phase every component of its list has run |
| Branches.Branch.constructor | base_python/source/model_base/Branches.py:22-49 | a new branch keeps its type, name, connections, settings and id, and starts with no connected component, no ports, an empty balance, zero run count and nothing calculated |
| Branches.Branch.IdMap | base_python/source/model_base/Branches.py:473-486 | the port ids of every connected component, used when a controlled component is promoted |
| Branches.Branch.SetFixedPorts | base_python/source/model_base/Branches.py:74-83 | the fixed ports become the given map |
| Branches.Branch.SetAdaptivePorts | base_python/source/model_base/Branches.py:85-93 | the adaptive ports become the given map |
| Branches.Branch.SetLoopControlRules | base_python/source/model_base/Branches.py:95-103 | the loop control rules become the given list |
| Branches.Branch.SetLoopControlledComponentsEmpty | base_python/source/model_base/Branches.py:105-110 | the list of loop-controlled components becomes empty |
| Branches.Branch.AddPortConnection | base_python/source/model_base/Branches.py:112-124 | the component is recorded under its name and the port is registered among that component's ports, where it is found afterwards |
| Branches.Branch.Lookup | base_python/source/model_base/Branches.py:443-446 | a port is found exactly when its component is connected and has a port with that id; otherwise a key error |
| Branches.Branch.GetPortsOfConnectedComponent | base_python/source/model_base/Branches.py:226-240 | the ports of a connected component are returned in registration order; an unknown name is a branch error |
| Branches.Branch.SignsOf | base_python/source/model_base/Branches.py:377-391 | the sign of each listed port of a component, or a key error for an id the component does not have |
| Branches.Branch.Fold | base_python/source/model_base/Branches.py:126-141 | one port is folded into the balance as the balance merge says, the port takes the reconciled pressure and temperature, and a failed merge leaves the balance unchanged |
| Branches.Branch.FoldStep | base_python/source/model_base/Branches.py:358-364 | after a successful fold the balance is open |
| Branches.Branch.FoldAll | base_python/source/model_base/Branches.py:358-364 | folding a non-empty list of ports, or folding into an open balance, leaves the balance open |
| Branches.Branch.Dispatch | base_python/source/model_base/Branches.py:355-357 | running a component appends exactly that call to the record of component calls; an unknown component is a key error and records nothing |
| Branches.Branch.DispatchAndFold | base_python/source/model_base/Branches.py:355-364 | a component is run on one port with the requested value and then all its ports are folded, leaving the balance open |
| Branches.Branch.RunFixedOne | base_python/source/model_base/Branches.py:346-364 | a fixed component is run on its first port with the fixed request; no ports is an index error, a balance without stream a type error |
| Branches.Branch.RunAdaptiveOne | base_python/source/model_base/Branches.py:374-404 | an adaptive component is run on the port and with the value the adaptive choice gives; a failed choice is passed on as the error |
| Branches.Branch.FixedStep | base_python/source/model_base/Branches.py:346-364 | one step of the fixed phase extends the run list and the call record by that component when it had not run |
| Branches.Branch.RunFixed | base_python/source/model_base/Branches.py:346-364 | the fixed phase runs, in map order, every fixed component that had not run, each once, on its first port |
| Branches.Branch.AdaptiveStep | base_python/source/model_base/Branches.py:374-404 | one step of the adaptive phase extends the run list and the call record by that component when it had not run |
| Branches.Branch.RunAdaptive | base_python/source/model_base/Branches.py:374-404 | the adaptive phase runs, in map order, every adaptive component that had not run, each once, on one of its ports |
| Branches.Branch.Absorb | base_python/source/model_base/Branches.py:326-339 | the ports of components that already ran elsewhere are folded into the balance; if one of them has fixed ports the balance is open afterwards |
| Branches.Branch.MarkCalculated | base_python/source/model_base/Branches.py:312-314 | on a rerun every connected mass port is marked as calculated in pressure, temperature, fractions and stream |
| Branches.Branch.Prepare | base_python/source/model_base/Branches.py:298-318 | a first run copies the configured fixed and adaptive ports; a rerun keeps port maps left by loop control, refills empty ones and empties the balance |
| Branches.Branch.ControlStep | base_python/source/model_base/Branches.py:436-469 | one loop-control rule picks its component's first port opposing the residual, writes the control value for it and reduces the residual by what that port gives up; an unknown component is a branch error |
| Branches.Branch.ControlsFollowRules | base_python/source/model_base/Branches.py:436-469 | loop controls are applied to the rule components in rule order, at most one per rule |
| Branches.Branch.ControlsStopWithinTolerance | base_python/source/model_base/Branches.py:436-437 | controls stop early only once the residual is within the model tolerance, and none is applied when it already was |
| Branches.Branch.PlanControls | base_python/source/model_base/Branches.py:436-469 | the planned controls and the residual are those of the rule-by-rule loop control |
| Branches.Branch.ApplyOne | base_python/source/model_base/Branches.py:465-469 | a control sets the component's active port and value and records the component as loop-controlled; no other component changes |
| Branches.Branch.ApplyControls | base_python/source/model_base/Branches.py:465-469 | every controlled component carries the last control given to it and all are recorded in order; uncontrolled components are unchanged |
| Branches.Branch.MoveToFixed | base_python/source/model_base/Branches.py:473-486 | the loop-controlled components are promoted from the adaptive to the fixed ports |
| Branches.Branch.RunRules | base_python/source/model_base/Branches.py:436-469 | applies the planned controls and returns the residual left, or the planning error |
| Branches.Branch.Settle | base_python/source/model_base/Branches.py:473-491 | the branch asks for a rerun exactly when the residual is within tolerance or this is a later attempt, and only then promotes the controlled components |
| Branches.Branch.LoopControl | base_python/source/model_base/Branches.py:424-491 | loop control plans and applies the controls of the rules, promotes the controlled components and asks for a rerun exactly when the residual is closed or the attempt is not the first |
| Branches.Branch.Attempt | base_python/source/model_base/Branches.py:296-416 | one attempt either balances the branch, marks it calculated and returns the components run, or leaves it unbalanced after loop control with an empty run list |
| Branches.Branch.RunComponents | base_python/source/model_base/Branches.py:345-404 | the components run are those already run, then the fixed ones not yet run, then the adaptive ones not yet run |
| Branches.Branch.Conclude | base_python/source/model_base/Branches.py:410-416 | a balance within tolerance marks the branch calculated and ends the attempts; otherwise loop control runs and the run list is emptied; a missing balance or stream is an error |
| Branches.Branch.Run | base_python/source/model_base/Branches.py:270-422 | attempts are made until the branch is balanced or the timeout is reached; a calculated branch is balanced; reaching the timeout raises a branch error, even when the last allowed attempt balanced it; a zero timeout fails with an unbound variable and a negative one returns the inputs |
| ModelBase.Pairs | base_python/source/model_base/ModelBase.py:137-173 | the stored connections are the (component, sign) tuples of the argument, in order |
| ModelBase.BranchArgError | base_python/source/model_base/ModelBase.py:149-170 | a branch is accepted exactly when its type is given and its connections are a list of tuples naming components of the model; a missing type or a non-list is a branch error; when some item is not a tuple, the message formatting raises a TypeError unless the first item is an iterable of strings, and otherwise it is a branch connection error; a tuple naming an unknown component is a branch connection error |
| ModelBase.IterationCount | base_python/source/model_base/ModelBase.py:551-559 | the number of steps is the profile length when a profile was added, one step without a time resolution, and otherwise a year of steps (the largest count whose steps fit into 525600 minutes); a zero resolution divides by zero |
| ModelBase.Overall | base_python/source/model_base/ModelBase.py:563-569 | the overall status is -1 exactly when some step left a component with status -1, and 0 otherwise |
| ModelBase.StreamBalance | base_python/source/model_base/ModelBase.py:640-644 | a branch's stream balance is read from its balance; an empty balance is a key error and a balance without stream a type error |
| ModelBase.ShorterProfile | base_python/source/model_base/ModelBase.py:250-262 | the recorded profile length becomes the new length when none was recorded, and otherwise the smaller of the two |
| ModelBase.ProfileLenIsShortest | base_python/source/model_base/ModelBase.py:250-262 | after a series of profiles the recorded length is the shortest of their lengths, and none is recorded before the first |
| ModelBase.ProfileResolution | base_python/source/model_base/ModelBase.py:265-274 | a given resolution must equal the model's (else a component error), is adopted by a model without one, and the model's own is used when none is given |
| ModelBase.FlattenedNames | base_python/source/model_base/ModelBase.py:175-195 | the new component dictionary is well formed, holds every component and every sub-component under `<component>_<sub-component>`, and no other name |
| ModelBase.FlattenedOrder | base_python/source/model_base/ModelBase.py:175-195 | when no name repeats, the components are listed each followed by its sub-components |
| ModelBase.FlattenedWithoutClash | base_python/source/model_base/ModelBase.py:175-195 | when no name repeats, every component keeps its object under its name and every sub-component is filed under its combined name |
| ModelBase.Peak | base_python/source/model_base/ModelBase.py:493-494 | the peak stream is never negative |
| ModelBase.PeakBounds | base_python/source/model_base/ModelBase.py:490-494 | no stream exceeds the peak, and the peak is zero exactly when no stream is positive |
| ModelBase.FullLoadHours | base_python/source/model_base/ModelBase.py:489-497 | an unreadable history or resolution is a type error, a history without a positive stream divides by zero, and a result comes with a positive peak and a resolution |
| ModelBase.FullLoadHoursWithinPeriod | base_python/source/model_base/ModelBase.py:489-497 | the full-load hours lie between one step's hours and the hours of the whole history |
| ModelBase.FullLoadHoursOfConstant | base_python/source/model_base/ModelBase.py:489-497 | a constant positive stream gives exactly the hours of the whole history |
| ModelBase.HistoryHours | base_python/source/model_base/ModelBase.py:489-497 | the loop over the stream history computes the full-load hours of the history |
| ModelBase.PortHours | base_python/source/model_base/ModelBase.py:483-497 | no port list is a type error, more than one port of the type a component error, an empty list an index error, and one port gives the full-load hours of its history |
| ModelBase.Model.constructor | base_python/source/model_base/ModelBase.py:43-93 | a new model holds no component, branch or status, no calculation order, no profile length and overall status 0, with the id counters reset |
| ModelBase.Model.ResetIDs | base_python/source/model_base/ModelBase.py:95-121 | the component and branch counters start again from zero |
| ModelBase.Model.AddComponent | base_python/source/model_base/ModelBase.py:69 | a new component is stored under a new name and the model stays well formed |
| ModelBase.Model.StoreBranch | base_python/source/model_base/ModelBase.py:172-173 | a new branch is stored under its name and the model stays well formed |
| ModelBase.Model.AddBranch | base_python/source/model_base/ModelBase.py:137-173 | after the argument checks (including the TypeError of the message formatting) a new branch with the next branch id, the given type, connections and settings and no connected component is stored under the name; a failed check stores nothing and uses no id |
| ModelBase.Model.AddProfileToComponentPort | base_python/source/model_base/ModelBase.py:228-288 | the profile length is updated first; a differing resolution is a component error that changes no component; otherwise the model takes the resolution and the named component stores the profile, and an unknown name is a component error |
| ModelBase.Model.ProfileStep | base_python/source/model_base/ModelBase.py:276-285 | setting the profile on a component of the model has the component's outcome and keeps the model's invariants |
| ModelBase.Model.NoteProfile | base_python/source/model_base/ModelBase.py:250-274 | the profile length and the model's resolution are updated as the length rule and the resolution check say |
| ModelBase.Model.SetUnitProfile | base_python/source/model_base/ModelBase.py:276-285 | a binary profile is stored under the sign on the picked port; a value profile makes the picked port the controlled one and stores it among its value profiles, with the activity flag |
| ModelBase.Model.SetTimeResolution | base_python/source/model_base/ModelBase.py:208-226 | without a resolution the model's own is used, none at all is a type error and zero divides by zero; otherwise the model, every component and every sub-component take it, and a failure changes nothing |
| ModelBase.Model.RetimeAll | base_python/source/model_base/ModelBase.py:223-226 | every component and every sub-component takes the resolution |
| ModelBase.Model.RetimeComponent | base_python/source/model_base/ModelBase.py:224-226 | a component and all its sub-components take the resolution |
| ModelBase.Model.SubDicts | base_python/source/model_base/ModelBase.py:182-186 | the sub-component dictionary of every component, under the component's name |
| ModelBase.Model.AddSubComponentsToList | base_python/source/model_base/ModelBase.py:175-195 | the components become the flattened dictionary of components and sub-components |
| ModelBase.Model.ListAll | base_python/source/model_base/ModelBase.py:182-187 | the loop over the components builds the listed names and the filed objects of the flattened dictionary |
| ModelBase.Model.ListSubs | base_python/source/model_base/ModelBase.py:185-187 | the combined names and filed objects of one component's sub-components |
| ModelBase.Model.Rebuild | base_python/source/model_base/ModelBase.py:190-192 | the new dictionary holds the filed object under each listed name, in list order |
| ModelBase.Model.LinkAt | base_python/source/model_base/Connections2Branches.py:16-54 | connecting one branch keeps the model well formed and files only components of the model under the branch; failures are key or branch connection errors |
| ModelBase.Model.LinkAll | base_python/source/model_base/Connections2Branches.py:16-54 | every branch is connected in the order branches were added and gets its split into fixed and adaptive ports naming components of the model; the first failure stops the build |
| ModelBase.Model.Dependencies | base_python/source/model_base/Connections2Branches.py:80-85 | the dependency map holds exactly the components with adaptive ports, each with the ids of those ports |
| ModelBase.Model.Install | base_python/source/model_base/Connections2Branches.py:121-126 | every branch receives the fixed and adaptive ports of its ordered split and, when a rule names it, its loop-control rules; the ordered branches become the calculation order |
| ModelBase.Model.LinkAndOrder | base_python/source/model_base/Connections2Branches.py:10-119 | linking, the fixed-part check, the priority sort and the dependency ordering: it succeeds exactly when every branch has a fixed part and there are at most one more branches than components, and then each branch's adaptive ports are sorted by the priority rules |
| ModelBase.Model.BuildBranches | base_python/source/model_base/Connections2Branches.py:10-126 | a successful build installs every branch's sorted split and makes the branches' order the calculation order; a failure is a key or branch connection error and leaves the order as it was |
| ModelBase.Model.InstallKeeping | base_python/source/model_base/Connections2Branches.py:121-126 | installing keeps the model's invariants, sets the calculation order and leaves every branch with its sorted split |
| ModelBase.Model.AllCalculated | base_python/source/model_base/ModelBase.py:609 | the answer is true exactly when every branch is calculated |
| ModelBase.Model.RunOne | base_python/source/model_base/ModelBase.py:617-618 | running a branch keeps it well formed, sets its run count, and a calculated branch is balanced |
| ModelBase.Model.RunBranch | base_python/source/model_base/ModelBase.py:617-618 | a branch run inside `solve` keeps the model well formed and every calculated branch balanced |
| ModelBase.Model.Uncalculate | base_python/source/model_base/ModelBase.py:620-626 | every branch other than the one that asked for the reset becomes uncalculated; that one keeps its state |
| ModelBase.Model.Visit | base_python/source/model_base/ModelBase.py:612-626 | an unknown branch name is a key error; a calculated branch is skipped unchanged; loop-controlled components are only ever appended |
| ModelBase.Model.Pass | base_python/source/model_base/ModelBase.py:612-626 | one pass over the calculation order only appends to the loop-controlled components |
| ModelBase.Model.ResetBranches | base_python/source/model_base/ModelBase.py:630-631 | afterwards every branch is uncalculated and has no loop-controlled components |
| ModelBase.Model.ResetBranch | base_python/source/model_base/ModelBase.py:631-632 | one branch becomes uncalculated and forgets its loop-controlled components |
| ModelBase.Model.ClearControlled | base_python/source/model_base/ModelBase.py:633-634 | every collected component gives up its controlled port, and a name the model does not know is a key error |
| ModelBase.Model.ClearOne | base_python/source/model_base/ModelBase.py:634 | the component controls no port any more |
| ModelBase.Model.SetPortsCalculated | base_python/source/model_base/ModelBase.py:636-638 | every mass port gets all four statuses calculated; energy ports and loop controls are unchanged |
| ModelBase.Model.CalculateComponent | base_python/source/model_base/ModelBase.py:636-638 | the mass ports of the components up to the given one are calculated and energy ports are unchanged |
| ModelBase.Model.SetCalculated | base_python/source/model_base/ModelBase.py:637-638 | each mass port gets all four statuses calculated and each energy port keeps its statuses |
| ModelBase.Model.CheckBalances | base_python/source/model_base/ModelBase.py:640-644 | the integrity check passes exactly when every branch's stream balance can be read; the first one that cannot gives the error |
| ModelBase.Model.StatusOf | base_python/source/model_base/ModelBase.py:647-649 | the status dictionary holds each component's status under its name, in the components' order |
| ModelBase.Model.Iterate | base_python/source/model_base/ModelBase.py:604-626 | at most `timeout_max` passes are made; without a failure the iteration ends with every branch calculated or with the passes used up; when all are calculated all are balanced; with no calculation order it fails with an attribute error |
| ModelBase.Model.Round | base_python/source/model_base/ModelBase.py:609-626 | one pass followed by the test whether every branch is calculated; no calculation order is an attribute error |
| ModelBase.Model.SetStatus | base_python/source/model_base/ModelBase.py:648-649 | the status is replaced and nothing the other steps of `solve` established changes |
| ModelBase.Model.Release | base_python/source/model_base/ModelBase.py:629-634 | every branch is reset and, when all collected components are known, each of them gives up its loop control; otherwise a key error |
| ModelBase.Model.Finish | base_python/source/model_base/ModelBase.py:635-651 | every mass port is calculated, and the step returns 0 with the statuses collected exactly when every branch balance is readable |
| ModelBase.Model.Collect | base_python/source/model_base/ModelBase.py:647-649 | the model's status becomes the components' statuses and the other end-of-step facts are kept |
| ModelBase.Model.Cleanup | base_python/source/model_base/ModelBase.py:628-651 | every branch is reset; the step succeeds with 0 exactly when all collected components are known and all balances readable, and then loop control is released, every mass port calculated and the statuses collected |
| ModelBase.Model.Solve | base_python/source/model_base/ModelBase.py:580-651 | a model without a time resolution is a model error; a solved step returns 0, every branch is balanced when all ended calculated, and afterwards branches are reset, mass ports calculated and statuses collected |
| ModelBase.Model.ResetPorts | base_python/source/model_base/ModelBase.py:544-547 | every port of the list starts an empty stream history |
| ModelBase.Model.SaveOne | base_python/source/model_base/ModelBase.py:575-576 | saving a port appends its current stream to its history and affects no port with another result record |
| ModelBase.Model.SavePorts | base_python/source/model_base/ModelBase.py:575-576 | the stream history of every port of the list gains exactly that port's current stream at its end, and no port with another result record changes |
| ModelBase.Model.SaveUnit | base_python/source/model_base/ModelBase.py:574-576 | the component's status history gains its current status and each of its ports' stream histories the port's current stream; no port with another result record changes |
| ModelBase.Model.ResetAll | base_python/source/model_base/ModelBase.py:544-547 | every component's status and storage level histories and every port's history are empty afterwards |
| ModelBase.Model.ResetComponent | base_python/source/model_base/ModelBase.py:546-547 | the components up to the given one have empty status and storage level histories and their ports empty histories |
| ModelBase.Model.SaveAll | base_python/source/model_base/ModelBase.py:572-576 | every component's status history gains its current status as collected in `status`, and every port's stream history its current stream; so the log gains one step whose statuses are `status` and whose streams are `m`, the ports' current streams, and the model stays well formed |
| ModelBase.Model.SaveComponent | base_python/source/model_base/ModelBase.py:573-576 | the status history of the given component gains its current status and each of its ports' stream histories the port's current stream; the components before it are saved already and every other component's histories are unaltered |
| ModelBase.Model.SaveNext | base_python/source/model_base/ModelBase.py:573-576 | one pass of the component loop: the `i`-th component is saved and the log records it for the step being saved, the components after it still for the steps before |
| ModelBase.Model.LoggedComponent | base_python/source/model_base/ModelBase.py:573-576 | once the `i`-th component's status history and its ports' stream histories have gained their current values and no other component changed, the components up to it are logged for one more step |
| ModelBase.Model.CurrentKept | base_python/source/model_base/ModelBase.py:574-576 | saving leaves the collected statuses and the current streams of the ports as they were |
| ModelBase.Model.UnitLoggedAppend | base_python/source/model_base/ModelBase.py:574-576 | a component whose status history gained its status and whose ports' stream histories gained their streams is logged for one more step whose statuses file that status and whose streams file those streams under its name |
| ModelBase.Model.UnitLoggedKept | base_python/source/model_base/ModelBase.py:573-576 | a component none of whose histories changed stays logged for the same steps |
| ModelBase.Model.SaveKeeping | base_python/source/model_base/ModelBase.py:573-576 | `SaveAll`, after which the model is still well formed and settled and the log has gained the step |
| ModelBase.Model.SaveStep | base_python/source/model_base/ModelBase.py:567-576 | saving the step whose streams are the current streams `m`: the log gains `status` and `m`, and the overall status becomes -1 when some component reports -1 |
| ModelBase.Model.SolveLogged | base_python/source/model_base/ModelBase.py:567 | `solve` leaves the log of the steps before as it was and collects the statuses |
| ModelBase.Model.SolveKeeping | base_python/source/model_base/ModelBase.py:580-651 | `solve` leaves the ports' histories as they were and collects the statuses |
| ModelBase.Model.RecordStep | base_python/source/model_base/ModelBase.py:567-576 | `now` holds the current streams of every component's ports; the log gains one step with the collected statuses and `now`, and the overall status becomes -1 when some component reports -1 and stays otherwise |
| ModelBase.Model.SetOverall | base_python/source/model_base/ModelBase.py:569 | the overall status is set; the log and the current streams the invariants read are as they were |
| ModelBase.Model.Step | base_python/source/model_base/ModelBase.py:565-576 | one time step solves the model and collects the statuses; on success every component's status history gains its collected status and every port's stream history its stream after the step (`now`), and the overall status follows the step |
| ModelBase.Model.StartRun | base_python/source/model_base/ModelBase.py:544-549 | every component's status and storage level histories and every port's history are emptied and the overall status is 0 |
| ModelBase.Model.LoggedEmpty | base_python/source/model_base/ModelBase.py:544-549 | once every history is emptied the log is empty: no step is recorded |
| ModelBase.Model.CurrentStreams | base_python/source/model_base/ModelBase.py:575-576 | the map holds, under every component's name, the current streams of its ports in port order, and has no other key |
| ModelBase.Model.Run | base_python/source/model_base/ModelBase.py:536-576 | a failing step count divides by zero and a model without resolution fails; otherwise exactly the step count of steps is solved, entry `i` of every component's status history is its status collected in step `i` and entry `i` of every port's stream history its stream after step `i`, the overall status is -1 exactly when some step reported -1, and the status is the last step's |
| ModelBase.Model.GetFullHoursOfUse | base_python/source/model_base/ModelBase.py:463-501 | an unknown component is a component error; otherwise the whole model is run, a failed run passes its error on, and after a successful run the hours of the component's one port of the type are reported |
| ModelBase.Model.HoursAfterRun | base_python/source/model_base/ModelBase.py:483-497 | the ports of the type are looked up on the component and the full-load hours of the one port are reported, with the errors of a missing, repeated or absent port |
| ModelBase.Model.RunSteps | base_python/source/model_base/ModelBase.py:563-576 | each step is solved and saved in order; a model without resolution fails, and a run of `count` steps logs `count` steps, entry by entry: each component's status in each step's statuses and each port's stream in each step's streams; the last logged statuses and streams are the current ones, and the overall status is that of those steps |

## Left out

- Thermodynamics: fluid creation and update, REFPROP, the van der Waals state and the pressure of the gas storage with its pressure history (Storage_Gas.py:69, 87-312, 382-416). They need floating-point physics libraries. Pressures and temperatures are carried as values only.
- Economic calculations: the `calc_*` cost methods of the generic unit, the grid cost functions, `calculate_costs` and `get_eeg` of the model. The economical data classes that hold their inputs are modelled.
- Database loading, logging, printing, `create_results` and the pandas export. The export data classes are modelled as records.
- `basic_calculations` in Conversion.py:159-197, which converts with floating-point physics.
- `convert_profile_time_resolution` and the profile wrappers of the model (ModelBase.py:290-461). They resample pandas series or only forward arguments. `add_profile_to_component_port` is modelled.
- `get_stream_profile_of_port` and `get_components`, two getters (a lookup and a deep copy).
- The `__str__` of the Excel coordinate and area classes.
- `Port.set_sign` and `PortResult.set_port_sign`, which no modelled operation calls.
- Getters not modelled: `get_max_stream_by_sign`, `get_stream_history_by_sign`, `get_port_by_external_identifier` and `get_stream_of_connected_component`.
- The three-element connection carrying an external identifier (Connections2Branches.py:26-29). Only (component, sign) connections are modelled.
- Conversion components such as the electrolyser and the compressor sub-component of the gas storage. They are not part of this model.
- The class registry `PortResult.instances` and the maximum streams of `PortResult.__post_init__`. `reset_IDs` is modelled on the id counters only.
- Ports.Port.SetStream: an infinite value that passes the limit check becomes `Err(InfiniteStream)`, while the source stores it. Streams are reals here. This concerns an unlimited active source (upper limit inf), a consumer's maximum stream of -inf, and an infinite charge power with a negative resolution.
- Storages.ChargeClamp: the same restriction; a charge clamp to an infinite bound is an error instead of an infinite stream.
- Branches.Branch.ControlStep: the same restriction for a loop-control value taken from an infinite port limit.
- Branches.Branch.Run: the balance is proved balanced when the branch is calculated. It is not tied to the sum of the port streams the component runs wrote. The calls themselves are recorded in the order and with the values stated by `RunFixed` and `RunAdaptive`.
- Ports.Port.SaveState: the mass port's history stores a snapshot of the mass fractions. In the source it stores the dictionary itself, which later updates alias.
- UnitRules.RunStorageGas: its contract states the component-level result (status, level, buffers). The effects on the ports are stated on `StorageRunAt` and `ExchangeWithMassPorts`.
- Settings.BasicEconomicalSettings.SetStartYear: modelled as written, writing the end year; the contract states that, and the intended version is listed under Findings.
- Grid port limits from `set_properties` are modelled as the grid's properties, not as stored port state.
- The warning logged by the gas storage for unexpected mass fractions is left out (logging only).
- Floating point: every float of the source is an exact real here. Conversion.ConversionRoundTrips and Storages.EnergyPowerRoundTrip state exact inverses, which IEEE doubles only meet up to rounding ((0.1 - 273.15) + 273.15 is 0.10000000000002274 in Python). The tolerance tests of the branch balance (Branches.py:410, 436) and of the gas storage level (Storage_Gas.py:431-442) can therefore decide differently in the source for values within a rounding error of their bound.
- ExcelCoordinates.CoordinateFromString: only the ASCII digits '0'-'9' count as digits. Python's `\d` (ExcelCoordinates.py:39) and `int()` also accept the other Unicode decimal digits, such as Arabic-Indic digits, which the model rejects with ValueError. Strings are plain character sequences here, with no Unicode character classes.
- Connections2Branches.Prioritized: the function has no contract of its own; `PrioritizedFollowsRules` states what it computes (the components the rules list, each once, in rule order).
- Connections2Branches.Schedule: the ordering loop runs for at most one more pass than there are components, as in the source. The `fuel` parameter is that bound, not an artificial one.

## Findings

| source | as written | input that shows it | evidently intended | confidence | as-written member | corrected member |
|---|---|---|---|---|---|---|
| base_python/source/model_base/Port.py:196-197 | a limit pair whose first bound has the larger magnitude is sorted in descending order, so a descending pair such as (10, 5) is stored unchanged | limit (10, 5) | the bound of smaller magnitude first, giving (5, 10) | low, not executed (every component passes an ordered pair, for which both agree) | `Ports.LimitOrderAsWritten`; `Ports.LimitOrderAsWrittenKeepsFarBoundFirst` | `Ports.LimitOrder`; `Ports.LimitOrderDiffersOnlyOnDescendingPairs` |
| base_python/source/model_base/Port.py:263-276 | `sign != 0` compares the direction enum with an int and always holds, so a bidirectional port looks for a profile under its own sign, which is never stored, and returns None; the branch meant for it could not work either, since `len(...) == StreamDirection.stream_out_of_component` never holds and `keys()[0]` cannot index a key view | a bidirectional port (a grid's default port) holding one stored profile | the single stored profile of a bidirectional port is read (all three tests corrected) | medium, not executed | `Ports.ProfileValuesAsWritten`; `Ports.BidirectionalProfileLostAsWritten` | `Ports.ProfileValues`; `Ports.ProfileRoundTrip` |
| base_python/source/modules/Storage_Gas.py:371-375 | the overflow correction subtracts `size / efficiency` from the new level, so for an efficiency below 1 the stream is corrected by the wrong amount and energy is not conserved | size 10, old level 9, efficiency 0.5, stream -10: the stream becomes -16, where -2 fills the storage exactly | the excess above the size, divided by the efficiency, is returned to the stream | high, not executed | `Storages.BufferStepAsWritten`; `Storages.BufferStepAsWrittenBreaksConservation` | `Storages.BufferStep`; `Storages.BufferStepConserves` |
| base_python/source/basic/Settings.py:71-81 | `set_start_year` stores the given year in `end_year` and keeps the start year | a range 2020-2040 given the start year 2025 becomes 2020-2025, six years instead of sixteen | the year becomes the start year and the end year is kept | high, not executed | `Settings.BasicEconomicalSettings.SetStartYear`; `Settings.StartYearAsWrittenShortensRange` | `Settings.BasicEconomicalSettings.SetStartYearIntended` |
