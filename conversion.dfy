/** Time-resolution and unit conversions (helper/Conversion.py). */
module Conversion {
  import opened Wrappers
  import opened CustomErrors

  /** `resolution2second(m)`: seconds in a time step of m minutes. */
  function Resolution2Second(minutes: real): (r: real)
    ensures r / 60.0 == minutes
  {
    60.0 * minutes
  }

  /** `second2resolution(m)`: one second as a fraction of an m-minute step; division by a zero step raises. */
  function Second2Resolution(minutes: real): (r: Result<real>)
    ensures r.Err? <==> minutes == 0.0
    ensures r.Err? ==> r.error == ZeroDivisionError
    ensures r.Ok? ==> r.value * Resolution2Second(minutes) == 1.0
  {
    if minutes == 0.0 then Err(ZeroDivisionError) else Ok(1.0 / (60.0 * minutes))
  }

  /** `resolution2hour(m)`: an m-minute step in hours. */
  function Resolution2Hour(minutes: real): (r: real)
    ensures r * 3600.0 == Resolution2Second(minutes)
  {
    minutes / 60.0
  }

  /** `hour2resolution(m)`: steps of m minutes per hour; division by a zero step raises. */
  function Hour2Resolution(minutes: real): (r: Result<real>)
    ensures r.Err? <==> minutes == 0.0
    ensures r.Err? ==> r.error == ZeroDivisionError
    ensures r.Ok? ==> r.value * Resolution2Hour(minutes) == 1.0
  {
    if minutes == 0.0 then Err(ZeroDivisionError) else Ok(60.0 / minutes)
  }

  const KelvinOffset: real := 273.15
  const PascalPerBar: real := 100000.0

  /** `K2C`: a temperature in Kelvin as degrees Celsius, 273.15 lower. */
  function K2C(kelvin: real): (r: real)
    ensures r + KelvinOffset == kelvin
  {
    kelvin - KelvinOffset
  }

  /** `C2K`: a temperature in degrees Celsius as Kelvin, 273.15 higher. */
  function C2K(celsius: real): (r: real)
    ensures r - KelvinOffset == celsius
  {
    celsius + KelvinOffset
  }

  /** `Pa2bar`: a pressure in Pascal as bar, `x * 10 ** -5`. */
  function Pa2bar(pascal: real): (r: real)
    ensures r * PascalPerBar == pascal
  {
    pascal * (1.0 / PascalPerBar)
  }

  /** `bar2Pa`: a pressure in bar as Pascal, `x * 10 ** 5`. */
  function Bar2Pa(bar: real): (r: real)
    ensures r / PascalPerBar == bar
  {
    bar * PascalPerBar
  }

  /** Kelvin/Celsius and Pascal/bar conversions are mutually inverse. */
  lemma ConversionRoundTrips(x: real)
    ensures C2K(K2C(x)) == x && K2C(C2K(x)) == x
    ensures Bar2Pa(Pa2bar(x)) == x && Pa2bar(Bar2Pa(x)) == x
    ensures K2C(KelvinOffset) == 0.0 && Pa2bar(PascalPerBar) == 1.0
  {
  }
}
