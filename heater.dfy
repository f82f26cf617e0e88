/** The heater thermostat, driven from one temperature channel: re-decided from every
    sample alone, with a plausibility floor below which a sample counts as a bad read. */
module Heater {

  /** Degrees C: below the low limit the heater is switched on. */
  const HEATER_LOW_LIMIT: real := 4.0
  /** Degrees C: above the high limit the heater is switched off. */
  const HEATER_HIGH_LIMIT: real := 5.0
  /** A sample at or below this is not a temperature but a failed read. */
  const ABSOLUTE_ZERO: real := -273.0

  /** The three branches of HeaterOnOff, in the order they are tried. */
  datatype Branch = Heat | TooWarm | BadRead

  function Decide(theTemp: real): Branch
  {
    if theTemp < HEATER_LOW_LIMIT && theTemp > ABSOLUTE_ZERO then Heat
    else if theTemp > HEATER_HIGH_LIMIT then TooWarm
    else BadRead
  }

  /** Only the first branch heats: the heater runs exactly on plausible samples below the
      low limit, so a sample in the band between the limits, or at or below absolute zero,
      switches it off, whatever it was before. */
  lemma HeatsExactlyBelowLowLimit(theTemp: real)
    ensures Decide(theTemp) == Heat <==> ABSOLUTE_ZERO < theTemp < HEATER_LOW_LIMIT
    ensures HEATER_LOW_LIMIT <= theTemp <= HEATER_HIGH_LIMIT ==> Decide(theTemp) == BadRead
    ensures theTemp <= ABSOLUTE_ZERO ==> Decide(theTemp) == BadRead
    ensures theTemp > HEATER_HIGH_LIMIT <==> Decide(theTemp) == TooWarm
  {
  }

  class HeaterControl {
    /** The last decision made. */
    var HeaterOn: bool
    /** Output levels written to HEATER_PIN and HEATER_LED (true is HIGH / LED_ON). */
    var heaterPin: bool
    var heaterLed: bool

    /** The source's constructor does nothing; the object is a zero-initialised global. */
    constructor ()
      ensures !HeaterOn && !heaterPin && !heaterLed
    {
      HeaterOn := false;
      heaterPin := false;
      heaterLed := false;
    }

    /** Init(): heater off, indicator off. */
    method Init()
      modifies this
      ensures !HeaterOn && !heaterPin && !heaterLed
    {
      HeaterOn := false;
      heaterPin := false;
      heaterLed := false;
    }

    /** HeaterOnOff(theTemp): the new state depends on the sample only; the pin and the
        indicator follow the decision. */
    method HeaterOnOff(theTemp: real)
      modifies this
      ensures HeaterOn <==> Decide(theTemp) == Heat
      ensures HeaterOn <==> ABSOLUTE_ZERO < theTemp < HEATER_LOW_LIMIT
      ensures heaterPin == HeaterOn && heaterLed == HeaterOn
    {
      if theTemp < HEATER_LOW_LIMIT && theTemp > ABSOLUTE_ZERO {
        heaterPin, heaterLed := true, true;     // start heating
        HeaterOn := true;
      } else if theTemp > HEATER_HIGH_LIMIT {
        heaterPin, heaterLed := false, false;   // stop heating
        HeaterOn := false;
      } else {
        heaterPin, heaterLed := false, false;   // bad read: fail safe, off
        HeaterOn := false;
      }
    }
  }

  /** The thermostat's behaviour on sample values named in the design. */
  lemma HeaterExamples()
    ensures Decide(-10.0) == Heat
    ensures Decide(10.0) == TooWarm
    ensures Decide(-300.0) == BadRead
    ensures Decide(4.5) == BadRead
    ensures Decide(ABSOLUTE_ZERO) == BadRead
  {
  }
}
