/** The battery voltage sensors (CVoltSensor): one analog pin each; the 9 V battery is
    read through a divider that halves it. Header and log line are the base class's. */
module Volt {
  import opened Io
  import opened Sensor

  /** The name that marks the 9 V battery's sensor. */
  const VOLT9_NAME: string := "   Volt9"

  /** A 10-bit reading of the 0..5 V converter, in volts. */
  function AdcVolts(rdg: int): (v: real)
    ensures 0 <= rdg < 1024 ==> 0.0 <= v < 5.0
    ensures rdg == 0 ==> v == 0.0
  {
    rdg as real * 5.0 / 1024.0
  }

  /** The battery voltage a reading stands for: twice the pin's voltage behind the
      9 V divider, the pin's voltage otherwise. */
  function BatteryVolts(name: string, rdg: int): (v: real)
    ensures name == VOLT9_NAME ==> v == 2.0 * AdcVolts(rdg)
    ensures name != VOLT9_NAME ==> v == AdcVolts(rdg)
    ensures 0 <= rdg < 1024 ==> 0.0 <= v < (if name == VOLT9_NAME then 10.0 else 5.0)
  {
    var v := AdcVolts(rdg);
    if name == VOLT9_NAME then 2.0 * v else v
  }

  class VoltSensor {
    const base: SensorBase

    constructor (name: string, pin: int, muxport: int)
      ensures fresh(base)
      ensures base.SensorName == name && base.PinNum == pin && base.MuxPort == muxport
      ensures base.Value == 0.0 && base.ErrMsg == "" && base.SensorAvailable && !base.HeaterOn
    {
      base := new SensorBase(name, pin, muxport);
    }

    /** ReadSensor(): reads the pin whether or not the sensor is in use, always succeeds,
        and never halts the system, whatever the voltage. */
    method ReadSensor(board: Board, rdg: int) returns (readOK: bool)
      modifies base, board
      ensures readOK
      ensures base.ErrMsg == "" && base.Value == BatteryVolts(base.SensorName, rdg)
      ensures base.SensorAvailable ==> !base.ShowsBlank()
      ensures base.SensorAvailable == old(base.SensorAvailable) && base.HeaterOn == old(base.HeaterOn)
      ensures board.trace == old(board.trace) + [Call(AnalogPin)]
      ensures board.muxSettings == old(board.muxSettings) && board.muxResponding == old(board.muxResponding)
    {
      readOK := true;
      base.ErrMsg := "";
      board.Transact(AnalogPin);   // analogRead(PinNum)
      base.Value := AdcVolts(rdg);
      if base.SensorName == VOLT9_NAME {
        base.Value := 2.0 * base.Value;
      }
    }
  }
}
