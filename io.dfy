/** The hardware the sensors act on, reduced to what the firmware's own logic depends on:
    the I2C multiplexer's port-enable register, a record of the transactions made with
    devices, and the text logger. Device libraries themselves are not modelled; what they
    return is passed to the sensor methods as parameters. */
module Io {

  /** Devices behind library calls. */
  datatype Device = BMP388 | SCD30 | VEML6075 | GNSS | DHT22 | DS18B20 | AnalogPin

  /** One hardware transaction, in the order it is made. */
  datatype Event =
    | MuxEnable(port: int)    // read-modify-write of the mux register setting `port`
    | MuxDisable(port: int)   // read-modify-write of the mux register clearing `port`
    | Call(device: Device)    // one exchange with a device

  class Board {
    /** The multiplexer's 8-bit port-enable register (I2C address MUX_ADDRESS). */
    var muxSettings: bv8
    /** Whether the multiplexer answers a one-byte read (Wire.available() after requestFrom). */
    var muxResponding: bool
    /** Every transaction made so far; ghost, for stating which calls a method makes. */
    ghost var trace: seq<Event>

    constructor (settings: bv8, responding: bool)
      ensures muxSettings == settings && muxResponding == responding && trace == []
    {
      muxSettings := settings;
      muxResponding := responding;
      trace := [];
    }

    /** beginTransmission + requestFrom(MUX_ADDRESS, 1) for the read-modify-write `request`:
        whether a byte came back, and that byte. */
    method RequestMux(request: Event) returns (available: bool, settings: bv8)
      modifies this
      ensures trace == old(trace) + [request]
      ensures available == muxResponding && settings == muxSettings
      ensures muxSettings == old(muxSettings) && muxResponding == old(muxResponding)
    {
      trace := trace + [request];
      available := muxResponding;
      settings := muxSettings;
    }

    /** write(settings) + endTransmission: the register takes the new value. */
    method WriteMux(settings: bv8)
      modifies this
      ensures muxSettings == settings
      ensures muxResponding == old(muxResponding) && trace == old(trace)
    {
      muxSettings := settings;
    }

    /** One exchange with a device; its result reaches the caller as a parameter. */
    method Transact(device: Device)
      modifies this
      ensures trace == old(trace) + [Call(device)]
      ensures muxSettings == old(muxSettings) && muxResponding == old(muxResponding)
    {
      trace := trace + [Call(device)];
    }
  }

  /** n exchanges with one device, one per library call. */
  function Calls(device: Device, n: nat): (events: seq<Event>)
    ensures |events| == n
    ensures forall i :: 0 <= i < n ==> events[i] == Call(device)
  {
    if n == 0 then [] else [Call(device)] + Calls(device, n - 1)
  }

  /** TheLogger: an output-only sink of text lines. */
  class Logger {
    ghost var lines: seq<string>

    constructor ()
      ensures lines == []
    {
      lines := [];
    }

    method LogMsg(msg: string)
      modifies this
      ensures lines == old(lines) + [msg]
    {
      lines := lines + [msg];
    }
  }
}
