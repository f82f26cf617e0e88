/** The BMP388 barometer (CBMP388Sensor): pressure in Value, plus altitude and the
    temperature inside the box; on the multiplexer. */
module Bmp388 {
  import opened Format
  import opened Record
  import opened Io
  import opened Mux
  import opened Faults
  import opened Sensor

  /** What performReading gives: nothing, or pressure in Pa, temperature in degrees C
      and the altitude in metres the library derives from the configured sea-level
      pressure. */
  datatype Reading = ReadFailed | Read(pressure: real, temperature: real, altitude: real)

  const HEADER: string := "  bmpHpa" + "," + "  bmpAlt" + "," + " bmpTemp"

  /** begin_I2C, then the four configuration calls, made whether begin worked or not. */
  const INIT_CALLS: nat := 5

  /** The header: three fields of eight characters, 26 in all. */
  lemma HeaderLayout()
    ensures HasLayout(HEADER, [8, 8, 8]) && |HEADER| == 26
  {
    SplitThree("  bmpHpa", "  bmpAlt", " bmpTemp");
  }

  class BMP388Sensor {
    const base: SensorBase
    var bmpAltitude: real
    var bmpTemperature: real

    constructor (name: string, pin: int, muxport: int)
      ensures fresh(base)
      ensures base.SensorName == name && base.PinNum == pin && base.MuxPort == muxport
      ensures base.Value == 0.0 && base.ErrMsg == "" && base.SensorAvailable && !base.HeaterOn
      ensures bmpAltitude == 0.0 && bmpTemperature == 0.0
    {
      base := new SensorBase(name, pin, muxport);
      bmpAltitude := 0.0;
      bmpTemperature := 0.0;
    }

    /** InitSensor(): a failed begin is reported as BMP388_NOT_FOUND and the sensor taken
        out of use directly, not through FailSensor, so ErrMsg is left as it was; the
        configuration calls are made either way, inside one port bracket. */
    method InitSensor(board: Board, faults: FaultList, logger: Logger, begun: bool)
      requires base.MuxPort >= NO_MUX && faults.Valid()
      modifies base, board, faults, faults.errCodes, logger
      ensures Bracketed(board, base.MuxPort, Calls(BMP388, INIT_CALLS))
      ensures faults.Valid()
      ensures base.SensorAvailable == (old(base.SensorAvailable) && begun)
      ensures base.Value == old(base.Value) && base.ErrMsg == old(base.ErrMsg)
      ensures base.HeaterOn == old(base.HeaterOn)
      ensures begun ==> unchanged(faults, logger)
      ensures !begun ==>
                && faults.reported == old(faults.reported) + [BMP388_NOT_FOUND]
                && logger.lines == old(logger.lines) + ["BMP388 sensor failed to initialize"]
    {
      if base.MuxPort != NO_MUX {
        base.EnableMuxPort(board, base.MuxPort);
      }
      board.Transact(BMP388);
      if !begun {
        faults.FlashStatusError(BMP388_NOT_FOUND, "BMP388 sensor failed to initialize", logger);
        base.SensorAvailable := false;
      }
      Configure(board);
      assert [Call(BMP388)] + Calls(BMP388, INIT_CALLS - 1) == Calls(BMP388, INIT_CALLS);
      if base.MuxPort != NO_MUX {
        base.DisableMuxPort(board, base.MuxPort);
      }
    }

    /** The four configuration calls InitSensor makes after begin_I2C. */
    method Configure(board: Board)
      modifies board
      ensures board.trace == old(board.trace) + Calls(BMP388, INIT_CALLS - 1)
      ensures board.muxSettings == old(board.muxSettings) && board.muxResponding == old(board.muxResponding)
    {
      board.Transact(BMP388);   // setTemperatureOversampling
      board.Transact(BMP388);   // setPressureOversampling
      board.Transact(BMP388);   // setIIRFilterCoeff
      board.Transact(BMP388);   // setOutputDataRate
      assert Calls(BMP388, INIT_CALLS - 1) == [Call(BMP388), Call(BMP388), Call(BMP388), Call(BMP388)];
    }

    /** ReadSensor(): nothing at all for a sensor out of use; otherwise, inside a port
        bracket, one reading, and after a good reading a second device access for the
        altitude; Value is reset before them and a failure is recorded in ErrMsg. */
    method ReadSensor(board: Board, reading: Reading) returns (readOK: bool)
      requires base.MuxPort >= NO_MUX
      modifies this, base, board
      ensures !old(base.SensorAvailable) ==> readOK && unchanged(this, base, board)
      ensures old(base.SensorAvailable) ==>
                && Bracketed(board, base.MuxPort,
                             [Call(BMP388)] + if reading.Read? then [Call(BMP388)] else [])
                && readOK == reading.Read?
                && base.SensorAvailable
      ensures old(base.SensorAvailable) && reading.ReadFailed? ==>
                && base.ErrMsg == base.SensorName + " Failed to perform reading"
                && base.Value == 0.0
                && bmpAltitude == old(bmpAltitude) && bmpTemperature == old(bmpTemperature)
      ensures old(base.SensorAvailable) && reading.Read? ==>
                && base.ErrMsg == ""
                && base.Value == reading.pressure / 100.0
                && bmpAltitude == reading.altitude && bmpTemperature == reading.temperature
      ensures base.HeaterOn == old(base.HeaterOn)
    {
      readOK := true;
      if !base.SensorAvailable {
        return;
      }
      if base.MuxPort != NO_MUX {
        base.EnableMuxPort(board, base.MuxPort);
      }
      base.ErrMsg := "";
      base.Value := 0.0;
      board.Transact(BMP388);
      if reading.ReadFailed? {
        base.ErrMsg := base.SensorName;
        base.ErrMsg := base.ErrMsg + " Failed to perform reading";
        readOK := false;
      } else {
        base.Value := reading.pressure / 100.0;   // in hPa
        board.Transact(BMP388);   // readAltitude, from the sea-level pressure
        bmpTemperature := reading.temperature;
        bmpAltitude := reading.altitude;
      }
      if base.MuxPort != NO_MUX {
        base.DisableMuxPort(board, base.MuxPort);
      }
    }

    /** Three fields of eight: pressure, altitude, temperature. */
    function GetHeader(): (header: string)
      ensures HasLayout(header, [8, 8, 8]) && |header| == 26
    {
      HeaderLayout();
      HEADER
    }

    /** Blanks in the header's layout, or the three values to two decimals; the line is
        aligned with the header whenever each value fits its eight characters. */
    function GetLogLine(): (line: string)
      reads this, base
      ensures base.ShowsBlank() ==> IsBlankLine(line) && HasLayout(line, [8, 8, 8])
      ensures !base.ShowsBlank() ==>
                Split(line) == [Dtostrf(base.Value, 8, 2), Dtostrf(bmpAltitude, 8, 2),
                                Dtostrf(bmpTemperature, 8, 2)]
      ensures !base.ShowsBlank() ==>
                (HasLayout(line, [8, 8, 8])
                 <==> Fits(base.Value, 8, 2) && Fits(bmpAltitude, 8, 2) && Fits(bmpTemperature, 8, 2))
    {
      if base.ErrMsg != "" || !base.SensorAvailable then
        Blank3Layout();
        BLANK3
      else
        ThreeValues(base.Value, bmpAltitude, bmpTemperature)
    }
  }
}
