/** The SCD30 CO2 sensor (CCO2Sensor: CO2 in Value, plus temperature and relative
    humidity) and the VEML6075 UV sensor (CUVSensor: UVA in Value, plus UVB and the UV
    index); both on the multiplexer. */
module Co2Uv {
  import opened Format
  import opened Record
  import opened Io
  import opened Mux
  import opened Faults
  import opened Sensor

  /** What one SCD30 poll gives: no new measurement yet, a measurement that could not be
      read, or CO2 in ppm, temperature in degrees C and relative humidity in %. */
  datatype Scd30Outcome = NoData | ReadFailed | Data(co2: real, temperature: real, humidity: real)

  /** What the three VEML6075 calls give. */
  datatype UvReading = UvReading(index: real, uva: real, uvb: real)

  const CO2_HEADER: string := "  CO2ppm" + "," + " SCDTemp" + "," + "   SCDRH"
  const UV_HEADER: string := "     UVA" + "," + "     UVB" + "," + " UVindex"

  const CO2_BEGIN_FAILED: string := "SCD30 CO2 sensor failed to begin"
  const CO2_READ_FAILED: string := "Error reading SCD30 CO2 sensor data"
  const UV_BEGIN_FAILED: string := "VEML 6075 sensor failed to initialize"

  lemma CO2HeaderLayout()
    ensures HasLayout(CO2_HEADER, [8, 8, 8]) && |CO2_HEADER| == 26
  {
    SplitThree("  CO2ppm", " SCDTemp", "   SCDRH");
  }

  lemma UVHeaderLayout()
    ensures HasLayout(UV_HEADER, [8, 8, 8]) && |UV_HEADER| == 26
  {
    SplitThree("     UVA", "     UVB", " UVindex");
  }

  class CO2Sensor {
    const base: SensorBase
    var scd30Temp: real
    var scd30RH: real

    constructor (name: string, pin: int, muxport: int)
      ensures fresh(base)
      ensures base.SensorName == name && base.PinNum == pin && base.MuxPort == muxport
      ensures base.Value == 0.0 && base.ErrMsg == "" && base.SensorAvailable && !base.HeaterOn
      ensures scd30Temp == 0.0 && scd30RH == 0.0
    {
      base := new SensorBase(name, pin, muxport);
      scd30Temp := 0.0;
      scd30RH := 0.0;
    }

    /** InitSensor(): a failed begin goes through FailSensor(CO2_NOT_FOUND) and returns at
        once, so the port enabled for it is never disabled; otherwise the measurement
        interval is set and the port disabled. */
    method InitSensor(board: Board, faults: FaultList, logger: Logger, begun: bool)
      requires base.MuxPort >= NO_MUX && faults.Valid() && |base.SensorName| < FAIL_MSG_SIZE
      modifies this, base, board, faults, faults.errCodes, logger
      ensures faults.Valid() && board.muxResponding == old(board.muxResponding)
      ensures base.Value == old(base.Value) && base.HeaterOn == old(base.HeaterOn)
      ensures scd30Temp == old(scd30Temp) && scd30RH == old(scd30RH)
      ensures !begun ==>
                && !base.SensorAvailable && base.ErrMsg == ""
                && faults.reported == old(faults.reported) + [CO2_NOT_FOUND]
                && logger.lines == old(logger.lines) + [FailureMessage(base.SensorName, CO2_BEGIN_FAILED)]
                && board.trace == old(board.trace) + MuxOpen(base.MuxPort) + [Call(SCD30)]
                && board.muxSettings == AfterEnable(old(board.muxSettings), base.MuxPort, old(board.muxResponding))
      ensures begun ==>
                && base.SensorAvailable == old(base.SensorAvailable) && base.ErrMsg == old(base.ErrMsg)
                && unchanged(faults, logger)
                && Bracketed(board, base.MuxPort, [Call(SCD30), Call(SCD30)])
    {
      if base.MuxPort != NO_MUX {
        base.EnableMuxPort(board, base.MuxPort);
      }
      board.Transact(SCD30);   // scd30.begin()
      if !begun {
        base.ErrMsg := CO2_BEGIN_FAILED;
        base.FailSensor(CO2_NOT_FOUND, faults, logger);
        return;
      }
      board.Transact(SCD30);   // setMeasurementInterval(5); a failure is only printed
      if base.MuxPort != NO_MUX {
        base.DisableMuxPort(board, base.MuxPort);
      }
    }

    /** ReadSensor(): nothing at all, the multiplexer included, for a sensor out of use;
        otherwise one poll inside a port bracket. With no new data the previous values
        stand; a failed read keeps them too and is recorded in ErrMsg. */
    method ReadSensor(board: Board, outcome: Scd30Outcome) returns (readOK: bool)
      requires base.MuxPort >= NO_MUX
      modifies this, base, board
      ensures !old(base.SensorAvailable) ==> readOK && unchanged(this, base, board)
      ensures old(base.SensorAvailable) ==>
                && Bracketed(board, base.MuxPort, [Call(SCD30)] + (if outcome.NoData? then [] else [Call(SCD30)]))
                && readOK == !outcome.ReadFailed?
                && base.SensorAvailable
                && (outcome.ReadFailed? <==> base.ShowsBlank())
      ensures old(base.SensorAvailable) && !outcome.Data? ==>
                && base.Value == old(base.Value) && scd30Temp == old(scd30Temp) && scd30RH == old(scd30RH)
                && base.ErrMsg == (if outcome.ReadFailed? then CO2_READ_FAILED else "")
      ensures old(base.SensorAvailable) && outcome.Data? ==>
                && base.ErrMsg == ""
                && base.Value == outcome.co2 && scd30Temp == outcome.temperature && scd30RH == outcome.humidity
      ensures base.HeaterOn == old(base.HeaterOn)
    {
      readOK := true;
      if !base.SensorAvailable {
        return;
      }
      if base.MuxPort != NO_MUX {
        base.EnableMuxPort(board, base.MuxPort);
      }
      base.ErrMsg := "";
      board.Transact(SCD30);   // scd30.dataReady()
      if !outcome.NoData? {
        board.Transact(SCD30);   // scd30.read()
        if outcome.ReadFailed? {
          base.ErrMsg := CO2_READ_FAILED;
          readOK := false;
        } else {
          scd30Temp := outcome.temperature;
          scd30RH := outcome.humidity;
          base.Value := outcome.co2;
        }
      }
      if base.MuxPort != NO_MUX {
        base.DisableMuxPort(board, base.MuxPort);
      }
    }

    function GetHeader(): (header: string)
      ensures HasLayout(header, [8, 8, 8]) && |header| == 26
    {
      CO2HeaderLayout();
      CO2_HEADER
    }

    /** Blanks in the header's layout, or CO2, temperature and humidity. */
    function GetLogLine(): (line: string)
      reads this, base
      ensures base.ShowsBlank() ==> IsBlankLine(line) && HasLayout(line, [8, 8, 8])
      ensures !base.ShowsBlank() ==>
                Split(line) == [Dtostrf(base.Value, 8, 2), Dtostrf(scd30Temp, 8, 2), Dtostrf(scd30RH, 8, 2)]
      ensures !base.ShowsBlank() ==>
                (HasLayout(line, [8, 8, 8])
                 <==> Fits(base.Value, 8, 2) && Fits(scd30Temp, 8, 2) && Fits(scd30RH, 8, 2))
    {
      if base.ErrMsg != "" || !base.SensorAvailable then
        Blank3Layout();
        BLANK3
      else
        ThreeValues(base.Value, scd30Temp, scd30RH)
    }
  }

  class UVSensor {
    const base: SensorBase
    var UVB: real
    var UVindex: real

    constructor (name: string, pin: int, muxport: int)
      ensures fresh(base)
      ensures base.SensorName == name && base.PinNum == pin && base.MuxPort == muxport
      ensures base.Value == 0.0 && base.ErrMsg == "" && base.SensorAvailable && !base.HeaterOn
      ensures UVB == 0.0 && UVindex == 0.0
    {
      base := new SensorBase(name, pin, muxport);
      UVB := 0.0;
      UVindex := 0.0;
    }

    /** InitSensor(): as for the CO2 sensor, a failed begin goes through
        FailSensor(UV_NOT_FOUND) and leaves the port enabled. */
    method InitSensor(board: Board, faults: FaultList, logger: Logger, begun: bool)
      requires base.MuxPort >= NO_MUX && faults.Valid() && |base.SensorName| < FAIL_MSG_SIZE
      modifies this, base, board, faults, faults.errCodes, logger
      ensures faults.Valid() && board.muxResponding == old(board.muxResponding)
      ensures base.Value == old(base.Value) && base.HeaterOn == old(base.HeaterOn)
      ensures UVB == old(UVB) && UVindex == old(UVindex)
      ensures !begun ==>
                && !base.SensorAvailable && base.ErrMsg == ""
                && faults.reported == old(faults.reported) + [UV_NOT_FOUND]
                && logger.lines == old(logger.lines) + [FailureMessage(base.SensorName, UV_BEGIN_FAILED)]
                && board.trace == old(board.trace) + MuxOpen(base.MuxPort) + [Call(VEML6075)]
                && board.muxSettings == AfterEnable(old(board.muxSettings), base.MuxPort, old(board.muxResponding))
      ensures begun ==>
                && base.SensorAvailable == old(base.SensorAvailable) && base.ErrMsg == old(base.ErrMsg)
                && unchanged(faults, logger)
                && Bracketed(board, base.MuxPort, [Call(VEML6075)])
    {
      if base.MuxPort != NO_MUX {
        base.EnableMuxPort(board, base.MuxPort);
      }
      board.Transact(VEML6075);   // uv.begin()
      if !begun {
        base.ErrMsg := UV_BEGIN_FAILED;
        base.FailSensor(UV_NOT_FOUND, faults, logger);
        return;
      }
      if base.MuxPort != NO_MUX {
        base.DisableMuxPort(board, base.MuxPort);
      }
    }

    /** ReadSensor(): nothing for a sensor out of use; otherwise the index, UVA and UVB are
        all overwritten inside a port bracket, and the read always succeeds. */
    method ReadSensor(board: Board, reading: UvReading) returns (readOK: bool)
      requires base.MuxPort >= NO_MUX
      modifies this, base, board
      ensures readOK
      ensures !old(base.SensorAvailable) ==> unchanged(this, base, board)
      ensures old(base.SensorAvailable) ==>
                && Bracketed(board, base.MuxPort, Calls(VEML6075, 3))
                && base.ErrMsg == "" && base.SensorAvailable
                && UVindex == reading.index && base.Value == reading.uva && UVB == reading.uvb
      ensures base.HeaterOn == old(base.HeaterOn)
    {
      readOK := true;
      if !base.SensorAvailable {
        return;
      }
      if base.MuxPort != NO_MUX {
        base.EnableMuxPort(board, base.MuxPort);
      }
      base.ErrMsg := "";
      board.Transact(VEML6075);   // uv.index()
      UVindex := reading.index;
      board.Transact(VEML6075);   // uv.uva()
      base.Value := reading.uva;
      board.Transact(VEML6075);   // uv.uvb()
      UVB := reading.uvb;
      assert Calls(VEML6075, 3) == [Call(VEML6075), Call(VEML6075), Call(VEML6075)];
      if base.MuxPort != NO_MUX {
        base.DisableMuxPort(board, base.MuxPort);
      }
    }

    function GetHeader(): (header: string)
      ensures HasLayout(header, [8, 8, 8]) && |header| == 26
    {
      UVHeaderLayout();
      UV_HEADER
    }

    /** Blanks in the header's layout, or UVA, UVB and the index. */
    function GetLogLine(): (line: string)
      reads this, base
      ensures base.ShowsBlank() ==> IsBlankLine(line) && HasLayout(line, [8, 8, 8])
      ensures !base.ShowsBlank() ==>
                Split(line) == [Dtostrf(base.Value, 8, 2), Dtostrf(UVB, 8, 2), Dtostrf(UVindex, 8, 2)]
      ensures !base.ShowsBlank() ==>
                (HasLayout(line, [8, 8, 8])
                 <==> Fits(base.Value, 8, 2) && Fits(UVB, 8, 2) && Fits(UVindex, 8, 2))
    {
      if base.ErrMsg != "" || !base.SensorAvailable then
        Blank3Layout();
        BLANK3
      else
        ThreeValues(base.Value, UVB, UVindex)
    }
  }
}
