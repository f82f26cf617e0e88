/** The temperature sensors: the DS18B20 on a one-wire bus (CDS18BTempSensor) and the
    DHT22 with humidity (CDHTTempSensor). Either can drive the heater thermostat, and
    both log a heater column beside the temperature. */
module Temperature {
  import opened Format
  import opened Record
  import opened Io
  import opened Faults
  import opened Heater
  import opened Sensor

  /** A double as the DHT library returns it: a number, or NaN for a failed read. */
  datatype Double = Num(r: real) | NaN

  /** dtostrf on a double that may be NaN: avr-libc writes "nan", padded like a number. */
  function DtostrfDouble(d: Double, width: nat, prec: nat): string
  {
    match d
    case Num(r) => Dtostrf(r, width, prec)
    case NaN => PadLeft("nan", width)
  }

  /** A number is written as dtostrf writes it; NaN as "nan" behind blanks. Either way
      the text holds no comma and fills at least the width. */
  lemma DtostrfDoubleSpec(d: Double, width: nat, prec: nat)
    ensures var s := DtostrfDouble(d, width, prec);
      && NoComma(s) && |s| >= width
      && (d.Num? ==> s == Dtostrf(d.r, width, prec) && (|s| == width <==> Fits(d.r, width, prec)))
      && (d.NaN? ==> |s| >= 3 && s[|s| - 3..] == "nan")
  {
    match d
    case Num(r) =>
      DtostrfSpec(r, width, prec);
    case NaN =>
      var s := PadLeft("nan", width);
      forall i | 0 <= i < |s|
        ensures s[i] != ','
      {
        if i >= |s| - 3 {
          assert s[i] == s[|s| - 3..][i - (|s| - 3)];
        }
      }
  }

  /** The heater column: blank for a sensor that does not drive the heater, otherwise
      "On" or "Off" as the sensor's own HeaterOn says, always eight characters. */
  function HeaterColumn(useForHeaterControl: bool, heaterOn: bool): (column: string)
    ensures |column| == 8 && NoComma(column)
    ensures IsBlankLine(column) <==> !useForHeaterControl
    ensures useForHeaterControl ==> column[..3] == (if heaterOn then "On " else "Off")
    ensures useForHeaterControl ==>
              forall i :: (if heaterOn then 2 else 3) <= i < 8 ==> column[i] == ' '
  {
    if useForHeaterControl then
      var column := if heaterOn then "On      " else "Off     ";
      assert column[0] == 'O';
      column
    else "        "
  }

  const DS18B_PLACEHOLDER: string := Spaces(8) + "," + Spaces(8)

  /** The DS18B20 placeholder: two blank fields of eight. */
  lemma DS18BPlaceholderLayout()
    ensures HasLayout(DS18B_PLACEHOLDER, [8, 8]) && IsBlankLine(DS18B_PLACEHOLDER)
    ensures |DS18B_PLACEHOLDER| == 17
  {
    SplitTwo(Spaces(8), Spaces(8));
    BlankTwo(Spaces(8), Spaces(8));
  }

  class DS18BTempSensor {
    const base: SensorBase
    /** Whether this sensor's readings drive the heater; InitSensor clears it. */
    var UseForHeaterControl: bool

    constructor (name: string, pin: int, muxport: int)
      ensures fresh(base)
      ensures base.SensorName == name && base.PinNum == pin && base.MuxPort == muxport
      ensures base.Value == 0.0 && base.ErrMsg == "" && base.SensorAvailable && !base.HeaterOn
      ensures !UseForHeaterControl
    {
      base := new SensorBase(name, pin, muxport);
      UseForHeaterControl := false;
    }

    /** InitSensor(): with no device on the bus the failure goes through FailSensor, so the
        sensor ends out of use with ErrMsg cleared; otherwise the device is set up and its
        first conversion started. */
    method InitSensor(board: Board, faults: FaultList, logger: Logger, deviceCount: nat)
      requires faults.Valid() && |base.SensorName| < FAIL_MSG_SIZE
      modifies this, base, board, faults, faults.errCodes, logger
      ensures !UseForHeaterControl && faults.Valid()
      ensures board.muxSettings == old(board.muxSettings) && board.muxResponding == old(board.muxResponding)
      ensures base.Value == old(base.Value) && base.HeaterOn == old(base.HeaterOn)
      ensures deviceCount == 0 ==>
                && !base.SensorAvailable && base.ErrMsg == ""
                && board.trace == old(board.trace) + Calls(DS18B20, 2)
                && faults.reported == old(faults.reported) + [DS18B_NOT_FOUND]
                && logger.lines == old(logger.lines)
                     + [FailureMessage(base.SensorName, "No Devices found on DS18B bus")]
      ensures deviceCount > 0 ==>
                && base.SensorAvailable == old(base.SensorAvailable) && base.ErrMsg == old(base.ErrMsg)
                && board.trace == old(board.trace) + Calls(DS18B20, 5)
                && unchanged(faults, logger)
    {
      UseForHeaterControl := false;
      board.Transact(DS18B20);   // sensors->begin()
      board.Transact(DS18B20);   // sensors->getDeviceCount()
      if deviceCount == 0 {
        base.ErrMsg := "No Devices found on DS18B bus";
        base.FailSensor(DS18B_NOT_FOUND, faults, logger);
        assert Calls(DS18B20, 2) == [Call(DS18B20), Call(DS18B20)];
        return;
      }
      board.Transact(DS18B20);   // getAddress(insideThermometer, 0)
      board.Transact(DS18B20);   // setResolution(insideThermometer, 12)
      board.Transact(DS18B20);   // requestTemperatures(): the first conversion
      assert Calls(DS18B20, 5)
             == [Call(DS18B20), Call(DS18B20), Call(DS18B20), Call(DS18B20), Call(DS18B20)];
    }

    /** ReadSensor(): nothing for a sensor out of use; otherwise takes the last conversion,
        starts the next, and passes the value to the thermostat when this sensor drives
        it. Always reports success. */
    method ReadSensor(board: Board, heater: HeaterControl, tempC: real) returns (readOK: bool)
      modifies base, board, heater
      ensures readOK
      ensures !old(base.SensorAvailable) ==> unchanged(base, board, heater)
      ensures old(base.SensorAvailable) ==>
                && base.ErrMsg == "" && base.Value == tempC && base.SensorAvailable
                && board.trace == old(board.trace) + Calls(DS18B20, 2)
      ensures old(base.SensorAvailable) && UseForHeaterControl ==>
                && (heater.HeaterOn <==> Decide(tempC) == Heat)
                && heater.heaterPin == heater.HeaterOn && heater.heaterLed == heater.HeaterOn
      ensures !(old(base.SensorAvailable) && UseForHeaterControl) ==> unchanged(heater)
      ensures base.HeaterOn == old(base.HeaterOn)
      ensures board.muxSettings == old(board.muxSettings) && board.muxResponding == old(board.muxResponding)
    {
      readOK := true;
      if !base.SensorAvailable {
        return;
      }
      base.ErrMsg := "";
      board.Transact(DS18B20);   // getTempC(insideThermometer)
      base.Value := tempC;
      board.Transact(DS18B20);   // requestTemperatures(): the next conversion
      if readOK && UseForHeaterControl {
        heater.HeaterOnOff(base.Value);
      }
      assert Calls(DS18B20, 2) == [Call(DS18B20), Call(DS18B20)];
    }

    /** The sensor's name, then the heater column's title. */
    function GetHeader(): (header: string)
      reads base
      ensures NoComma(base.SensorName) ==> Split(header) == [base.SensorName, "HeaterOn"]
    {
      var title := "HeaterOn";
      if NoComma(base.SensorName) then
        SplitTwo(base.SensorName, title);
        base.SensorName + "," + title
      else
        base.SensorName + "," + title
    }

    /** Blanks, or the temperature to two decimals and the heater column. */
    function GetLogLine(): (line: string)
      reads this, base
      ensures base.ShowsBlank() ==> IsBlankLine(line) && HasLayout(line, [8, 8])
      ensures !base.ShowsBlank() ==>
                Split(line) == [Dtostrf(base.Value, 8, 2), HeaterColumn(UseForHeaterControl, base.HeaterOn)]
      ensures !base.ShowsBlank() ==> (HasLayout(line, [8, 8]) <==> Fits(base.Value, 8, 2))
    {
      if base.ErrMsg != "" || !base.SensorAvailable then
        DS18BPlaceholderLayout();
        DS18B_PLACEHOLDER
      else
        var temperature := Dtostrf(base.Value, 8, 2);
        DtostrfSpec(base.Value, 8, 2);
        var column := HeaterColumn(UseForHeaterControl, base.HeaterOn);
        SplitTwo(temperature, column);
        temperature + "," + column
    }
  }

  class DHTTempSensor {
    const base: SensorBase
    /** Whether this sensor's readings drive the heater; InitSensor clears it. */
    var UseForHeaterControl: bool
    var Humidity: Double

    constructor (name: string, pin: int, muxport: int)
      ensures fresh(base)
      ensures base.SensorName == name && base.PinNum == pin && base.MuxPort == muxport
      ensures base.Value == 0.0 && base.ErrMsg == "" && base.SensorAvailable && !base.HeaterOn
      ensures !UseForHeaterControl && Humidity == Num(0.0)
    {
      base := new SensorBase(name, pin, muxport);
      UseForHeaterControl := false;
      Humidity := Num(0.0);
    }

    /** InitSensor(): a test read that gives NaN means no sensor: FailSensor(DHT_NOT_FOUND). */
    method InitSensor(board: Board, faults: FaultList, logger: Logger, testRead: Double)
      requires faults.Valid() && |base.SensorName| < FAIL_MSG_SIZE
      modifies this, base, board, faults, faults.errCodes, logger
      ensures !UseForHeaterControl && faults.Valid() && Humidity == old(Humidity)
      ensures board.trace == old(board.trace) + Calls(DHT22, 2)
      ensures board.muxSettings == old(board.muxSettings) && board.muxResponding == old(board.muxResponding)
      ensures base.Value == old(base.Value) && base.HeaterOn == old(base.HeaterOn)
      ensures testRead.NaN? ==>
                && !base.SensorAvailable && base.ErrMsg == ""
                && faults.reported == old(faults.reported) + [DHT_NOT_FOUND]
                && logger.lines == old(logger.lines) + [FailureMessage(base.SensorName, "DHT sensor not found")]
      ensures testRead.Num? ==>
                && base.SensorAvailable == old(base.SensorAvailable) && base.ErrMsg == old(base.ErrMsg)
                && unchanged(faults, logger)
    {
      board.Transact(DHT22);   // dht->begin()
      UseForHeaterControl := false;
      board.Transact(DHT22);   // dht->readTemperature()
      assert Calls(DHT22, 2) == [Call(DHT22), Call(DHT22)];
      if testRead.NaN? {
        base.ErrMsg := "DHT sensor not found";
        base.FailSensor(DHT_NOT_FOUND, faults, logger);
        return;
      }
    }

    /** ReadSensor(): nothing for a sensor out of use; otherwise temperature and humidity
        are taken as read, except that a NaN temperature is stored as ABSOLUTE_ZERO and
        reported as a failed read. ErrMsg stays empty either way, so the line is logged. */
    method ReadSensor(board: Board, heater: HeaterControl, temperature: Double, humidity: Double)
      returns (readOK: bool)
      modifies this, base, board, heater
      ensures !old(base.SensorAvailable) ==> readOK && unchanged(this, base, board, heater)
      ensures old(base.SensorAvailable) ==>
                && readOK == temperature.Num?
                && base.ErrMsg == "" && base.SensorAvailable && !base.ShowsBlank()
                && base.Value == (if temperature.Num? then temperature.r else ABSOLUTE_ZERO)
                && Humidity == humidity
                && board.trace == old(board.trace) + Calls(DHT22, 2)
      ensures old(base.SensorAvailable) && UseForHeaterControl ==>
                && (heater.HeaterOn <==> Decide(base.Value) == Heat)
                && heater.heaterPin == heater.HeaterOn && heater.heaterLed == heater.HeaterOn
                && (temperature.NaN? ==> !heater.HeaterOn && !heater.heaterPin)
      ensures !(old(base.SensorAvailable) && UseForHeaterControl) ==> unchanged(heater)
      ensures UseForHeaterControl == old(UseForHeaterControl) && base.HeaterOn == old(base.HeaterOn)
      ensures board.muxSettings == old(board.muxSettings) && board.muxResponding == old(board.muxResponding)
    {
      readOK := true;
      if !base.SensorAvailable {
        return;
      }
      base.ErrMsg := "";
      board.Transact(DHT22);   // readTemperature()
      board.Transact(DHT22);   // readHumidity()
      assert Calls(DHT22, 2) == [Call(DHT22), Call(DHT22)];
      Humidity := humidity;
      if temperature.NaN? {
        base.Value := ABSOLUTE_ZERO;
        readOK := false;
      } else {
        base.Value := temperature.r;
      }
      if UseForHeaterControl {
        heater.HeaterOnOff(base.Value);
      }
    }

    /** The sensor's name, then the heater column's and the humidity's titles. */
    function GetHeader(): (header: string)
      reads base
      ensures NoComma(base.SensorName) ==> Split(header) == [base.SensorName, "HeaterOn", "DHTHumid"]
    {
      if NoComma(base.SensorName) then
        SplitThree(base.SensorName, "HeaterOn", "DHTHumid");
        base.SensorName + "," + "HeaterOn" + "," + "DHTHumid"
      else
        base.SensorName + "," + "HeaterOn" + "," + "DHTHumid"
    }

    /** Blanks, or temperature, heater column and humidity. */
    function GetLogLine(): (line: string)
      reads this, base
      ensures base.ShowsBlank() ==> IsBlankLine(line) && HasLayout(line, [8, 8, 8])
      ensures !base.ShowsBlank() ==>
                Split(line) == [Dtostrf(base.Value, 8, 2), HeaterColumn(UseForHeaterControl, base.HeaterOn),
                                DtostrfDouble(Humidity, 8, 2)]
      ensures !base.ShowsBlank() && Fits(base.Value, 8, 2) && Humidity.Num? && Fits(Humidity.r, 8, 2) ==>
                HasLayout(line, [8, 8, 8])
    {
      if base.ErrMsg != "" || !base.SensorAvailable then
        Blank3Layout();
        BLANK3
      else
        var temperature := Dtostrf(base.Value, 8, 2);
        DtostrfSpec(base.Value, 8, 2);
        var column := HeaterColumn(UseForHeaterControl, base.HeaterOn);
        var humidity := DtostrfDouble(Humidity, 8, 2);
        DtostrfDoubleSpec(Humidity, 8, 2);
        SplitThree(temperature, column, humidity);
        temperature + "," + column + "," + humidity
    }
  }

  /** A sensor named in eight characters logs in the header's layout: the header's field
      widths are those of the line whenever the values fit. */
  lemma DS18BAligned(s: DS18BTempSensor)
    requires |s.base.SensorName| == 8 && NoComma(s.base.SensorName)
    requires s.base.ShowsBlank() || Fits(s.base.Value, 8, 2)
    ensures HasLayout(s.GetHeader(), [8, 8]) && HasLayout(s.GetLogLine(), [8, 8])
  {
  }

  lemma DHTAligned(s: DHTTempSensor)
    requires |s.base.SensorName| == 8 && NoComma(s.base.SensorName)
    requires s.base.ShowsBlank() || (Fits(s.base.Value, 8, 2) && s.Humidity.Num? && Fits(s.Humidity.r, 8, 2))
    ensures HasLayout(s.GetHeader(), [8, 8, 8]) && HasLayout(s.GetLogLine(), [8, 8, 8])
  {
  }

  /** The heater column shows the sensor's own HeaterOn, not the thermostat's: a sensor
      driving a heater that is on still logs "Off" while its own flag is clear. */
  lemma HeaterColumnIgnoresThermostat(s: DS18BTempSensor, heater: HeaterControl)
    requires s.UseForHeaterControl && !s.base.ShowsBlank() && !s.base.HeaterOn && heater.HeaterOn
    ensures Split(s.GetLogLine())[1] == "Off     "
  {
  }

  /** A DHT22 read that failed is logged, not blanked: its temperature field reads
      " -273.00", the stand-in value, and never the blanks of an error. */
  lemma DHTBadReadLogged(s: DHTTempSensor)
    requires !s.base.ShowsBlank() && s.base.Value == ABSOLUTE_ZERO
    ensures Split(s.GetLogLine())[0] == " -273.00"
  {
    AbsoluteZeroText();
  }

  lemma AbsoluteZeroText()
    ensures Dtostrf(ABSOLUTE_ZERO, 8, 2) == " -273.00"
  {
    AbsoluteZeroScaled();
    AbsoluteZeroDigits();
    var digits := Unpadded(-273.0, 2);
    assert digits == "-" + "273.00";
    assert Dtostrf(ABSOLUTE_ZERO, 8, 2) == Spaces(1) + digits;
    assert Spaces(1) == " ";
  }

  lemma AbsoluteZeroScaled()
    ensures Scaled(-273.0, 2) == 27300
  {
    assert Pow10(2) == 100;
    assert Abs(-273.0) == 273.0;
  }

  lemma AbsoluteZeroDigits()
    ensures FixedPoint(27300, 2) == "273.00"
  {
    assert Whole(27300, 2) == 273 by {
      assert Pow10(2) == 100;
    }
    assert NatToString(273, 10) == "273" by {
      assert NatToString(2, 10) == "2";
      assert NatToString(27, 10) == "27";
    }
    assert ZeroPadded(27300, 2) == "00" by {
      assert ZeroPadded(2730, 1) == "0";
    }
    assert FixedPoint(27300, 2) == "273" + "." + "00";
  }
}
