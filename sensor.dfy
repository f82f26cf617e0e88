/** What every sensor shares (the CMySensor base class): its current value and error
    message, whether it is still in use, its multiplexer port, the blank-or-value log
    field, the failure report made when initialisation fails, and the multiplexer port
    bracket a sensor on the mux puts around each access to its device. */
module Sensor {
  import opened Format
  import opened Record
  import opened Io
  import opened Mux
  import opened Faults

  /** FailSensor composes its report in a buffer of this many bytes. */
  const FAIL_MSG_SIZE: int := 80

  /** Width and decimals of the base class's one log field. */
  const FIELD_WIDTH: nat := 8
  const FIELD_PREC: nat := 2

  /** The report FailSensor hands to the fault list: "<name> Failure: <ErrMsg>", cut to
      what fits in its buffer. */
  function FailureMessage(name: string, errMsg: string): (msg: string)
    requires |name| < FAIL_MSG_SIZE
    ensures |msg| < FAIL_MSG_SIZE
    ensures |msg| <= |name + " Failure: " + errMsg|
    ensures msg == (name + " Failure: " + errMsg)[..|msg|]
    ensures |name + " Failure: " + errMsg| < FAIL_MSG_SIZE ==> msg == name + " Failure: " + errMsg
    ensures |name + " Failure: " + errMsg| >= FAIL_MSG_SIZE ==> |msg| == FAIL_MSG_SIZE - 1
  {
    var withLabel := Mstrcat(name, " Failure: ", FAIL_MSG_SIZE);
    var msg := Mstrcat(withLabel, errMsg, FAIL_MSG_SIZE);
    var full := name + " Failure: " + errMsg;
    assert withLabel == full[..|withLabel|] by {
      assert withLabel == name + (" Failure: ")[..|withLabel| - |name|];
    }
    assert msg == withLabel + errMsg[..|msg| - |withLabel|];
    assert |withLabel| < |name| + 10 ==> |msg| == |withLabel|;
    msg
  }

  /** The transaction EnableMuxPort(muxport) makes: none for a sensor not on the mux. */
  function MuxOpen(muxport: int): seq<Event>
    requires muxport >= NO_MUX
  {
    if muxport == NO_MUX then [] else [MuxEnable(ClampPort(muxport))]
  }

  /** The transaction DisableMuxPort(muxport) makes. */
  function MuxClose(muxport: int): seq<Event>
    requires muxport >= NO_MUX
  {
    if muxport == NO_MUX then [] else [MuxDisable(ClampPort(muxport))]
  }

  /** The register after EnableMuxPort(muxport): the port's bit set, unless the sensor is
      not on the mux or the mux gave no byte back. */
  function AfterEnable(settings: bv8, muxport: int, responding: bool): bv8
    requires muxport >= NO_MUX
  {
    if muxport == NO_MUX || !responding then settings else EnablePort(settings, ClampPort(muxport))
  }

  /** The register after DisableMuxPort(muxport). */
  function AfterDisable(settings: bv8, muxport: int, responding: bool): bv8
    requires muxport >= NO_MUX
  {
    if muxport == NO_MUX || !responding then settings else DisablePort(settings, ClampPort(muxport))
  }

  /** One access to a device on `muxport`: the port is enabled, the device calls are made,
      and the port is disabled again. */
  twostate predicate Bracketed(board: Board, muxport: int, calls: seq<Event>)
    requires muxport >= NO_MUX
    reads board
  {
    && board.trace == old(board.trace) + MuxOpen(muxport) + calls + MuxClose(muxport)
    && board.muxResponding == old(board.muxResponding)
    && board.muxSettings
         == AfterDisable(AfterEnable(old(board.muxSettings), muxport, old(board.muxResponding)),
                         muxport, old(board.muxResponding))
  }

  /** After a bracket the sensor's port is off and the other seven ports are as they were;
      so a port that was off before the bracket leaves the register exactly as it was. */
  lemma BracketRestoresRegister(settings: bv8, muxport: int, responding: bool)
    requires muxport >= NO_MUX
    ensures var after := AfterDisable(AfterEnable(settings, muxport, responding), muxport, responding);
      && (muxport != NO_MUX && responding ==>
            Ports(after) == Ports(settings)[ClampPort(muxport) := false])
      && (muxport != NO_MUX && !PortOn(settings, ClampPort(muxport)) ==> after == settings)
      && (muxport == NO_MUX || !responding ==> after == settings)
  {
    if muxport != NO_MUX && responding {
      var p := ClampPort(muxport);
      assert Ports(EnablePort(settings, p))[p := false] == Ports(settings)[p := false];
      if !PortOn(settings, p) {
        DisableUndoesEnable(settings, p);
      }
    }
  }

  /** An enable with no matching disable leaves the sensor's port on. */
  lemma EnableLeavesPortOn(settings: bv8, muxport: int)
    requires muxport >= 0
    ensures PortOn(AfterEnable(settings, muxport, true), ClampPort(muxport))
  {
    var p := ClampPort(muxport);
    assert AfterEnable(settings, muxport, true) == settings | PortMask(p);
    SetBit(settings, p, p);
  }

  /** The placeholder of every three-field sensor: three blank fields of eight. */
  const BLANK3: string := Spaces(8) + "," + Spaces(8) + "," + Spaces(8)

  lemma Blank3Layout()
    ensures HasLayout(BLANK3, [8, 8, 8]) && IsBlankLine(BLANK3) && |BLANK3| == 26
  {
    SplitThree(Spaces(8), Spaces(8), Spaces(8));
    BlankThree(Spaces(8), Spaces(8), Spaces(8));
  }

  /** The three-value data line the three-value sensors write: each value to two decimals in eight. */
  function ThreeValues(a: real, b: real, c: real): (line: string)
    ensures Split(line) == [Dtostrf(a, 8, 2), Dtostrf(b, 8, 2), Dtostrf(c, 8, 2)]
    ensures HasLayout(line, [8, 8, 8]) <==> Fits(a, 8, 2) && Fits(b, 8, 2) && Fits(c, 8, 2)
  {
    var first := Dtostrf(a, 8, 2);
    var second := Dtostrf(b, 8, 2);
    var third := Dtostrf(c, 8, 2);
    DtostrfSpec(a, 8, 2);
    DtostrfSpec(b, 8, 2);
    DtostrfSpec(c, 8, 2);
    SplitThree(first, second, third);
    first + "," + second + "," + third
  }

  class SensorBase {
    /** The current reading; its meaning depends on the variant. */
    var Value: real
    /** Non-empty when the last read failed. */
    var ErrMsg: string
    const SensorName: string
    /** Arduino pin, or an alternate I2C address. */
    const PinNum: int
    /** NO_MUX when the sensor is not on the multiplexer. */
    const MuxPort: int
    /** False once initialisation has failed: the sensor is skipped from then on. */
    var SensorAvailable: bool
    /** Read by the temperature sensors' heater column; the shown code never assigns it. */
    var HeaterOn: bool

    /** CMySensor(name, pin, muxport). HeaterOn is not assigned there; sensors are
        zero-initialised globals, so it starts false. */
    constructor (sensorName: string, pinnum: int, muxport: int)
      ensures SensorName == sensorName && PinNum == pinnum && MuxPort == muxport
      ensures Value == 0.0 && ErrMsg == "" && SensorAvailable && !HeaterOn
    {
      Value := 0.0;
      ErrMsg := "";
      SensorName := sensorName;
      PinNum := pinnum;
      MuxPort := muxport;
      SensorAvailable := true;
      HeaterOn := false;
    }

    /** A sensor whose last read failed, or that is out of use, logs blanks. */
    predicate ShowsBlank()
      reads this
    {
      ErrMsg != "" || !SensorAvailable
    }

    /** The header of a one-field sensor is its name: one field, as its log line is. */
    function GetHeader(): (header: string)
      reads this
      ensures header == SensorName
      ensures NoComma(SensorName) ==> Split(header) == [SensorName]
    {
      if NoComma(SensorName) then
        SplitJoin([SensorName]);
        SensorName
      else
        SensorName
    }

    /** The one field of a one-value sensor: blanks, or the value to two decimals, right
        aligned in eight characters (more when the value does not fit). */
    function GetLogLine(): (line: string)
      reads this
      ensures NoComma(line) && |line| >= FIELD_WIDTH
      ensures ShowsBlank() ==> line == Spaces(FIELD_WIDTH)
      ensures !ShowsBlank() ==> Shows(line, Value, FIELD_PREC)
      ensures |line| == FIELD_WIDTH <==> ShowsBlank() || Fits(Value, FIELD_WIDTH, FIELD_PREC)
    {
      if ErrMsg != "" || !SensorAvailable then "        "
      else
        DtostrfSpec(Value, 8, 2);
        Dtostrf(Value, 8, 2)
    }

    /** FailSensor(errcode): reports the failure with the current ErrMsg, then takes the
        sensor out of use and clears ErrMsg. */
    method FailSensor(errcode: int, faults: FaultList, logger: Logger)
      requires faults.Valid() && |SensorName| < FAIL_MSG_SIZE
      modifies this, faults, faults.errCodes, logger
      ensures !SensorAvailable && ErrMsg == ""
      ensures Value == old(Value) && HeaterOn == old(HeaterOn)
      ensures faults.Valid() && faults.reported == old(faults.reported) + [errcode]
      ensures faults.Codes()
              == if old(faults.MaxFlashCount) < MAX_ERROR_FLASH
                 then old(faults.Codes()) + [errcode] else old(faults.Codes())
      ensures logger.lines == old(logger.lines) + [FailureMessage(SensorName, old(ErrMsg))]
    {
      var msg := SensorName;
      msg := Mstrcat(msg, " Failure: ", FAIL_MSG_SIZE);
      msg := Mstrcat(msg, ErrMsg, FAIL_MSG_SIZE);
      faults.FlashStatusError(errcode, msg, logger);
      SensorAvailable := false;
      ErrMsg := "";
    }

    /** EnableMuxPort(muxport): sets the port's bit by a read-modify-write of the register;
        nothing for NO_MUX, port 7 for any port above it, and no write when the mux gives
        no byte back. */
    method EnableMuxPort(board: Board, muxport: int)
      requires muxport >= NO_MUX
      modifies board
      ensures board.trace == old(board.trace) + MuxOpen(muxport)
      ensures board.muxResponding == old(board.muxResponding)
      ensures board.muxSettings == AfterEnable(old(board.muxSettings), muxport, old(board.muxResponding))
    {
      if muxport == NO_MUX {
        return;
      }
      var port := muxport;
      if port > 7 {
        port := 7;
      }
      var available, settings := board.RequestMux(MuxEnable(port));
      if !available {
        return;
      }
      assert port == ClampPort(muxport);
      settings := EnablePort(settings, port);    // settings | (1 << port)
      board.WriteMux(settings);
    }

    /** DisableMuxPort(muxport): clears the port's bit, with the same guards. */
    method DisableMuxPort(board: Board, muxport: int)
      requires muxport >= NO_MUX
      modifies board
      ensures board.trace == old(board.trace) + MuxClose(muxport)
      ensures board.muxResponding == old(board.muxResponding)
      ensures board.muxSettings == AfterDisable(old(board.muxSettings), muxport, old(board.muxResponding))
    {
      if muxport == NO_MUX {
        return;
      }
      var port := muxport;
      if port > 7 {
        port := 7;
      }
      var available, settings := board.RequestMux(MuxDisable(port));
      if !available {
        return;
      }
      assert port == ClampPort(muxport);
      settings := DisablePort(settings, port);   // settings & ~(1 << port)
      board.WriteMux(settings);
    }
  }
}
