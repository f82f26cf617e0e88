/** The u-blox GNSS receiver (CGPSSensor): altitude in Value, latitude and longitude,
    and the fix state machine that logs how long a fix took to establish or to lose.
    It is wired straight to the bus, not through the multiplexer. */
module Gps {
  import opened Format
  import opened Record
  import opened Io
  import opened Faults
  import opened Sensor

  /** millis() and startFixTime are 32-bit unsigned. */
  const UINT32: int := 0x1_0000_0000

  /** What MicroNMEA holds after checkUblox: whether the last fix sentence was valid, the
      position in millionths of a degree, and the altitude in mm when getAltitude gives one. */
  datatype Altitude = NoAltitude | AltitudeMm(mm: int)
  datatype Nmea = Nmea(valid: bool, latitude: int, longitude: int, altitude: Altitude)

  const GPS_BEGIN_FAILED: string := "u-blox GNSS not detected at default I2C address 0x42. Please check wiring."
  const ESTABLISHED: string := "Established fix in"
  const LOST: string := "Lost fix in"

  const HEADER: string := "Altitude" + "," + "  Latitude" + "," + " Longitude"
  const PLACEHOLDER: string := Spaces(8) + "," + Spaces(10) + "," + Spaces(10)

  /** millis() - startFixTime in unsigned 32-bit arithmetic: the time since the start,
      also across a wrap of the clock. */
  function ElapsedMs(now: int, start: int): (ms: int)
    requires 0 <= now < UINT32 && 0 <= start < UINT32
    ensures 0 <= ms < UINT32
    ensures now >= start ==> ms == now - start
    ensures now < start ==> ms == now - start + UINT32
  {
    (now - start) % UINT32
  }

  /** The log line for a change of fix: the title, the minutes since startFixTime to one
      decimal in a field of eight, and " minutes". */
  function FixMessage(title: string, now: int, start: int): string
    requires 0 <= now < UINT32 && 0 <= start < UINT32
  {
    title + Dtostrf(ElapsedMs(now, start) as real / 1000.0 / 60.0, 8, 1) + " minutes"
  }

  /** The message is the title, the minutes since the start to one decimal in at least
      eight characters, and " minutes". */
  lemma FixMessageShows(title: string, now: int, start: int)
    requires 0 <= now < UINT32 && 0 <= start < UINT32
    ensures var msg := FixMessage(title, now, start);
      && |msg| >= |title| + 8 + 8 && msg[..|title|] == title
      && Shows(msg[|title|..|msg| - 8], ElapsedMs(now, start) as real / 1000.0 / 60.0, 1)
      && msg[|msg| - 8..] == " minutes"
  {
    var minutes := ElapsedMs(now, start) as real / 1000.0 / 60.0;
    var field := Dtostrf(minutes, 8, 1);
    DtostrfSpec(minutes, 8, 1);
    var msg := FixMessage(title, now, start);
    assert msg == title + field + " minutes";
    assert |msg| == |title| + |field| + 8;
    assert msg[..|title|] == title;
    assert msg[|title|..|msg| - 8] == field;
    assert msg[|msg| - 8..] == " minutes";
  }

  /** The transitions ReadSensor makes on the fix flag. */
  datatype FixStep = Established | Lost | Kept

  /** A valid sentence establishes a fix that was not there when the receiver reports a fix
      type; an invalid one with fix type 0 loses it; everything else keeps the flag. */
  function Step(fix: bool, valid: bool, fixType: int): (step: FixStep)
    ensures step == Established <==> valid && !fix && fixType > 0
    ensures step == Lost <==> !valid && fixType == 0
  {
    if valid then
      if !fix && fixType > 0 then Established else Kept
    else if fixType == 0 then Lost else Kept
  }

  /** The flag after a step. */
  function NextFix(fix: bool, step: FixStep): (next: bool)
    ensures step == Established ==> next
    ensures step == Lost ==> !next
    ensures step == Kept ==> next == fix
  {
    match step
    case Established => true
    case Lost => false
    case Kept => fix
  }

  /** What a step writes to the log: the time a fix took to establish or to lose. */
  function FixLog(step: FixStep, now: int, start: int): (lines: seq<string>)
    requires 0 <= now < UINT32 && 0 <= start < UINT32
    ensures |lines| == (if step == Kept then 0 else 1)
  {
    match step
    case Established => [FixMessage(ESTABLISHED, now, start)]
    case Lost => [FixMessage(LOST, now, start)]
    case Kept => []
  }

  /** startFixTime after a step: restarted on every change of fix. */
  function NextStart(step: FixStep, now: int, start: int): int
  {
    if step == Kept then start else now
  }

  /** The fix state machine: a fix is established only from no fix, is kept while
      sentences are valid, and is lost only on an invalid sentence with fix type 0 —
      a step that is taken, and logged, on every such read, with or without a fix before. */
  lemma FixStateMachine(fix: bool, valid: bool, fixType: int)
    requires 0 <= fixType < 256
    ensures Step(fix, valid, fixType) == Established ==> !fix && valid
    ensures valid && fix ==> NextFix(fix, Step(fix, valid, fixType))
    ensures !NextFix(fix, Step(fix, valid, fixType)) && fix <==> !valid && fixType == 0 && fix
    ensures Step(fix, valid, fixType) == Lost <==> !valid && fixType == 0
    ensures NextFix(fix, Step(fix, valid, fixType)) <==> (valid && (fix || fixType > 0)) || (!valid && fixType > 0 && fix)
  {
  }

  class GPSSensor {
    const base: SensorBase
    var Latitude: real
    var Longitude: real
    var GPS_fix: bool
    /** millis() when the fix last changed, or when the object or InitSensor started. */
    var startFixTime: int

    predicate Valid()
      reads this
    {
      0 <= startFixTime < UINT32
    }

    /** The member initialiser of startFixTime reads the clock at construction. */
    constructor (name: string, pin: int, muxport: int, now: int)
      requires 0 <= now < UINT32
      ensures fresh(base) && Valid()
      ensures base.SensorName == name && base.PinNum == pin && base.MuxPort == muxport
      ensures base.Value == 0.0 && base.ErrMsg == "" && base.SensorAvailable && !base.HeaterOn
      ensures Latitude == 0.0 && Longitude == 0.0 && !GPS_fix && startFixTime == now
    {
      base := new SensorBase(name, pin, muxport);
      Latitude := 0.0;
      Longitude := 0.0;
      GPS_fix := false;
      startFixTime := now;
    }

    /** InitSensor(): a receiver that does not answer goes through FailSensor(GPS_NOT_FOUND);
        otherwise it is configured, and the fix and position start from nothing at `now`. */
    method InitSensor(board: Board, faults: FaultList, logger: Logger, begun: bool, now: int)
      requires Valid() && faults.Valid() && |base.SensorName| < FAIL_MSG_SIZE && 0 <= now < UINT32
      modifies this, base, board, faults, faults.errCodes, logger
      ensures Valid() && faults.Valid() && base.HeaterOn == old(base.HeaterOn)
      ensures board.muxSettings == old(board.muxSettings) && board.muxResponding == old(board.muxResponding)
      ensures !begun ==>
                && !base.SensorAvailable && base.ErrMsg == ""
                && faults.reported == old(faults.reported) + [GPS_NOT_FOUND]
                && logger.lines == old(logger.lines) + [FailureMessage(base.SensorName, GPS_BEGIN_FAILED)]
                && board.trace == old(board.trace) + [Call(GNSS)]
                && base.Value == old(base.Value) && Latitude == old(Latitude) && Longitude == old(Longitude)
                && GPS_fix == old(GPS_fix) && startFixTime == old(startFixTime)
      ensures begun ==>
                && base.SensorAvailable == old(base.SensorAvailable) && base.ErrMsg == old(base.ErrMsg)
                && unchanged(faults, logger)
                && board.trace == old(board.trace) + Calls(GNSS, 4)
                && base.Value == 0.0 && Latitude == 0.0 && Longitude == 0.0
                && !GPS_fix && startFixTime == now
    {
      board.Transact(GNSS);   // myGNSS.begin()
      if !begun {
        base.ErrMsg := GPS_BEGIN_FAILED;
        base.FailSensor(GPS_NOT_FOUND, faults, logger);
        return;
      }
      board.Transact(GNSS);   // setI2COutput(COM_TYPE_UBX | COM_TYPE_NMEA)
      board.Transact(GNSS);   // saveConfigSelective(VAL_CFG_SUBSEC_IOPORT)
      board.Transact(GNSS);   // setProcessNMEAMask(SFE_UBLOX_FILTER_NMEA_ALL)
      assert Calls(GNSS, 4) == [Call(GNSS), Call(GNSS), Call(GNSS), Call(GNSS)];
      GPS_fix := false;
      startFixTime := now;
      base.Value := 0.0;
      Latitude := 0.0;
      Longitude := 0.0;
    }

    /** The fix bookkeeping of ReadSensor: asks for the fix type unless a valid sentence
        arrives with the fix already held, takes the step, and on a change of fix logs the
        time since startFixTime and restarts it. */
    method TrackFix(board: Board, logger: Logger, valid: bool, fixType: int, now: int)
      requires Valid() && 0 <= now < UINT32
      modifies this, board, logger
      ensures Valid()
      ensures GPS_fix == NextFix(old(GPS_fix), Step(old(GPS_fix), valid, fixType))
      ensures board.trace == old(board.trace) + (if !valid || !old(GPS_fix) then [Call(GNSS)] else [])
      ensures logger.lines == old(logger.lines) + FixLog(Step(old(GPS_fix), valid, fixType), now, old(startFixTime))
      ensures startFixTime == NextStart(Step(old(GPS_fix), valid, fixType), now, old(startFixTime))
      ensures Latitude == old(Latitude) && Longitude == old(Longitude)
      ensures board.muxSettings == old(board.muxSettings) && board.muxResponding == old(board.muxResponding)
    {
      if valid {
        if !GPS_fix {
          board.Transact(GNSS);   // myGNSS.getFixType()
          if fixType > 0 {
            GPS_fix := true;
            logger.LogMsg(FixMessage(ESTABLISHED, now, startFixTime));
            startFixTime := now;
          }
        }
      } else {
        board.Transact(GNSS);   // myGNSS.getFixType()
        if fixType == 0 {
          GPS_fix := false;
          logger.LogMsg(FixMessage(LOST, now, startFixTime));
          startFixTime := now;
        }
      }
    }

    /** ReadSensor(): nothing for a sensor out of use. Otherwise the receiver is polled,
        the fix is tracked, and a valid sentence sets the position, and the altitude when
        there is one. Always reports success. */
    method ReadSensor(board: Board, logger: Logger, nmea: Nmea, fixType: int, now: int)
      returns (readOK: bool)
      requires Valid() && 0 <= now < UINT32
      modifies this, base, board, logger
      ensures Valid() && readOK
      ensures !old(base.SensorAvailable) ==> unchanged(this, base, board, logger)
      ensures old(base.SensorAvailable) ==>
                && base.ErrMsg == "" && base.SensorAvailable
                && GPS_fix == NextFix(old(GPS_fix), Step(old(GPS_fix), nmea.valid, fixType))
                && board.trace == old(board.trace) + [Call(GNSS)]
                     + (if !nmea.valid || !old(GPS_fix) then [Call(GNSS)] else [])
      ensures old(base.SensorAvailable) ==>
                && logger.lines == old(logger.lines) + FixLog(Step(old(GPS_fix), nmea.valid, fixType), now, old(startFixTime))
                && startFixTime == NextStart(Step(old(GPS_fix), nmea.valid, fixType), now, old(startFixTime))
      ensures old(base.SensorAvailable) && nmea.valid ==>
                && Latitude == nmea.latitude as real / 1000000.0
                && Longitude == nmea.longitude as real / 1000000.0
                && base.Value == (if nmea.altitude.AltitudeMm? then nmea.altitude.mm as real / 1000.0
                                  else old(base.Value))
      ensures old(base.SensorAvailable) && !nmea.valid ==>
                Latitude == old(Latitude) && Longitude == old(Longitude) && base.Value == old(base.Value)
      ensures base.HeaterOn == old(base.HeaterOn)
      ensures board.muxSettings == old(board.muxSettings) && board.muxResponding == old(board.muxResponding)
    {
      readOK := true;
      if !base.SensorAvailable {
        return;
      }
      base.ErrMsg := "";
      board.Transact(GNSS);   // myGNSS.checkUblox()
      TrackFix(board, logger, nmea.valid, fixType, now);
      if nmea.valid {
        Latitude := nmea.latitude as real / 1000000.0;
        Longitude := nmea.longitude as real / 1000000.0;
        if nmea.altitude.AltitudeMm? {
          base.Value := nmea.altitude.mm as real / 1000.0;
        }
      }
    }

    /** Eight characters of altitude, ten each of latitude and longitude. */
    function GetHeader(): (header: string)
      ensures HasLayout(header, [8, 10, 10]) && |header| == 30
    {
      HeaderLayout();
      HEADER
    }

    /** Blanks in the header's layout, or altitude to one decimal and the position to six. */
    function GetLogLine(): (line: string)
      reads this, base
      ensures base.ShowsBlank() ==> IsBlankLine(line) && HasLayout(line, [8, 10, 10])
      ensures !base.ShowsBlank() ==>
                Split(line) == [Dtostrf(base.Value, 8, 1), Dtostrf(Latitude, 10, 6), Dtostrf(Longitude, 10, 6)]
      ensures !base.ShowsBlank() ==>
                (HasLayout(line, [8, 10, 10])
                 <==> Fits(base.Value, 8, 1) && Fits(Latitude, 10, 6) && Fits(Longitude, 10, 6))
    {
      if base.ErrMsg != "" || !base.SensorAvailable then
        PlaceholderLayout();
        PLACEHOLDER
      else
        var altitude := Dtostrf(base.Value, 8, 1);
        var latitude := Dtostrf(Latitude, 10, 6);
        var longitude := Dtostrf(Longitude, 10, 6);
        DtostrfSpec(base.Value, 8, 1);
        DtostrfSpec(Latitude, 10, 6);
        DtostrfSpec(Longitude, 10, 6);
        SplitThree(altitude, latitude, longitude);
        altitude + "," + latitude + "," + longitude
    }

    /** The header with the longitude column widened to eleven characters. */
    function GetHeaderAligned(): (header: string)
      ensures HasLayout(header, [8, 10, 11]) && |header| == 31
    {
      AlignedHeaderLayout();
      HEADER_ALIGNED
    }

    /** The line with the longitude in eleven characters, room for a sign and three
        integer digits, so every position on Earth keeps the header's layout. */
    function GetLogLineAligned(): (line: string)
      reads this, base
      ensures base.ShowsBlank() ==> IsBlankLine(line) && HasLayout(line, [8, 10, 11])
      ensures !base.ShowsBlank() ==>
                Split(line) == [Dtostrf(base.Value, 8, 1), Dtostrf(Latitude, 10, 6), Dtostrf(Longitude, 11, 6)]
      ensures !base.ShowsBlank() && Fits(base.Value, 8, 1)
              && -90.0 <= Latitude <= 90.0 && -180.0 <= Longitude <= 180.0 ==>
                HasLayout(line, [8, 10, 11])
    {
      if base.ErrMsg != "" || !base.SensorAvailable then
        AlignedPlaceholderLayout();
        PLACEHOLDER_ALIGNED
      else
        var altitude := Dtostrf(base.Value, 8, 1);
        var latitude := Dtostrf(Latitude, 10, 6);
        var longitude := Dtostrf(Longitude, 11, 6);
        DtostrfSpec(base.Value, 8, 1);
        DtostrfSpec(Latitude, 10, 6);
        DtostrfSpec(Longitude, 11, 6);
        SplitThree(altitude, latitude, longitude);
        if -90.0 <= Latitude <= 90.0 && -180.0 <= Longitude <= 180.0 then
          LatitudeFits(Latitude);
          LongitudeFitsEleven(Longitude);
          altitude + "," + latitude + "," + longitude
        else
          altitude + "," + latitude + "," + longitude
    }
  }

  lemma HeaderLayout()
    ensures HasLayout(HEADER, [8, 10, 10]) && |HEADER| == 30
  {
    SplitThree("Altitude", "  Latitude", " Longitude");
  }

  lemma PlaceholderLayout()
    ensures HasLayout(PLACEHOLDER, [8, 10, 10]) && IsBlankLine(PLACEHOLDER) && |PLACEHOLDER| == 30
  {
    SplitThree(Spaces(8), Spaces(10), Spaces(10));
    BlankThree(Spaces(8), Spaces(10), Spaces(10));
  }

  const HEADER_ALIGNED: string := "Altitude" + "," + "  Latitude" + "," + "  Longitude"
  const PLACEHOLDER_ALIGNED: string := Spaces(8) + "," + Spaces(10) + "," + Spaces(11)

  lemma AlignedHeaderLayout()
    ensures HasLayout(HEADER_ALIGNED, [8, 10, 11]) && |HEADER_ALIGNED| == 31
  {
    SplitThree("Altitude", "  Latitude", "  Longitude");
  }

  lemma AlignedPlaceholderLayout()
    ensures HasLayout(PLACEHOLDER_ALIGNED, [8, 10, 11]) && IsBlankLine(PLACEHOLDER_ALIGNED)
    ensures |PLACEHOLDER_ALIGNED| == 31
  {
    SplitThree(Spaces(8), Spaces(10), Spaces(11));
    BlankThree(Spaces(8), Spaces(10), Spaces(11));
  }

  /** Every latitude fits ten characters at six decimals. */
  lemma LatitudeFits(latitude: real)
    requires -90.0 <= latitude <= 90.0
    ensures Fits(latitude, 10, 6)
  {
    FitsIff(latitude, 10, 6);
    assert Pow10(6) == 1000000;
    assert Pow10(8) == 100000000;
    assert Scaled(latitude, 6) <= 90000000;
  }

  /** Every longitude fits eleven characters at six decimals. */
  lemma LongitudeFitsEleven(longitude: real)
    requires -180.0 <= longitude <= 180.0
    ensures Fits(longitude, 11, 6)
  {
    FitsIff(longitude, 11, 6);
    assert Pow10(6) == 1000000;
    assert Pow10(9) == 1000000000;
    assert Scaled(longitude, 6) <= 180000000;
  }

  /** A longitude at or west of 100 degrees W needs eleven characters, not ten. */
  lemma WestLongitudeOverflows(longitude: real)
    requires longitude <= -100.0
    ensures !Fits(longitude, 10, 6)
  {
    FitsIff(longitude, 10, 6);
    assert Pow10(6) == 1000000;
    assert Pow10(8) == 100000000;
    assert Scaled(longitude, 6) >= 100000000;
  }

  /** As written, a sensor logging a longitude at or west of 100 degrees W writes a line
      whose longitude field is wider than the header's, so its columns shift. */
  lemma WestLongitudeMisaligns(s: GPSSensor)
    requires !s.base.ShowsBlank() && s.Longitude <= -100.0
    ensures !HasLayout(s.GetLogLine(), Widths(Split(s.GetHeader())))
    ensures Widths(Split(s.GetHeader())) == [8, 10, 10]
  {
    WestLongitudeOverflows(s.Longitude);
  }
}
