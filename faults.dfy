/** The fault reporter: initialisation failures are logged and their codes kept, in the
    order reported, in a list of at most MAX_ERROR_FLASH entries that drives the status LEDs. */
module Faults {
  import opened Io

  /** Error codes, one per failure class, and the LED signal the header gives each. */
  const DISK_NOT_FOUND: int := 1    // solid red
  const GPS_NOT_FOUND: int := 2     // flashing red
  const DHT_NOT_FOUND: int := 3     // solid blue
  const BMP388_NOT_FOUND: int := 4  // flashing blue
  const CO2_NOT_FOUND: int := 5     // solid yellow
  const UV_NOT_FOUND: int := 6      // flashing yellow
  const DS18B_NOT_FOUND: int := 7   // flashing green

  const MAX_ERROR_FLASH: int := 10

  function Min(a: int, b: int): int { if a < b then a else b }

  class FaultList {
    /** errCodes[0..MaxFlashCount) holds the stored codes. */
    const errCodes: array<int>
    var MaxFlashCount: int
    /** Every code ever reported, kept or dropped, in report order. */
    ghost var reported: seq<int>

    /** The list holds the first MAX_ERROR_FLASH reports, in order; later ones are dropped. */
    ghost predicate Valid()
      reads this, errCodes
    {
      && errCodes.Length == MAX_ERROR_FLASH
      && MaxFlashCount == Min(|reported|, MAX_ERROR_FLASH)
      && errCodes[..MaxFlashCount] == reported[..MaxFlashCount]
    }

    /** The stored codes, in index order. */
    function Codes(): (codes: seq<int>)
      reads this, errCodes
      requires Valid()
      ensures |codes| <= MAX_ERROR_FLASH && |codes| <= |reported|
      ensures codes == reported[..|codes|]
    {
      errCodes[..MaxFlashCount]
    }

    constructor ()
      ensures Valid() && fresh(errCodes)
      ensures reported == [] && Codes() == []
    {
      errCodes := new int[MAX_ERROR_FLASH];
      MaxFlashCount := 0;
      reported := [];
    }

    /** FlashStatusError(whichErr, msg): always logs msg; keeps whichErr while there is room. */
    method FlashStatusError(whichErr: int, msg: string, logger: Logger)
      requires Valid()
      modifies this, errCodes, logger
      ensures Valid()
      ensures reported == old(reported) + [whichErr]
      ensures logger.lines == old(logger.lines) + [msg]
      ensures old(MaxFlashCount) < MAX_ERROR_FLASH ==>
                MaxFlashCount == old(MaxFlashCount) + 1 && Codes() == old(Codes()) + [whichErr]
      ensures old(MaxFlashCount) >= MAX_ERROR_FLASH ==>
                MaxFlashCount == old(MaxFlashCount) && Codes() == old(Codes())
      ensures forall i :: 0 <= i < old(MaxFlashCount) ==> errCodes[i] == old(errCodes[i])
    {
      logger.LogMsg(msg);
      if MaxFlashCount < MAX_ERROR_FLASH {
        errCodes[MaxFlashCount] := whichErr;
        MaxFlashCount := MaxFlashCount + 1;
      }
      reported := reported + [whichErr];
      assert errCodes[..MaxFlashCount] == reported[..MaxFlashCount];
    }

    /** FlashErrors(numTimes): the codes handed to the LED display, in the order shown:
        every stored code in index order, once per pass, numTimes passes. */
    method FlashErrors(numTimes: int) returns (shown: seq<int>)
      requires Valid()
      ensures shown == Repeat(Codes(), numTimes)
    {
      shown := [];
      var loopCnt := 0;
      while loopCnt < numTimes
        invariant 0 <= loopCnt && (numTimes >= 0 ==> loopCnt <= numTimes)
        invariant numTimes < 0 ==> loopCnt == 0
        invariant shown == Repeat(Codes(), loopCnt)
      {
        var i := 0;
        ghost var before := shown;
        while i < MaxFlashCount
          invariant 0 <= i <= MaxFlashCount
          invariant shown == before + errCodes[..i]
        {
          shown := shown + [errCodes[i]];
          i := i + 1;
          assert errCodes[..i] == errCodes[..i - 1] + [errCodes[i - 1]];
        }
        RepeatStep(Codes(), loopCnt);
        loopCnt := loopCnt + 1;
      }
    }
  }

  /** s written n times over; nothing for n <= 0. */
  function Repeat(s: seq<int>, n: int): seq<int>
    decreases n
  {
    if n <= 0 then [] else Repeat(s, n - 1) + s
  }

  lemma RepeatStep(s: seq<int>, n: nat)
    ensures Repeat(s, n + 1) == Repeat(s, n) + s
  {
  }

  /** Pass j of Repeat shows s in index order: entry j * |s| + k is s[k]. */
  lemma {:induction false} RepeatAt(s: seq<int>, n: nat, j: nat, k: nat)
    requires j < n && k < |s|
    ensures |Repeat(s, n)| == n * |s|
    ensures j * |s| + k < n * |s| && Repeat(s, n)[j * |s| + k] == s[k]
  {
    RepeatLength(s, n);
    RepeatLength(s, n - 1);
    var m := n - 1;
    assert n * |s| == m * |s| + |s|;
    if j < m {
      RepeatAt(s, m, j, k);
    } else {
      assert j * |s| == m * |s|;
    }
  }

  lemma {:induction false} RepeatLength(s: seq<int>, n: nat)
    ensures |Repeat(s, n)| == n * |s|
  {
    if n > 0 {
      RepeatLength(s, n - 1);
    }
  }

  /** The status LEDs and the two ways DisplayError drives one. */
  datatype Led = Red | Blue | Yellow | Green
  datatype Signal = Solid(led: Led) | Blinking(led: Led)

  /** DisplayError(errorCode): the LED signal for a code; anything that is not a known
      failure code shows the "no fault" signal, solid green. */
  function DisplayError(errorCode: int): (signal: Signal)
    ensures signal == Solid(Green) <==> !(1 <= errorCode <= 7)
  {
    if errorCode == 1 then Solid(Red)
    else if errorCode == 2 then Blinking(Red)
    else if errorCode == 3 then Solid(Blue)
    else if errorCode == 4 then Blinking(Blue)
    else if errorCode == 5 then Solid(Yellow)
    else if errorCode == 6 then Blinking(Yellow)
    else if errorCode == 7 then Blinking(Green)
    else Solid(Green)
  }

  /** Reading a signal back as a fault code: 0 for solid green, the "no fault" signal. */
  function CodeShownBy(signal: Signal): (code: int)
    ensures 0 <= code <= 7
  {
    match signal
    case Solid(Red) => 1
    case Blinking(Red) => 2
    case Solid(Blue) => 3
    case Blinking(Blue) => 4
    case Solid(Yellow) => 5
    case Blinking(Yellow) => 6
    case Blinking(Green) => 7
    case Solid(Green) => 0
  }

  /** Every failure code shows a signal of its own, so the LEDs identify it; every other
      code shows the same signal as no fault at all. */
  lemma DisplayErrorDistinguishesCodes(errorCode: int)
    ensures CodeShownBy(DisplayError(errorCode)) == if 1 <= errorCode <= 7 then errorCode else 0
  {
  }

  /** The signal of each named code is the one the header lists beside it. */
  lemma DisplayErrorMatchesHeader()
    ensures DisplayError(DISK_NOT_FOUND) == Solid(Red)
    ensures DisplayError(GPS_NOT_FOUND) == Blinking(Red)
    ensures DisplayError(DHT_NOT_FOUND) == Solid(Blue)
    ensures DisplayError(BMP388_NOT_FOUND) == Blinking(Blue)
    ensures DisplayError(CO2_NOT_FOUND) == Solid(Yellow)
    ensures DisplayError(UV_NOT_FOUND) == Blinking(Yellow)
    ensures DisplayError(DS18B_NOT_FOUND) == Blinking(Green)
  {
  }
}
