/** CStardustConfig: the two parameters read from StardustConfig.txt on the SD card, each
    taken from a `key = value` line, with built-in defaults when the file or a line is
    missing. */
module Config {
  import opened Format
  import opened Parse
  import opened Io

  /** The keys, already in upper case as the comparison needs them. */
  const SEALEVELPRESSURE: string := "SEALEVELPRESSURE"
  const DATAFILEMSECBUMP: string := "DATAFILEMSECBUMP"

  const DEFAULT_SEALEVELPRESSURE_HPA: real := 1013.25
  const DEFAULT_DATAFILEMSECBUMP: int := 600000
  const CONFIGFILE: string := "StardustConfig.txt"
  const LOADING: string := "Loading StardustConfig.txt file"

  /** The start every "loaded" message shares. */
  const LOADED: string := "Config:  Loaded "
  const WITH: string := " with "
  const PRESSURE_HEAD: string := LOADED + SEALEVELPRESSURE + WITH
  const BUMP_HEAD: string := LOADED + DATAFILEMSECBUMP + WITH

  /** The configuration as a value: the sea-level pressure in hPa and the data-file
      interval in milliseconds. */
  datatype Settings = Settings(seaLevelPressure: real, dataFileMsecBump: int)

  const DEFAULTS: Settings := Settings(DEFAULT_SEALEVELPRESSURE_HPA, DEFAULT_DATAFILEMSECBUMP)

  /** What the disk's OpenFile and ReadLine give: an error message, or the file's lines
      as ReadLine hands them out, already trimmed. */
  datatype OpenResult = OpenFailed(errMsg: string) | Opened(lines: seq<string>)

  // ---------------------------------------------------------------- one line

  /** Empty lines and comment lines are passed over before any parsing. */
  predicate Skipped(line: string)
  {
    line == [] || line[0] == '#'
  }

  /** The key: the first "="-delimited token, trimmed and upper-cased. */
  function KeyOf(line: string): string
  {
    ToUpper(Trim(Text(StrTok(line))))
  }

  /** The value: the token the second strtok call gives, untrimmed; empty when there is
      none. */
  function ValueOf(line: string): string
  {
    Text(StrTok(Rest(StrTok(line))))
  }

  /** What a line does: nothing, or set one field to the number its value reads as. */
  datatype Directive = Ignored | Pressure(hPa: real) | Bump(msec: int)

  /** A line's directive: after the empty and comment checks, the key picks the field,
      toFloat or toInt reads its value, and any other key does nothing. */
  function Classify(line: string): (d: Directive)
    ensures Skipped(line) ==> d.Ignored?
    ensures d.Pressure? <==> !Skipped(line) && KeyOf(line) == SEALEVELPRESSURE
    ensures d.Pressure? ==> d.hPa == ToFloat(ValueOf(line))
    ensures d.Bump? <==> !Skipped(line) && KeyOf(line) == DATAFILEMSECBUMP
    ensures d.Bump? ==> d.msec == ToInt(ValueOf(line))
  {
    if Skipped(line) then Ignored
    else if KeyOf(line) == SEALEVELPRESSURE then Pressure(ToFloat(ValueOf(line)))
    else if KeyOf(line) == DATAFILEMSECBUMP then Bump(ToInt(ValueOf(line)))
    else Ignored
  }

  /** A directive changes at most the field it names. */
  function Apply(cfg: Settings, d: Directive): (r: Settings)
    ensures d.Pressure? ==> r == cfg.(seaLevelPressure := d.hPa)
    ensures d.Bump? ==> r == cfg.(dataFileMsecBump := d.msec)
    ensures d.Ignored? ==> r == cfg
  {
    match d
    case Ignored => cfg
    case Pressure(hPa) => cfg.(seaLevelPressure := hPa)
    case Bump(msec) => cfg.(dataFileMsecBump := msec)
  }

  /** The effect of one line: empty lines, comment lines and unknown keys change
      nothing; a recognised key replaces its own field and only that one. */
  function LoadLine(cfg: Settings, line: string): (r: Settings)
    ensures Skipped(line) ==> r == cfg
    ensures !Skipped(line) && KeyOf(line) == SEALEVELPRESSURE
            ==> r == cfg.(seaLevelPressure := ToFloat(ValueOf(line)))
    ensures !Skipped(line) && KeyOf(line) == DATAFILEMSECBUMP
            ==> r == cfg.(dataFileMsecBump := ToInt(ValueOf(line)))
    ensures KeyOf(line) != SEALEVELPRESSURE && KeyOf(line) != DATAFILEMSECBUMP ==> r == cfg
  {
    Apply(cfg, Classify(line))
  }

  /** The directives of a file's lines, in file order. */
  function Directives(lines: seq<string>): (ds: seq<Directive>)
    ensures |ds| == |lines|
    ensures forall i :: 0 <= i < |lines| ==> ds[i] == Classify(lines[i])
  {
    if lines == [] then []
    else Directives(lines[..|lines| - 1]) + [Classify(lines[|lines| - 1])]
  }

  /** The directives applied in order. */
  function ApplyAll(cfg: Settings, ds: seq<Directive>): Settings
  {
    if ds == [] then cfg
    else Apply(ApplyAll(cfg, ds[..|ds| - 1]), ds[|ds| - 1])
  }

  /** One more line adds its directive at the end. */
  lemma DirectivesStep(lines: seq<string>, i: nat)
    requires i < |lines|
    ensures Directives(lines[..i + 1]) == Directives(lines[..i]) + [Classify(lines[i])]
  {
    assert lines[..i + 1][..i] == lines[..i];
  }

  /** Applying one more directive, and logging it, extends the run by one step. */
  lemma ApplyStep(cfg: Settings, ds: seq<Directive>, d: Directive)
    ensures ApplyAll(cfg, ds + [d]) == Apply(ApplyAll(cfg, ds), d)
    ensures DirectivesLog(ds + [d]) == DirectivesLog(ds) + DirectiveLog(d)
  {
    assert (ds + [d])[..|ds|] == ds;
  }

  /** Concatenation regroups, stated apart from the loop's facts. */
  lemma AppendAssociates(a: seq<string>, b: seq<string>, c: seq<string>)
    ensures (a + b) + c == a + (b + c)
  {
  }

  /** Loading line i after lines[..i] leaves the settings and the log as loading
      lines[..i + 1] does. */
  lemma LoadStep(start: Settings, log: seq<string>, lines: seq<string>, i: nat,
                 before: Settings, after: Settings, logBefore: seq<string>, logAfter: seq<string>)
    requires i < |lines|
    requires before == ApplyAll(start, Directives(lines[..i]))
    requires logBefore == log + DirectivesLog(Directives(lines[..i]))
    requires after == Apply(before, Classify(lines[i]))
    requires logAfter == logBefore + DirectiveLog(Classify(lines[i]))
    ensures after == ApplyAll(start, Directives(lines[..i + 1]))
    ensures logAfter == log + DirectivesLog(Directives(lines[..i + 1]))
  {
    var ds, d := Directives(lines[..i]), Classify(lines[i]);
    DirectivesStep(lines, i);
    ApplyStep(start, ds, d);
    AppendAssociates(log, DirectivesLog(ds), DirectiveLog(d));
  }

  /** The sea-level pressure comes from the last directive that sets it, and from the
      starting settings when none does: a later line overrides an earlier one. */
  lemma {:induction false} LastPressureWins(cfg: Settings, ds: seq<Directive>)
    ensures (forall i :: 0 <= i < |ds| ==> !ds[i].Pressure?)
            ==> ApplyAll(cfg, ds).seaLevelPressure == cfg.seaLevelPressure
    ensures forall i :: 0 <= i < |ds| && ds[i].Pressure?
                        && (forall j :: i < j < |ds| ==> !ds[j].Pressure?)
                        ==> ApplyAll(cfg, ds).seaLevelPressure == ds[i].hPa
    decreases |ds|
  {
    if ds != [] {
      var init := ds[..|ds| - 1];
      LastPressureWins(cfg, init);
      assert forall i :: 0 <= i < |init| ==> init[i] == ds[i];
    }
  }

  /** The same for the data-file interval. */
  lemma {:induction false} LastBumpWins(cfg: Settings, ds: seq<Directive>)
    ensures (forall i :: 0 <= i < |ds| ==> !ds[i].Bump?)
            ==> ApplyAll(cfg, ds).dataFileMsecBump == cfg.dataFileMsecBump
    ensures forall i :: 0 <= i < |ds| && ds[i].Bump?
                        && (forall j :: i < j < |ds| ==> !ds[j].Bump?)
                        ==> ApplyAll(cfg, ds).dataFileMsecBump == ds[i].msec
    decreases |ds|
  {
    if ds != [] {
      var init := ds[..|ds| - 1];
      LastBumpWins(cfg, init);
      assert forall i :: 0 <= i < |init| ==> init[i] == ds[i];
    }
  }

  /** The line sets the sea-level pressure. */
  predicate SetsPressure(line: string)
  {
    !Skipped(line) && KeyOf(line) == SEALEVELPRESSURE
  }

  /** The line sets the data-file interval. */
  predicate SetsBump(line: string)
  {
    !Skipped(line) && KeyOf(line) == DATAFILEMSECBUMP
  }

  /** The rule of the loading loop stated on the file's lines: the pressure comes from
      the value of the last line with its key, and stays as it was when no line has it. */
  lemma LastPressureLineWins(cfg: Settings, lines: seq<string>)
    ensures (forall i :: 0 <= i < |lines| ==> !SetsPressure(lines[i]))
            ==> ApplyAll(cfg, Directives(lines)).seaLevelPressure == cfg.seaLevelPressure
    ensures forall i :: 0 <= i < |lines| && SetsPressure(lines[i])
                        && (forall j :: i < j < |lines| ==> !SetsPressure(lines[j]))
                        ==> ApplyAll(cfg, Directives(lines)).seaLevelPressure
                            == ToFloat(ValueOf(lines[i]))
  {
    LastPressureWins(cfg, Directives(lines));
  }

  /** The same for the data-file interval, read with toInt. */
  lemma LastBumpLineWins(cfg: Settings, lines: seq<string>)
    ensures (forall i :: 0 <= i < |lines| ==> !SetsBump(lines[i]))
            ==> ApplyAll(cfg, Directives(lines)).dataFileMsecBump == cfg.dataFileMsecBump
    ensures forall i :: 0 <= i < |lines| && SetsBump(lines[i])
                        && (forall j :: i < j < |lines| ==> !SetsBump(lines[j]))
                        ==> ApplyAll(cfg, Directives(lines)).dataFileMsecBump
                            == ToInt(ValueOf(lines[i]))
  {
    LastBumpWins(cfg, Directives(lines));
  }

  /** A line `name = value`, with blanks around the name and a value without a further
      "=", is read as key toUpperCase(name) and value `value`: matching ignores case and
      surrounding blanks. */
  lemma ParsesAssignment(pre: string, name: string, post: string, value: string)
    requires AllSpace(pre) && AllSpace(post) && NoEquals(pre + name + post)
    requires name != [] && !IsSpace(name[0]) && !IsSpace(name[|name| - 1])
    requires value != [] && NoEquals(value)
    ensures KeyOf(pre + name + post + "=" + value) == ToUpper(name)
    ensures ValueOf(pre + name + post + "=" + value) == value
  {
    var token := pre + name + post;
    assert token[|pre|] == name[0];
    StrTokSplits(token, value);
    StrTokWhole(value);
    TrimPadded(pre, name, post);
  }

  /** Two key spellings that differ only in the case of their letters and in the
      blanks around them select the same key. */
  lemma KeyIgnoresCase(pre: string, name: string, post: string, value: string,
                       pre': string, name': string, post': string, value': string)
    requires AllSpace(pre) && AllSpace(post) && NoEquals(pre + name + post)
    requires name != [] && !IsSpace(name[0]) && !IsSpace(name[|name| - 1])
    requires value != [] && NoEquals(value)
    requires AllSpace(pre') && AllSpace(post') && NoEquals(pre' + name' + post')
    requires name' != [] && !IsSpace(name'[0]) && !IsSpace(name'[|name'| - 1])
    requires value' != [] && NoEquals(value')
    requires |name| == |name'| && forall i :: 0 <= i < |name| ==> Upper(name[i]) == Upper(name'[i])
    ensures KeyOf(pre + name + post + "=" + value) == KeyOf(pre' + name' + post' + "=" + value')
  {
    ToUpperChars(name);
    ToUpperChars(name');
    assert ToUpper(name) == ToUpper(name');
    ParsesAssignment(pre, name, post, value);
    ParsesAssignment(pre', name', post', value');
  }

  // ---------------------------------------------------------------- what is logged

  /** "Config:  Loaded SEALEVELPRESSURE with " and the pressure as dtostrf writes it,
      eight characters wide with two decimals. */
  function PressureMessage(v: real): string
  {
    PRESSURE_HEAD + Dtostrf(v, 8, 2)
  }

  /** The pressure message starts with the key and shows the value to two decimals in
      at least eight characters. */
  lemma PressureMessageShows(v: real)
    ensures |PressureMessage(v)| >= |PRESSURE_HEAD| + 8
    ensures PressureMessage(v)[..|PRESSURE_HEAD|] == PRESSURE_HEAD
    ensures Shows(PressureMessage(v)[|PRESSURE_HEAD|..], v, 2)
  {
    DtostrfSpec(v, 8, 2);
    assert PressureMessage(v)[|PRESSURE_HEAD|..] == Dtostrf(v, 8, 2);
  }

  /** "Config:  Loaded DATAFILEMSECBUMP with " followed by the interval as ltoa writes
      it in base 15, the third argument of ltoa being its radix. */
  function BumpMessageAsWritten(v: int): (m: string)
    ensures |m| > |BUMP_HEAD| && m[..|BUMP_HEAD|] == BUMP_HEAD
    ensures m[|BUMP_HEAD|..] == NatToString(v % 0x1_0000_0000, 15)
  {
    var head := BUMP_HEAD;
    var m := head + Ltoa(v, 15);
    assert m[|head|..] == Ltoa(v, 15);
    m
  }

  /** 600000 in base 15. */
  lemma DefaultInBase15()
    ensures NatToString(DEFAULT_DATAFILEMSECBUMP, 15) == "bcba0"
  {
    assert NatToString(11, 15) == "b";
    assert NatToString(177, 15) == "bc";
    assert NatToString(2666, 15) == "bcb";
    assert NatToString(40000, 15) == "bcba";
  }

  /** atol stops at the first letter, so base-15 digits with a letter in front read as 0. */
  lemma Base15Misread()
    ensures ToInt("bcba0") == 0
  {
    assert TrimLeft("bcba0") == "bcba0";
    assert Unsigned("bcba0") == (false, "bcba0");
  }

  /** The default interval is logged as "bcba0", which atol reads back as 0. */
  lemma DefaultBumpMisread()
    ensures BumpMessageAsWritten(DEFAULT_DATAFILEMSECBUMP)[|BUMP_HEAD|..] == "bcba0"
    ensures ToInt(BumpMessageAsWritten(DEFAULT_DATAFILEMSECBUMP)[|BUMP_HEAD|..]) == 0
  {
    var m := BumpMessageAsWritten(DEFAULT_DATAFILEMSECBUMP);
    assert DEFAULT_DATAFILEMSECBUMP % 0x1_0000_0000 == DEFAULT_DATAFILEMSECBUMP;
    DefaultInBase15();
    Base15Misread();
  }

  /** What the configuration object logs for a line that sets the interval to 600000:
      "bcba0", which atol would read back as 0 rather than as the interval set. */
  lemma BumpLineMisread(line: string)
    requires Classify(line) == Bump(DEFAULT_DATAFILEMSECBUMP)
    ensures |DirectiveLog(Classify(line))| == 1
    ensures DirectiveLog(Classify(line))[0][|BUMP_HEAD|..] == "bcba0"
    ensures ToInt(DirectiveLog(Classify(line))[0][|BUMP_HEAD|..]) == 0
  {
    DefaultBumpMisread();
  }

  /** The message with the interval in decimal, as evidently intended. */
  function BumpMessage(v: int): string
  {
    BUMP_HEAD + Ltoa(v, 10)
  }

  /** The decimal message starts with the key, and atol reads what follows back as the
      value itself, whatever its sign. */
  lemma BumpMessageReadsBack(v: int)
    ensures |BumpMessage(v)| > |BUMP_HEAD| && BumpMessage(v)[..|BUMP_HEAD|] == BUMP_HEAD
    ensures ToInt(BumpMessage(v)[|BUMP_HEAD|..]) == v
  {
    assert BumpMessage(v)[|BUMP_HEAD|..] == Ltoa(v, 10);
    LtoaDecimalRoundTrip(v);
  }

  /** The messages a directive logs: one for each field set, none otherwise. The
      interval is written in radix 15, as the source writes it. */
  function DirectiveLog(d: Directive): (log: seq<string>)
    ensures |log| == if d.Ignored? then 0 else 1
    ensures d.Pressure? ==>
              && |log[0]| >= |PRESSURE_HEAD| + 8
              && log[0][..|PRESSURE_HEAD|] == PRESSURE_HEAD
              && Shows(log[0][|PRESSURE_HEAD|..], d.hPa, 2)
    ensures d.Bump? ==>
              && |log[0]| > |BUMP_HEAD| && log[0][..|BUMP_HEAD|] == BUMP_HEAD
              && log[0][|BUMP_HEAD|..] == NatToString(d.msec % 0x1_0000_0000, 15)
  {
    match d
    case Ignored => []
    case Pressure(hPa) =>
      PressureMessageShows(hPa);
      [PressureMessage(hPa)]
    case Bump(msec) => [BumpMessageAsWritten(msec)]
  }

  /** The messages of all directives, in order. */
  function DirectivesLog(ds: seq<Directive>): (log: seq<string>)
    ensures |log| <= |ds|
    ensures log == [] <==> forall i :: 0 <= i < |ds| ==> ds[i].Ignored?
    ensures |log| == |ds| <==> forall i :: 0 <= i < |ds| ==> !ds[i].Ignored?
  {
    if ds == [] then []
    else
      var init := ds[..|ds| - 1];
      var rest := DirectivesLog(init);
      var last := DirectiveLog(ds[|ds| - 1]);
      assert forall i :: 0 <= i < |init| ==> init[i] == ds[i];
      assert |last| == if ds[|ds| - 1].Ignored? then 0 else 1;
      assert |rest + last| == |ds| <==> |rest| == |init| && |last| == 1;
      rest + last
  }

  /** The log of the first k directives is the start of the log of them all: messages
      come out in directive order and are never taken back. */
  lemma {:induction false} DirectivesLogPrefix(ds: seq<Directive>, k: nat)
    requires k <= |ds|
    ensures DirectivesLog(ds[..k]) <= DirectivesLog(ds)
    decreases |ds|
  {
    if k < |ds| {
      var init := ds[..|ds| - 1];
      assert ds[..k] == init[..k];
      DirectivesLogPrefix(init, k);
    } else {
      assert ds[..k] == ds;
    }
  }

  // ---------------------------------------------------------------- the object

  class StardustConfig {
    var SeaLevelPressure: real
    var DataFileMsecBump: int

    function State(): Settings
      reads this
    {
      Settings(SeaLevelPressure, DataFileMsecBump)
    }

    /** MyConfig is a global, so both fields start at zero. */
    constructor ()
      ensures State() == Settings(0.0, 0)
    {
      SeaLevelPressure := 0.0;
      DataFileMsecBump := 0;
    }

    method SetDefaults()
      modifies this
      ensures State() == DEFAULTS
    {
      SeaLevelPressure := DEFAULT_SEALEVELPRESSURE_HPA;
      DataFileMsecBump := DEFAULT_DATAFILEMSECBUMP;
    }

    /** LoadThisLine(): the key compared after trim and toUpperCase, the value taken from
        the next strtok call, and one message logged for a recognised key. */
    method LoadThisLine(line: string, logger: Logger)
      modifies this, logger
      ensures State() == Apply(old(State()), Classify(line))
      ensures logger.lines == old(logger.lines) + DirectiveLog(Classify(line))
    {
      if |line| == 0 {
        return;
      }
      if line[0] == '#' {
        return;
      }
      var first := StrTok(line);
      var d := Text(first);
      d := Trim(d);
      d := ToUpper(d);
      assert d == KeyOf(line);
      if d == SEALEVELPRESSURE {
        d := Text(StrTok(Rest(first)));
        SeaLevelPressure := ToFloat(d);
        var logBuf := PressureMessage(SeaLevelPressure);
        assert DirectiveLog(Classify(line)) == [logBuf];
        logger.LogMsg(logBuf);
      } else if d == DATAFILEMSECBUMP {
        d := Text(StrTok(Rest(first)));
        DataFileMsecBump := ToInt(d);
        var logBuf := BumpMessageAsWritten(DataFileMsecBump);   // radix 15, as the source has it
        assert DirectiveLog(Classify(line)) == [logBuf];
        logger.LogMsg(logBuf);
      } else {
        assert Classify(line) == Ignored;
      }
    }

    /** Init(): defaults first, so that a missing file or missing keys leave them; then
        every line of the file in order. */
    method Init(logger: Logger, file: OpenResult)
      modifies this, logger
      ensures file.OpenFailed? ==>
                State() == DEFAULTS && logger.lines == old(logger.lines) + [file.errMsg]
      ensures file.Opened? ==>
                && State() == ApplyAll(DEFAULTS, Directives(file.lines))
                && logger.lines == old(logger.lines) + [LOADING] + DirectivesLog(Directives(file.lines))
    {
      SetDefaults();
      if file.OpenFailed? {
        logger.LogMsg(file.errMsg);
      } else {
        logger.LogMsg(LOADING);
        LoadLines(file.lines, logger);
      }
    }

    /** The ReadLine loop of Init(): LoadThisLine() on each line in turn. */
    method LoadLines(lines: seq<string>, logger: Logger)
      modifies this, logger
      ensures State() == ApplyAll(old(State()), Directives(lines))
      ensures logger.lines == old(logger.lines) + DirectivesLog(Directives(lines))
    {
      ghost var start := State();
      ghost var log := logger.lines;
      var i := 0;
      while i < |lines|
        invariant 0 <= i <= |lines|
        invariant State() == ApplyAll(start, Directives(lines[..i]))
        invariant logger.lines == log + DirectivesLog(Directives(lines[..i]))
      {
        ghost var before, logBefore := State(), logger.lines;
        LoadThisLine(lines[i], logger);
        LoadStep(start, log, lines, i, before, State(), logBefore, logger.lines);
        i := i + 1;
      }
      assert lines[..i] == lines;
    }
  }
}
