/** The system logger: its level, read from the environment with
    JavaScript's `parseInt`, the level each kind of message needs, and the
    line appended to the log file. */
module Logging {
  import opened Results
  import opened JsText

  /** `LogLevel`: OFF = 0, INFO = 1, DEBUG = 2. A level read from the
      environment can be any integer. */
  const OFF := 0
  const INFO := 1
  const DEBUG := 2

  /** The value of a digit in the given radix, if it is one. */
  function DigitValue(c: char, radix: nat): (v: Option<nat>)
    ensures v.Some? ==> v.value < radix
  {
    var d := if '0' <= c <= '9' then (c as int - '0' as int)
             else if 'a' <= c <= 'z' then (c as int - 'a' as int + 10)
             else if 'A' <= c <= 'Z' then (c as int - 'A' as int + 10)
             else radix;
    if 0 <= d < radix then Some(d) else None
  }

  /** The end of the run of digits that starts at `k`. */
  function DigitRun(s: string, k: nat, radix: nat): (e: nat)
    requires k <= |s|
    ensures k <= e <= |s|
    ensures forall m :: k <= m < e ==> DigitValue(s[m], radix).Some?
    ensures e < |s| ==> DigitValue(s[e], radix).None?
    decreases |s| - k
  {
    if k < |s| && DigitValue(s[k], radix).Some? then DigitRun(s, k + 1, radix) else k
  }

  /** The number the digits `s[k..e]` spell; the radix is 10 or 16. */
  function DigitsValue(s: string, k: nat, e: nat, radix: nat): nat
    requires radix == 10 || radix == 16
    requires k <= e <= |s|
    requires forall m :: k <= m < e ==> DigitValue(s[m], radix).Some?
    decreases e - k
  {
    if e == k then 0
    else
      var high := DigitsValue(s, k, e - 1, radix);
      (if radix == 16 then high * 16 else high * 10) + DigitValue(s[e - 1], radix).value
  }

  /** `parseInt(s)` without a radix: leading whitespace is skipped, a sign
      is read, `0x` or `0X` selects hexadecimal, and then the longest run
      of digits is read. No digit at all is `NaN`, written `None`. */
  function ParseInt(s: string): Option<int>
  {
    var a := SkipSpace(s, 0);
    var negative := a < |s| && s[a] == '-';
    var b := if a < |s| && (s[a] == '-' || s[a] == '+') then a + 1 else a;
    var hex := b + 1 < |s| && s[b] == '0' && (s[b + 1] == 'x' || s[b + 1] == 'X');
    var radix := if hex then 16 else 10;
    var c := if hex then b + 2 else b;
    var e := DigitRun(s, c, radix);
    if e == c then None
    else
      var v := DigitsValue(s, c, e, radix);
      var n: int := if negative then -(v as int) else v as int;
      Some(n)
  }

  /** `parseLogLevel`: `parseInt(level || '0')`, and OFF for `NaN`. */
  function ParseLogLevel(level: Option<string>): int
  {
    var text := if level.Some? && |level.value| > 0 then level.value else "0";
    match ParseInt(text)
    case None => OFF
    case Some(n) => n
  }

  predicate IsDecimal(d: string)
  {
    forall m :: 0 <= m < |d| ==> '0' <= d[m] <= '9'
  }

  /** The value of a string of decimal digits. */
  function DecimalValue(d: string): nat
    requires IsDecimal(d)
  {
    if |d| == 0 then 0
    else DecimalValue(d[..|d| - 1]) * 10 + (d[|d| - 1] as int - '0' as int)
  }

  lemma {:induction false} DigitsValueDecimal(s: string, k: nat, e: nat)
    requires k <= e <= |s| && IsDecimal(s[k..e])
    requires forall m :: k <= m < e ==> DigitValue(s[m], 10).Some?
    ensures DigitsValue(s, k, e, 10) == DecimalValue(s[k..e])
    decreases e - k
  {
    if e > k {
      assert s[k..e][..e - 1 - k] == s[k..e - 1];
      assert s[k..e][e - 1 - k] == s[e - 1];
      DigitsValueDecimal(s, k, e - 1);
    }
  }

  /** A string that starts with a decimal digit, and not with `0x`, is
      read in decimal from its first character. */
  lemma ParseDecimalStart(s: string)
    requires |s| > 0 && '0' <= s[0] <= '9'
    requires !(1 < |s| && s[0] == '0' && (s[1] == 'x' || s[1] == 'X'))
    ensures ParseInt(s) == Some(DigitsValue(s, 0, DigitRun(s, 0, 10), 10) as int)
  {
    assert SkipSpace(s, 0) == 0;
    assert DigitValue(s[0], 10).Some?;
  }

  /** The number at the start of a string: decimal digits not followed by
      a further digit, whatever else follows. */
  lemma DecimalPrefix(d: string, rest: string)
    requires |d| > 0 && IsDecimal(d)
    requires rest == [] || !('0' <= rest[0] <= '9')
    requires |d| == 1 && d[0] == '0' ==> rest == [] || (rest[0] != 'x' && rest[0] != 'X')
    ensures ParseInt(d + rest) == Some(DecimalValue(d))
  {
    var s := d + rest;
    assert s[0] == d[0];
    ParseDecimalStart(s);
    DecimalRun(d, rest);
  }

  lemma DecimalRun(d: string, rest: string)
    requires IsDecimal(d)
    requires rest == [] || !('0' <= rest[0] <= '9')
    ensures DigitRun(d + rest, 0, 10) == |d|
    ensures DigitsValue(d + rest, 0, |d|, 10) == DecimalValue(d)
  {
    var s := d + rest;
    forall m | 0 <= m < |d| ensures DigitValue(s[m], 10).Some? {
      assert s[m] == d[m];
    }
    assert DigitRun(s, |d|, 10) == |d|;
    DigitRunFrom(s, 0, |d|);
    assert s[0..|d|] == d;
    DigitsValueDecimal(s, 0, |d|);
  }

  /** A run of digits that ends at `e` is read up to `e`. */
  lemma {:induction false} DigitRunFrom(s: string, k: nat, e: nat)
    requires k <= e <= |s|
    requires forall m :: k <= m < e ==> DigitValue(s[m], 10).Some?
    requires DigitRun(s, e, 10) == e
    ensures DigitRun(s, k, 10) == e
    decreases e - k
  {
    if k < e {
      DigitRunFrom(s, k + 1, e);
    }
  }

  /** A level given as a plain decimal number is that number. */
  lemma DecimalLevel(d: string)
    requires |d| > 0 && IsDecimal(d)
    ensures ParseLogLevel(Some(d)) == DecimalValue(d)
  {
    assert d + [] == d;
    DecimalPrefix(d, []);
  }

  /** No level, or an empty one, is OFF. */
  lemma MissingLevelIsOff()
    ensures ParseLogLevel(None) == OFF
    ensures ParseLogLevel(Some("")) == OFF
  {
    DecimalLevel("0");
  }

  /** A level that does not start with a number is OFF. */
  lemma NonNumericLevelIsOff(text: string)
    requires |text| > 0 && !IsWhitespace(text[0])
    requires text[0] != '-' && text[0] != '+' && !('0' <= text[0] <= '9')
    ensures ParseLogLevel(Some(text)) == OFF
  {
    assert SkipSpace(text, 0) == 0;
  }

  lemma InvalidLevelIsOff()
    ensures ParseLogLevel(Some("invalid")) == OFF
  {
    NonNumericLevelIsOff("invalid");
  }

  /** The kinds of message, each written under its own tag. */
  datatype Kind = Info | Debug | Error

  function Tag(kind: Kind): string
  {
    match kind
    case Info => "INFO"
    case Debug => "DEBUG"
    case Error => "ERROR"
  }

  /** The guards of `info`, `debug` and `error`. */
  predicate Enabled(kind: Kind, level: int)
  {
    match kind
    case Info => level >= INFO
    case Debug => level >= DEBUG
    case Error => level > OFF
  }

  /** Errors are written exactly when informational messages are; debug
      messages need more; at OFF or below nothing is written. */
  lemma EnabledLevels(level: int)
    ensures Enabled(Error, level) <==> Enabled(Info, level)
    ensures Enabled(Debug, level) ==> Enabled(Info, level)
    ensures level <= OFF ==> forall kind :: !Enabled(kind, level)
    ensures level >= DEBUG ==> forall kind :: Enabled(kind, level)
  {
  }

  /** `${timestamp} [${level}]: ${message}\n`. */
  function FormatLine(timestamp: string, tag: string, message: string): string
  {
    timestamp + " [" + tag + "]: " + message + "\n"
  }

  /** A message without a newline is written as exactly one line. */
  lemma FormatLineIsOneLine(timestamp: string, tag: string, message: string)
    requires '\n' !in timestamp && '\n' !in tag && '\n' !in message
    ensures Split(FormatLine(timestamp, tag, message), "\n")
         == [timestamp + " [" + tag + "]: " + message, ""]
  {
    var body := timestamp + " [" + tag + "]: " + message;
    assert FormatLine(timestamp, tag, message) == Join([body, ""], "\n");
    JoinSplitChar([body, ""], '\n');
  }

  /** The log files after `log`: the line is appended only when a log file
      is configured and its name is not empty. */
  function AfterLog(files: map<string, string>, logFile: Option<string>, line: string)
    : (r: map<string, string>)
    ensures logFile.None? || logFile.value == "" ==> r == files
    ensures logFile.Some? && logFile.value != "" ==>
      var f := logFile.value;
      && r.Keys == files.Keys + {f}
      && r[f] == (if f in files then files[f] else "") + line
      && forall g :: g in files && g != f ==> r[g] == files[g]
  {
    if logFile.Some? && logFile.value != "" then
      var f := logFile.value;
      files[f := (if f in files then files[f] else "") + line]
    else files
  }

  /** The log files after a message of the given kind. */
  function AfterMessage(files: map<string, string>, logFile: Option<string>, level: int,
                        kind: Kind, timestamp: string, message: string): map<string, string>
  {
    if Enabled(kind, level) then AfterLog(files, logFile, FormatLine(timestamp, Tag(kind), message))
    else files
  }

  /** At level OFF, or without a log file, no message writes anything. */
  lemma SilentLogger(files: map<string, string>, logFile: Option<string>, level: int,
                     kind: Kind, timestamp: string, message: string)
    requires level <= OFF || logFile.None?
    ensures AfterMessage(files, logFile, level, kind, timestamp, message) == files
  {
  }

  /** An enabled message appends exactly its line to the log file. */
  lemma EnabledMessageAppends(files: map<string, string>, f: string, level: int,
                              kind: Kind, timestamp: string, message: string)
    requires f != "" && Enabled(kind, level)
    ensures var r := AfterMessage(files, Some(f), level, kind, timestamp, message);
      f in r && r[f] == (if f in files then files[f] else "") + FormatLine(timestamp, Tag(kind), message)
  {
  }

  class SystemLogger {
    var logFile: Option<string>
    var logLevel: int
    /** The contents of the files the logger appends to. */
    var files: map<string, string>

    /** The static fields start with no log file and level OFF. */
    constructor(files: map<string, string>)
      ensures logFile == None && logLevel == OFF && this.files == files
    {
      logFile := None;
      logLevel := OFF;
      this.files := files;
    }

    /** `initialize`: `LOG_FILE` and `LOG_LEVEL` are read from `env`. */
    method Initialize(env: map<string, string>)
      modifies this
      ensures logFile == (if "LOG_FILE" in env then Some(env["LOG_FILE"]) else None)
      ensures logLevel == ParseLogLevel(if "LOG_LEVEL" in env then Some(env["LOG_LEVEL"]) else None)
      ensures files == old(files)
    {
      logFile := if "LOG_FILE" in env then Some(env["LOG_FILE"]) else None;
      logLevel := ParseLogLevel(if "LOG_LEVEL" in env then Some(env["LOG_LEVEL"]) else None);
    }

    /** `log`: `timestamp` is the time of the call in ISO form. */
    method Log(tag: string, message: string, timestamp: string)
      modifies this
      ensures files == AfterLog(old(files), logFile, FormatLine(timestamp, tag, message))
      ensures logFile == old(logFile) && logLevel == old(logLevel)
    {
      var logMessage := timestamp + " [" + tag + "]: " + message + "\n";
      if logFile.Some? && logFile.value != "" {
        var f := logFile.value;
        files := files[f := (if f in files then files[f] else "") + logMessage];
      }
    }

    method Info(message: string, timestamp: string)
      modifies this
      ensures files == AfterMessage(old(files), logFile, logLevel, Kind.Info, timestamp, message)
      ensures logFile == old(logFile) && logLevel == old(logLevel)
    {
      if logLevel >= INFO {
        Log("INFO", message, timestamp);
      }
    }

    method Debug(message: string, timestamp: string)
      modifies this
      ensures files == AfterMessage(old(files), logFile, logLevel, Kind.Debug, timestamp, message)
      ensures logFile == old(logFile) && logLevel == old(logLevel)
    {
      if logLevel >= DEBUG {
        Log("DEBUG", message, timestamp);
      }
    }

    method Error(message: string, timestamp: string)
      modifies this
      ensures files == AfterMessage(old(files), logFile, logLevel, Kind.Error, timestamp, message)
      ensures logFile == old(logFile) && logLevel == old(logLevel)
    {
      if logLevel > OFF {
        Log("ERROR", message, timestamp);
      }
    }
  }
}
