/**
 * The logger: a small `printf`-like interpreter for `%d`, `%s`, `%f` and
 * `%%`, the message prefixes of `Log` and `LogVar`, the severity threshold
 * that decides the console echo, the append-only message list, the lazily
 * created singleton, and the `ScopeTracker` indentation counter.
 *
 * The static members of `Logger` and `ScopeTracker` live in one
 * `LoggerState` object. Console output is not modelled; `Log` and `LogVar`
 * return whether they would echo the message.
 */
module Logging {

  /** The `Level` enumerators. */
  const FATAL: int := 0
  const ERROR: int := 1
  const WARNING: int := 2
  const DEBUG: int := 3
  const INFO: int := 4

  /** `severityEnumToString`: the enumerator's name, or "" for any other value. */
  function SeverityName(level: int): (r: string)
    ensures r != "" <==> FATAL <= level <= INFO
  {
    if level == FATAL then "FATAL"
    else if level == ERROR then "ERROR"
    else if level == WARNING then "WARNING"
    else if level == DEBUG then "DEBUG"
    else if level == INFO then "INFO"
    else ""
  }

  /** The level a severity name stands for. */
  function LevelNamed(name: string): (r: int)
  {
    if name == "FATAL" then FATAL
    else if name == "ERROR" then ERROR
    else if name == "WARNING" then WARNING
    else if name == "DEBUG" then DEBUG
    else if name == "INFO" then INFO
    else -1
  }

  /** Each enumerator's name is distinct and names it back. */
  lemma SeverityNameRoundTrip(level: int)
    requires FATAL <= level <= INFO
    ensures LevelNamed(SeverityName(level)) == level
  {
  }

  /** The base name of a path: what follows its last '/', or all of it when it has none. */
  function StripDirectory(fileName: string): string
    decreases |fileName|
  {
    if |fileName| == 0 then ""
    else if fileName[|fileName| - 1] == '/' then ""
    else StripDirectory(fileName[..|fileName| - 1]) + [fileName[|fileName| - 1]]
  }

  /**
   * The base name is a suffix of the path without any '/', and it is the
   * longest one: a shorter result always follows a '/'.
   */
  lemma {:induction false} StripDirectoryIsBaseName(fileName: string)
    ensures var r := StripDirectory(fileName);
      |r| <= |fileName| && r == fileName[|fileName| - |r|..] && '/' !in r &&
      (|r| < |fileName| ==> fileName[|fileName| - |r| - 1] == '/')
    decreases |fileName|
  {
    if |fileName| > 0 && fileName[|fileName| - 1] != '/' {
      var init := fileName[..|fileName| - 1];
      StripDirectoryIsBaseName(init);
      var r := StripDirectory(init);
      assert init[|init| - |r|..] + [fileName[|fileName| - 1]] == fileName[|fileName| - |r| - 1..];
    }
  }

  /** A name without '/' is kept whole. */
  lemma {:induction false} StripDirectoryKeepsPlainName(fileName: string)
    requires '/' !in fileName
    ensures StripDirectory(fileName) == fileName
  {
    if |fileName| > 0 {
      var init := fileName[..|fileName| - 1];
      assert fileName[|fileName| - 1] in fileName;
      StripDirectoryKeepsPlainName(init);
      assert init + [fileName[|fileName| - 1]] == fileName;
    }
  }

  /** `indent` tab characters (none for a non-positive count). */
  function Tabs(indent: int): (r: string)
    ensures |r| == (if indent > 0 then indent else 0)
    ensures forall i :: 0 <= i < |r| ==> r[i] == '\t'
    decreases indent
  {
    if indent <= 0 then "" else Tabs(indent - 1) + "\t"
  }

  /** The decimal digits of `n`, most significant first. */
  function Digits(n: nat): (r: string)
    ensures |r| > 0
    ensures forall i :: 0 <= i < |r| ==> '0' <= r[i] <= '9'
  {
    if n < 10 then [(48 + n) as char] else Digits(n / 10) + [(48 + n % 10) as char]
  }

  /** `std::to_string(int)` and `operator<<(int)`: optional '-' then the digits. */
  function DecimalString(n: int): (r: string)
    ensures |r| > 0
    ensures n < 0 <==> r[0] == '-'
  {
    if n < 0 then "-" + Digits(-n) else Digits(n)
  }

  /** The value of a string of decimal digits. */
  function DigitsValue(s: string): nat
  {
    if |s| == 0 then 0 else 10 * DigitsValue(s[..|s| - 1]) + ((s[|s| - 1] as int - 48) % 10)
  }

  /** The value of a decimal rendering, with an optional leading '-'. */
  function DecimalValue(s: string): int
  {
    if |s| > 0 && s[0] == '-' then -(DigitsValue(s[1..]) as int) else DigitsValue(s)
  }

  lemma {:induction false} DigitsRoundTrip(n: nat)
    ensures DigitsValue(Digits(n)) == n
  {
    if n >= 10 {
      DigitsRoundTrip(n / 10);
      var s := Digits(n);
      assert s[..|s| - 1] == Digits(n / 10);
    }
  }

  /** Reading back a rendered integer gives the integer. */
  lemma DecimalRoundTrip(n: int)
    ensures DecimalValue(DecimalString(n)) == n
  {
    if n < 0 {
      DigitsRoundTrip(-n);
      assert DecimalString(n)[1..] == Digits(-n);
    } else {
      DigitsRoundTrip(n);
    }
  }

  /** `Logger::ToString(int)`. */
  function IntToString(variable: int): (r: string)
    ensures DecimalValue(r) == variable
  {
    DecimalRoundTrip(variable);
    DecimalString(variable)
  }

  /** `Logger::ToString(std::string)`: the identity. */
  function StringToString(variable: string): (r: string)
    ensures r == variable
  {
    variable
  }

  /**
   * A variadic argument as `va_arg` reads it: an `int`, a C string, or a
   * `double` carried with the text `operator<<` prints for it.
   */
  datatype Arg = IntArg(intValue: int) | StringArg(text: string) | DoubleArg(rendered: string)

  /** What `message << arg` appends. */
  function Render(arg: Arg): string
  {
    match arg
    case IntArg(i) => DecimalString(i)
    case StringArg(s) => CStringText(s)
    case DoubleArg(t) => t
  }

  /** The content of a C string: it stops at its terminator. */
  predicate IsCString(s: string)
  {
    '\0' !in s
  }

  /** What `operator<<` prints for a `char*`: the characters before the first NUL. */
  function CStringText(s: string): string
    decreases |s|
  {
    if |s| == 0 || s[0] == '\0' then "" else [s[0]] + CStringText(s[1..])
  }

  /**
   * `CStringText(s)` is the longest prefix of `s` without a NUL: a prefix,
   * NUL-free, and followed by a NUL when it stops early.
   */
  lemma {:induction false} CStringTextIsPrefix(s: string)
    ensures var r := CStringText(s);
      |r| <= |s| && r == s[..|r|] && IsCString(r) && (|r| < |s| ==> s[|r|] == '\0')
    decreases |s|
  {
    if |s| > 0 && s[0] != '\0' {
      CStringTextIsPrefix(s[1..]);
      var r := CStringText(s[1..]);
      assert s[1..][..|r|] == s[1..|r| + 1];
      assert [s[0]] + s[1..|r| + 1] == s[..|r| + 1];
    }
  }

  /** A string without a NUL is printed whole. */
  lemma {:induction false} CStringTextOfCString(s: string)
    requires IsCString(s)
    ensures CStringText(s) == s
    decreases |s|
  {
    if |s| > 0 {
      assert s[0] in s;
      assert forall c | c in s[1..] :: c in s;
      CStringTextOfCString(s[1..]);
      assert [s[0]] + s[1..] == s;
    }
  }

  /** A conversion letter that reads an argument. */
  predicate IsDirective(c: char)
  {
    c == 'd' || c == 's' || c == 'f'
  }

  /**
   * `fmt` can be walked safely with `args`: no '%' is its last character,
   * and each "%d", "%s" and "%f" finds a next argument of its type.
   */
  predicate Matches(fmt: string, args: seq<Arg>)
    decreases |fmt|
  {
    if |fmt| == 0 then true
    else if fmt[0] == '%' then
      |fmt| >= 2 &&
      if IsDirective(fmt[1]) then |args| > 0 && ArgFits(fmt[1], args[0]) && Matches(fmt[2..], args[1..])
      else Matches(fmt[2..], args)
    else Matches(fmt[1..], args)
  }

  /** `arg` has the type `va_arg` reads for the conversion letter `d`. */
  predicate ArgFits(d: char, arg: Arg)
  {
    (d == 'd' && arg.IntArg?) || (d == 's' && arg.StringArg?) || (d == 'f' && arg.DoubleArg?)
  }

  /** The number of arguments `fmt` reads. */
  function ArgCount(fmt: string): nat
    decreases |fmt|
  {
    if |fmt| == 0 then 0
    else if fmt[0] == '%' && |fmt| >= 2 then (if IsDirective(fmt[1]) then 1 else 0) + ArgCount(fmt[2..])
    else ArgCount(fmt[1..])
  }

  /** A matching format never reads more arguments than there are. */
  lemma {:induction false} MatchesBoundsArgCount(fmt: string, args: seq<Arg>)
    requires Matches(fmt, args)
    ensures ArgCount(fmt) <= |args|
    decreases |fmt|
  {
    if |fmt| > 0 {
      if fmt[0] == '%' {
        if IsDirective(fmt[1]) {
          MatchesBoundsArgCount(fmt[2..], args[1..]);
        } else {
          MatchesBoundsArgCount(fmt[2..], args);
        }
      } else {
        MatchesBoundsArgCount(fmt[1..], args);
      }
    }
  }

  /**
   * The expansion of `fmt`: ordinary characters verbatim, "%%" as '%',
   * "%d", "%s" and "%f" as the next argument, any other "%x" as nothing.
   */
  function Expand(fmt: string, args: seq<Arg>): string
    requires Matches(fmt, args)
    decreases |fmt|
  {
    if |fmt| == 0 then ""
    else if fmt[0] == '%' then
      if IsDirective(fmt[1]) then Render(args[0]) + Expand(fmt[2..], args[1..])
      else if fmt[1] == '%' then "%" + Expand(fmt[2..], args)
      else Expand(fmt[2..], args)
    else [fmt[0]] + Expand(fmt[1..], args)
  }

  /**
   * Text without '%' in front of a format is copied verbatim and reads no
   * argument.
   */
  lemma {:induction false} ExpandLiteralPrefix(prefix: string, rest: string, args: seq<Arg>)
    requires '%' !in prefix && Matches(rest, args)
    ensures Matches(prefix + rest, args) && ArgCount(prefix + rest) == ArgCount(rest)
    ensures Expand(prefix + rest, args) == prefix + Expand(rest, args)
    decreases |prefix|
  {
    if |prefix| > 0 {
      var whole := prefix + rest;
      assert prefix[0] in prefix;
      assert whole[0] == prefix[0] && whole[1..] == prefix[1..] + rest;
      assert '%' !in prefix[1..];
      ExpandLiteralPrefix(prefix[1..], rest, args);
      assert prefix == [prefix[0]] + prefix[1..];
    } else {
      assert prefix + rest == rest;
    }
  }

  /** The prefix of every `Log` message: tabs, "file:line - func(...) : SEVERITY - ". */
  function LogPrefix(indent: int, fileName: string, lineNumber: int, func: string, messageSeverity: int): string
  {
    Tabs(indent) + StripDirectory(fileName) + ":" + DecimalString(lineNumber) + " - " + func + "(...) : "
      + SeverityName(messageSeverity) + " - "
  }

  /** A whole `Log` message: the prefix, then the expanded format. */
  function LogEntry(indent: int, fileName: string, lineNumber: int, func: string, messageSeverity: int,
                    fmt: string, args: seq<Arg>): string
    requires Matches(fmt, args)
  {
    LogPrefix(indent, fileName, lineNumber, func, messageSeverity) + Expand(fmt, args)
  }

  /** The prefix of every `LogVar` message: tabs, then "SEVERITY - ". */
  function LogVarPrefix(indent: int, messageSeverity: int): string
  {
    Tabs(indent) + SeverityName(messageSeverity) + " - "
  }

  /** At a directive, the expansion is the next argument, then the rest of the format. */
  lemma ExpandDirectiveStep(fmt: string, pos: nat, args: seq<Arg>, argIndex: nat, prior: string)
    requires pos + 1 < |fmt| && argIndex <= |args| && Matches(fmt[pos..], args[argIndex..])
    requires fmt[pos] == '%' && IsDirective(fmt[pos + 1])
    ensures argIndex < |args| && Matches(fmt[pos + 2..], args[argIndex + 1..])
    ensures ArgCount(fmt[pos..]) == 1 + ArgCount(fmt[pos + 2..])
    ensures prior + Expand(fmt[pos..], args[argIndex..]) ==
      (prior + Render(args[argIndex])) + Expand(fmt[pos + 2..], args[argIndex + 1..])
  {
    assert fmt[pos..][2..] == fmt[pos + 2..];
    assert args[argIndex..][1..] == args[argIndex + 1..];
  }

  /** At any other "%x", the expansion is '%' for "%%" and nothing otherwise, then the rest. */
  lemma ExpandEscapeStep(fmt: string, pos: nat, args: seq<Arg>, argIndex: nat, prior: string)
    requires pos + 1 < |fmt| && argIndex <= |args| && Matches(fmt[pos..], args[argIndex..])
    requires fmt[pos] == '%' && !IsDirective(fmt[pos + 1])
    ensures Matches(fmt[pos + 2..], args[argIndex..])
    ensures ArgCount(fmt[pos..]) == ArgCount(fmt[pos + 2..])
    ensures prior + Expand(fmt[pos..], args[argIndex..]) ==
      (prior + if fmt[pos + 1] == '%' then "%" else "") + Expand(fmt[pos + 2..], args[argIndex..])
  {
    assert fmt[pos..][2..] == fmt[pos + 2..];
  }

  /** An ordinary character expands to itself, then the rest. */
  lemma ExpandCharacterStep(fmt: string, pos: nat, args: seq<Arg>, argIndex: nat, prior: string)
    requires pos < |fmt| && argIndex <= |args| && Matches(fmt[pos..], args[argIndex..])
    requires fmt[pos] != '%'
    ensures Matches(fmt[pos + 1..], args[argIndex..])
    ensures ArgCount(fmt[pos..]) == ArgCount(fmt[pos + 1..])
    ensures prior + Expand(fmt[pos..], args[argIndex..]) == (prior + [fmt[pos]]) + Expand(fmt[pos + 1..], args[argIndex..])
  {
    assert fmt[pos..][1..] == fmt[pos + 1..];
  }

  /**
   * Walks `fmt` one character at a time, appending to `message`; returns
   * the extended message and the number of arguments read.
   */
  method AppendFormatted(message: string, fmt: string, args: seq<Arg>) returns (out: string, consumed: nat)
    requires IsCString(fmt) && Matches(fmt, args)
    ensures out == message + Expand(fmt, args)
    ensures consumed == ArgCount(fmt)
  {
    out := message;
    var pos := 0;
    var argIndex := 0;
    MatchesBoundsArgCount(fmt, args);
    while pos < |fmt|
      invariant pos <= |fmt| && argIndex <= |args|
      invariant Matches(fmt[pos..], args[argIndex..])
      invariant argIndex + ArgCount(fmt[pos..]) == ArgCount(fmt)
      invariant out + Expand(fmt[pos..], args[argIndex..]) == message + Expand(fmt, args)
      decreases |fmt| - pos
    {
      if fmt[pos] == '%' {
        var token := fmt[pos + 1];
        if token == 'd' || token == 's' || token == 'f' {
          ExpandDirectiveStep(fmt, pos, args, argIndex, out);
          out := out + Render(args[argIndex]);
          argIndex := argIndex + 1;
        } else {
          ExpandEscapeStep(fmt, pos, args, argIndex, out);
          if token == '%' {
            out := out + [token];
          }
        }
        pos := pos + 2;
      } else {
        ExpandCharacterStep(fmt, pos, args, argIndex, out);
        out := out + [fmt[pos]];
        pos := pos + 1;
      }
    }
    consumed := argIndex;
  }

  /** Appends `indent` tabs to `message`, one per loop turn. */
  method AppendTabs(message: string, indent: int) returns (out: string)
    ensures out == message + Tabs(indent)
  {
    out := message;
    var i := 0;
    while i < indent
      invariant 0 <= i && (i <= indent || i == 0)
      invariant out == message + Tabs(i)
    {
      out := out + "\t";
      i := i + 1;
    }
  }

  /** A scope change as the `ScopeTracker` constructor and destructor make it. */
  datatype ScopeEvent = Open | Close

  /** The indentation after one scope event: opening indents, closing dedents. */
  function Step(indent: int, event: ScopeEvent): int
  {
    if event == Open then indent + 1 else indent - 1
  }

  /** The indentation after a run of scope events. */
  function IndentAfter(indent: int, events: seq<ScopeEvent>): int
    decreases |events|
  {
    if |events| == 0 then indent
    else IndentAfter(Step(indent, events[0]), events[1..])
  }

  /** `events`, starting `depth` scopes deep, closes every scope it is in and never more. */
  predicate BalancedFrom(events: seq<ScopeEvent>, depth: nat)
  {
    if |events| == 0 then depth == 0
    else if events[0] == Open then BalancedFrom(events[1..], depth + 1)
    else depth > 0 && BalancedFrom(events[1..], depth - 1)
  }

  /** Closing `depth` open scopes lowers the indentation by `depth`. */
  lemma {:induction false} BalancedFromLowers(indent: int, events: seq<ScopeEvent>, depth: nat)
    requires BalancedFrom(events, depth)
    ensures IndentAfter(indent, events) == indent - depth
    decreases |events|
  {
    if |events| > 0 {
      if events[0] == Open {
        BalancedFromLowers(indent + 1, events[1..], depth + 1);
      } else {
        BalancedFromLowers(indent - 1, events[1..], depth - 1);
      }
    }
  }

  /** One more event after a run moves the indentation by one more step. */
  lemma {:induction false} IndentAfterAppend(indent: int, events: seq<ScopeEvent>, event: ScopeEvent)
    ensures IndentAfter(indent, events + [event]) == Step(IndentAfter(indent, events), event)
    decreases |events|
  {
    if |events| > 0 {
      assert (events + [event])[1..] == events[1..] + [event];
      IndentAfterAppend(Step(indent, events[0]), events[1..], event);
    }
  }

  /** Properly nested scopes restore the indentation. */
  lemma NestedScopesRestore(indent: int, events: seq<ScopeEvent>)
    requires BalancedFrom(events, 0)
    ensures IndentAfter(indent, events) == indent
  {
    BalancedFromLowers(indent, events, 0);
  }

  /** The singleton object; its only state is its identity. */
  class Logger {
    constructor ()
    {
    }
  }

  /** The static members of `Logger` and `ScopeTracker`. */
  class LoggerState {
    var oneAndOnlyInstance: Logger?
    var uniqueID: int
    var severity: int
    var logMessages: seq<string>
    /** `ScopeTracker::indentTracker`. */
    var indentTracker: int

    /** The static initialisers. */
    constructor ()
      ensures oneAndOnlyInstance == null && uniqueID == 0 && severity == 0
      ensures logMessages == [] && indentTracker == 0
    {
      oneAndOnlyInstance := null;
      uniqueID := 0;
      severity := 0;
      logMessages := [];
      indentTracker := 0;
    }

    /** Creates the instance with `uniqueID := num` on the first call only; always returns it. */
    method GetInstance(num: int) returns (r: Logger)
      modifies this`oneAndOnlyInstance, this`uniqueID
      ensures oneAndOnlyInstance == r
      ensures old(oneAndOnlyInstance) == null ==> fresh(r) && uniqueID == num
      ensures old(oneAndOnlyInstance) != null ==> r == old(oneAndOnlyInstance) && uniqueID == old(uniqueID)
    {
      if oneAndOnlyInstance == null {
        oneAndOnlyInstance := new Logger();
        uniqueID := num;
      }
      r := oneAndOnlyInstance;
    }

    /** Sets the threshold at or below which messages are echoed. */
    method SetSeverity(severityLevel: int)
      modifies this`severity
      ensures severity == severityLevel
    {
      severity := severityLevel;
    }

    /** Builds the message, appends it to the log, and echoes it when its severity is within the threshold. */
    method Log(messageSeverity: int, fileName: string, lineNumber: int, func: string, fmt: string, args: seq<Arg>)
      returns (echoed: bool)
      requires IsCString(fmt) && Matches(fmt, args)
      modifies this`logMessages
      ensures logMessages ==
        old(logMessages) + [LogEntry(indentTracker, fileName, lineNumber, func, messageSeverity, fmt, args)]
      ensures echoed <==> messageSeverity <= severity
    {
      var formatedFileName := StripDirectory(fileName);
      var tabs := AppendTabs("", indentTracker);
      assert tabs == Tabs(indentTracker);
      var message := tabs + formatedFileName + ":" + DecimalString(lineNumber) + " - " + func + "(...) : "
        + SeverityName(messageSeverity) + " - ";
      var consumed;
      message, consumed := AppendFormatted(message, fmt, args);
      logMessages := logMessages + [message];
      echoed := messageSeverity <= severity;
    }

    /** As `Log`, with the shorter prefix of tabs and severity only. */
    method LogVar(messageSeverity: int, fmt: string, args: seq<Arg>) returns (echoed: bool)
      requires IsCString(fmt) && Matches(fmt, args)
      modifies this`logMessages
      ensures logMessages == old(logMessages) + [LogVarPrefix(indentTracker, messageSeverity) + Expand(fmt, args)]
      ensures echoed <==> messageSeverity <= severity
    {
      var message := AppendTabs("", indentTracker);
      assert message == Tabs(indentTracker);
      message := message + SeverityName(messageSeverity) + " - ";
      var consumed;
      message, consumed := AppendFormatted(message, fmt, args);
      logMessages := logMessages + [message];
      echoed := messageSeverity <= severity;
    }

    /** The `ScopeTracker` constructor. */
    method OpenScope()
      modifies this`indentTracker
      ensures indentTracker == Step(old(indentTracker), Open)
    {
      indentTracker := indentTracker + 1;
    }

    /** The `ScopeTracker` destructor (its console output is not modelled). */
    method CloseScope()
      modifies this`indentTracker
      ensures indentTracker == Step(old(indentTracker), Close)
    {
      indentTracker := indentTracker - 1;
    }

    /**
     * The `LOG` macro: fetches the instance, logs at the current indentation,
     * then opens a scope so later messages of the caller's scope sit one tab
     * deeper.
     */
    method LogMacro(level: int, fileName: string, lineNumber: int, func: string, fmt: string, args: seq<Arg>)
      returns (echoed: bool)
      requires IsCString(fmt) && Matches(fmt, args)
      modifies this`oneAndOnlyInstance, this`uniqueID, this`logMessages, this`indentTracker
      ensures logMessages ==
        old(logMessages) + [LogEntry(old(indentTracker), fileName, lineNumber, func, level, fmt, args)]
      ensures indentTracker == old(indentTracker) + 1
      ensures echoed <==> level <= severity
      ensures oneAndOnlyInstance != null
      ensures old(oneAndOnlyInstance) == null ==> fresh(oneAndOnlyInstance) && uniqueID == 0
      ensures old(oneAndOnlyInstance) != null ==> oneAndOnlyInstance == old(oneAndOnlyInstance) && uniqueID == old(uniqueID)
    {
      var instance := GetInstance(0);
      echoed := Log(level, fileName, lineNumber, func, fmt, args);
      OpenScope();
    }

    /**
     * The `LOG_VAR` macro for a string variable: logs through the format
     * "name: %s", where `name` is the variable's source text. A '%' in that
     * text is read as a directive like any other; without one the entry is
     * "name: value".
     */
    method LogStringVariable(level: int, name: string, variable: string) returns (echoed: bool)
      requires IsCString(name) && Matches(name + ": %s", [StringArg(variable)])
      modifies this`oneAndOnlyInstance, this`uniqueID, this`logMessages
      ensures logMessages == old(logMessages) + [LogVarPrefix(indentTracker, level) + Expand(name + ": %s", [StringArg(variable)])]
      ensures '%' !in name ==>
        logMessages == old(logMessages) + [LogVarPrefix(indentTracker, level) + name + ": " + CStringText(variable)]
      ensures echoed <==> level <= severity
      ensures oneAndOnlyInstance != null
      ensures old(oneAndOnlyInstance) == null ==> fresh(oneAndOnlyInstance) && uniqueID == 0
      ensures old(oneAndOnlyInstance) != null ==> oneAndOnlyInstance == old(oneAndOnlyInstance) && uniqueID == old(uniqueID)
    {
      var instance := GetInstance(0);
      assert IsCString(name + ": %s") by {
        assert forall i | 0 <= i < |name + ": %s"| :: (name + ": %s")[i] != '\0' by {
          forall i | 0 <= i < |name + ": %s"| ensures (name + ": %s")[i] != '\0' {
            if i < |name| {
              assert (name + ": %s")[i] == name[i];
              assert name[i] in name;
            }
          }
        }
      }
      echoed := LogVar(level, name + ": %s", [StringArg(StringToString(variable))]);
      if '%' !in name {
        ExpandVariableFormat(name, variable);
        assert LogVarPrefix(indentTracker, level) + (name + ": " + CStringText(variable))
          == LogVarPrefix(indentTracker, level) + name + ": " + CStringText(variable);
      }
    }
  }

  /**
   * The format "name: %s" of `LOG_VAR` expands to "name: " and the
   * variable's text up to its first NUL, which `c_str()` makes the end.
   */
  lemma ExpandVariableFormat(name: string, variable: string)
    requires IsCString(name) && '%' !in name
    ensures IsCString(name + ": %s") && Matches(name + ": %s", [StringArg(variable)])
    ensures Expand(name + ": %s", [StringArg(variable)]) == name + ": " + CStringText(variable)
  {
    var args := [StringArg(variable)];
    var heading := name + ": ";
    assert '%' !in heading;
    assert "%s"[2..] == "";
    assert Matches("%s"[2..], args[1..]);
    assert Expand("%s", args) == CStringText(variable);
    assert name + ": %s" == heading + "%s";
    ExpandLiteralPrefix(heading, "%s", args);
    assert '\0' !in name + ": %s";
  }
}
