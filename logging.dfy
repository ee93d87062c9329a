/**
 * The logger's process-wide state and its operations (logger.cpp), with the
 * call-site macros of logger.hpp as methods.
 *
 * The two globals `log_file` and `indent_level` become fields of one `Logger`
 * object; `output` is the text written to the open log file. The foreign calls
 * `fopen`, `setvbuf` and `atexit` are represented by whether they succeed, the
 * wall clock by the time it reads (or `None` when `time` fails), and the
 * rendering of the caller's printf arguments by their rendered texts.
 */
module Logging {
  import opened Wrappers
  import opened Status
  import opened Printf
  import opened Preprocessor
  import opened Record
  import opened Macros
  import Scopes

  /** A `const char*` argument: a null pointer or a NUL-terminated text. */
  datatype CString = Null | Text(chars: string)

  /** What `__FILE__`, `__LINE__` and `__func__` expand to where a macro is used. */
  datatype CallSite = CallSite(file: string, line: nat, func: string)

  /** Name of the exit hook, and the line of its `LogFunctionEntry()`. */
  const DtorName := "LoggingDtor"
  const DtorEntryLine := 139

  /** The checks of `Log_` that come before the log itself is consulted: no null pointer, no negative line. */
  predicate Admissible(file: CString, line: int, func: CString, format: CString)
  {
    file.Text? && func.Text? && format.Text? && line >= 0
  }

  class Logger {
    /** `log_file != nullptr`: a log file is open. */
    var isOpen: bool
    /** `indent_level`: the number of live `LogHelper_` objects. */
    var indentLevel: int
    /** What has been written to the file `log_file` refers to (or last referred to). */
    var output: string
    /** `FILE` handles opened by the logger and not yet closed. */
    ghost var openHandles: nat
    /** How many times `LoggingDtor` has been registered with `atexit`. */
    ghost var exitHooks: nat

    /** An open log owns a handle and will be torn down at process exit. */
    ghost predicate Valid()
      reads this
    {
      isOpen ==> openHandles >= 1 && exitHooks >= 1
    }

    /** The state at program start: no log file, level zero. */
    constructor ()
      ensures Valid()
      ensures !isOpen && indentLevel == 0 && output == []
      ensures openHandles == 0 && exitHooks == 0
    {
      isOpen := false;
      indentLevel := 0;
      output := [];
      openHandles := 0;
      exitHooks := 0;
    }

    /** `LogHelper_::LogHelper_`: one more open scope. */
    method EnterScope()
      modifies this`indentLevel
      ensures indentLevel == Scopes.Step(old(indentLevel), Scopes.Construct)
    {
      indentLevel := indentLevel + 1;
    }

    /** `LogHelper_::~LogHelper_`: one scope fewer. */
    method ExitScope()
      modifies this`indentLevel
      ensures indentLevel == Scopes.Step(old(indentLevel), Scopes.Destroy)
    {
      indentLevel := indentLevel - 1;
    }

    /**
     * `LoggingSetup`: open the log file, make it unbuffered, register the exit
     * hook. `fopenOk`, `setvbufOk` and `atexitOk` say whether `fopen`, `setvbuf`
     * and `atexit` succeed when called. Each failure has its own status, a
     * handle opened before a failure is closed again, and only full success
     * changes the log.
     */
    method LoggingSetup(path: CString, fopenOk: bool, setvbufOk: bool, atexitOk: bool)
      returns (status: LoggingStatus)
      requires Valid()
      modifies this
      ensures Valid()
      ensures status == NullPassed <==> path.Null?
      ensures status == CantOpenFile <==> path.Text? && !fopenOk
      ensures status == InternalError <==> path.Text? && fopenOk && !(setvbufOk && atexitOk)
      ensures status == Ok <==> path.Text? && fopenOk && setvbufOk && atexitOk
      ensures indentLevel == old(indentLevel)
      ensures status == Ok ==>
        && isOpen && output == []
        && openHandles == old(openHandles) + 1 && exitHooks == old(exitHooks) + 1
      ensures status != Ok ==>
        && isOpen == old(isOpen) && output == old(output)
        && openHandles == old(openHandles) && exitHooks == old(exitHooks)
    {
      if path.Null? {
        return NullPassed;
      }
      // fopen(path, "w")
      if !fopenOk {
        return CantOpenFile;
      }
      openHandles := openHandles + 1;
      // setvbuf(handle, nullptr, _IONBF, 0)
      if !setvbufOk {
        openHandles := openHandles - 1;  // fclose
        return InternalError;
      }
      // atexit(LoggingDtor)
      if !atexitOk {
        openHandles := openHandles - 1;  // fclose
        return InternalError;
      }
      exitHooks := exitHooks + 1;
      isOpen, output := true, [];
      return Ok;
    }

    /**
     * `Log_`: check the arguments, then the log, then the clock, and append one
     * record. The record's message is what `format` prints with the rendered
     * `args`. Only a call that gets as far as `vfprintf` needs the two to match,
     * C leaving a mismatch undefined there; the earlier returns never read `format`.
     */
    method Emit(file: CString, line: int, func: CString, format: CString, args: seq<string>, clock: Option<TimeOfDay>)
      returns (status: LoggingStatus)
      requires Admissible(file, line, func, format) && isOpen && clock.Some? ==> Expand(format.chars, args).Some?
      modifies this`output
      ensures status == NullPassed <==> !Admissible(file, line, func, format)
      ensures status == UninitLog <==> Admissible(file, line, func, format) && !isOpen
      ensures status == InternalError <==> Admissible(file, line, func, format) && isOpen && clock.None?
      ensures status == Ok <==> Admissible(file, line, func, format) && isOpen && clock.Some?
      ensures status != Ok ==> output == old(output)
      ensures status == Ok ==>
        && Admissible(file, line, func, format) && clock.Some?
        && output == old(output) + RecordText(clock.value, file.chars, func.chars, line, indentLevel,
                                              Expand(format.chars, args).value)
    {
      if file.Null? || func.Null? || format.Null? || line < 0 {
        return NullPassed;
      }
      if !isOpen {
        return UninitLog;
      }
      if clock.None? {
        return InternalError;
      }
      var message := Expand(format.chars, args).value;
      PutRecord(Header(clock.value, file.chars, func.chars, line), message);
      status := Ok;
    }

    /**
     * The writes of `Log_` once its checks have passed: the header, spaces from
     * the column `fprintf` reached up to the alignment column, the separator,
     * two spaces per level, and the message.
     */
    method PutRecord(header: string, message: string)
      modifies this`output
      ensures output == old(output) + (header + Spaces(Alignment - |header|) + "| "
                                       + Spaces(TabWidth * indentLevel) + message)
    {
      ghost var before := output;
      output := output + header;
      var printed := |header|;
      PutSpaces(printed, Alignment);
      ghost var padded := output;
      assert padded == before + (header + Spaces(Alignment - printed));
      output := output + "|";
      output := output + " ";
      assert output == before + (header + Spaces(Alignment - printed) + "| ");
      PutSpaces(0, indentLevel * TabWidth);
      output := output + message;
    }

    /** One of the `fputc(' ', log_file)` loops of `Log_`: a space for each `i` from `from` up to `bound`. */
    method PutSpaces(from: int, bound: int)
      modifies this`output
      ensures output == old(output) + Spaces(bound - from)
    {
      var i := from;
      while i < bound
        invariant from <= i
        invariant from < bound ==> i <= bound
        invariant from >= bound ==> i == from
        invariant output == old(output) + Spaces(i - from)
      {
        SpacesSucc(i - from);
        output := output + " ";
        i := i + 1;
      }
    }

    /** The `Log(...)` macro: `Log_` with the call site's file, line and function. */
    method Log(site: CallSite, format: CString, args: seq<string>, clock: Option<TimeOfDay>)
      returns (status: LoggingStatus)
      requires format.Text? && isOpen && clock.Some? ==> Expand(format.chars, args).Some?
      modifies this`output
      ensures status == NullPassed <==> format.Null?
      ensures status == UninitLog <==> format.Text? && !isOpen
      ensures status == InternalError <==> format.Text? && isOpen && clock.None?
      ensures status == Ok <==> format.Text? && isOpen && clock.Some?
      ensures status != Ok ==> output == old(output)
      ensures status == Ok ==>
        && format.Text? && clock.Some?
        && output == old(output) + RecordText(clock.value, site.file, site.func, site.line, indentLevel,
                                              Expand(format.chars, args).value)
    {
      status := Emit(Text(site.file), site.line, Text(site.func), format, args, clock);
    }

    /**
     * The `LogFunctionEntry()` macro: a `LogHelper_` is created first, then the
     * entry is logged, so its record is indented at the raised level. The
     * helper's destructor runs when the caller's scope ends: `ExitScope`.
     */
    method LogFunctionEntry(site: CallSite, clock: Option<TimeOfDay>) returns (status: LoggingStatus)
      modifies this`indentLevel, this`output
      ensures indentLevel == old(indentLevel) + 1
      ensures status == UninitLog <==> !isOpen
      ensures status == InternalError <==> isOpen && clock.None?
      ensures status == Ok <==> isOpen && clock.Some?
      ensures status != Ok ==> output == old(output)
      ensures status == Ok ==>
        clock.Some? &&
        output == old(output) + RecordText(clock.value, site.file, site.func, site.line, old(indentLevel) + 1,
                                           site.func + " function entry\n")
    {
      EnterScope();
      EntryMessage(site.func);
      status := Log(site, Text(EntryFormat), [site.func], clock);
    }

    /**
     * The `LogError(error_)` macro: an "Error encountered" record naming the
     * error expression. `error_` is not an operand of `#` in `LogError` itself,
     * so `error` holds its tokens after macro replacement, which `STRINGIFY`
     * then spells.
     */
    method LogError(site: CallSite, error: seq<PPToken>, clock: Option<TimeOfDay>) returns (status: LoggingStatus)
      modifies this`output
      ensures status == UninitLog <==> !isOpen
      ensures status == InternalError <==> isOpen && clock.None?
      ensures status == Ok <==> isOpen && clock.Some?
      ensures status != Ok ==> output == old(output)
      ensures status == Ok ==>
        clock.Some? &&
        output == old(output) + RecordText(clock.value, site.file, site.func, site.line, indentLevel,
                                           "Error encountered: " + Stringify(error) + "\n")
    {
      ErrorMessage(error);
      status := Log(site, Text(ErrorFormat), [Stringify(error)], clock);
    }

    /**
     * The `LogVariable(format_, value_)` macro, with the spelling of the
     * expression passed as an argument rather than pasted into the format:
     * a record "<expression>: <value>" ending in a newline. `rendered` is what
     * `format` prints for the value.
     */
    method LogVariable(site: CallSite, format: string, value: seq<PPToken>, rendered: string, clock: Option<TimeOfDay>)
      returns (status: LoggingStatus)
      requires IsConversionSpec(format)
      modifies this`output
      ensures status == UninitLog <==> !isOpen
      ensures status == InternalError <==> isOpen && clock.None?
      ensures status == Ok <==> isOpen && clock.Some?
      ensures status != Ok ==> output == old(output)
      ensures status == Ok ==>
        clock.Some? &&
        output == old(output) + RecordText(clock.value, site.file, site.func, site.line, indentLevel,
                                           Stringify(value) + ": " + rendered + "\n")
    {
      VariableMessage(format, value, rendered);
      status := Log(site, Text(VariableFormat(format)), [Stringify(value), rendered], clock);
    }

    /**
     * `LoggingDtor`, the exit hook: nothing when no log is open; otherwise it
     * logs its own entry one level deeper, closes the log file and marks the
     * log uninitialised, and its helper's destructor restores the level.
     */
    method LoggingDtor(sourceFile: string, clock: Option<TimeOfDay>)
      requires Valid()
      modifies this
      ensures Valid()
      ensures !isOpen && indentLevel == old(indentLevel) && exitHooks == old(exitHooks)
      ensures !old(isOpen) ==> output == old(output) && openHandles == old(openHandles)
      ensures old(isOpen) ==>
        && openHandles == old(openHandles) - 1
        && output == old(output) + (if clock.None? then [] else
             RecordText(clock.value, sourceFile, DtorName, DtorEntryLine, old(indentLevel) + 1,
                        DtorName + " function entry\n"))
    {
      if !isOpen {
        return;
      }
      var _ := LogFunctionEntry(CallSite(sourceFile, DtorEntryLine, DtorName), clock);
      openHandles := openHandles - 1;  // fclose(log_file)
      isOpen := false;
      ExitScope();  // the helper declared by LogFunctionEntry() goes out of scope
    }
  }

  /**
   * A caller's view of one session: a call before setup is refused whatever its
   * format (here one `vfprintf` could not print), then the log is set up, `f` at line 10 of
   * `a.c` logs `hi %d\n` with the argument 3, and the log file then holds one
   * record that starts with the time, names the call site as `[a.c:f:10]: `
   * and ends with `| hi 3` and a newline.
   */
  method OneRecordSession(t: TimeOfDay)
  {
    var log := new Logger();
    var early := log.Log(CallSite("a.c", 9, "f"), Text("100%"), [], Some(t));
    assert early == UninitLog && log.output == [];
    var setup := log.LoggingSetup(Text("out.log"), true, true, true);
    assert setup == Ok;
    HiThree();
    var status := log.Log(CallSite("a.c", 10, "f"), Text("hi %d\n"), ["3"], Some(t));
    assert status == Ok;
    assert log.output == RecordText(t, "a.c", "f", 10, 0, "hi 3\n");
    SessionRecordShape(t);
    log.LoggingDtor("logger.cpp", Some(t));
    assert !log.isOpen && log.indentLevel == 0;
  }

  /** What the session above prints for its message. */
  lemma HiThree()
    ensures Expand("hi %d\n", ["3"]) == Some("hi 3\n")
  {
    assert IsConversionSpec("%d");
    PlainFormat("\n", []);
    ExpandConversion("%d", "\n", "3", []);
    assert ["3"] + [] == ["3"] && "%d" + "\n" == "%d\n";
    assert Expand("%d\n", ["3"]) == Some("3\n") by {
      assert "3" + "\n" == "3\n";
    }
    ExpandLiteral("hi ", "%d\n", ["3"]);
    assert "hi " + "%d\n" == "hi %d\n";
    assert "hi " + "3\n" == "hi 3\n";
  }

  lemma SessionRecordShape(t: TimeOfDay)
    ensures var r := RecordText(t, "a.c", "f", 10, 0, "hi 3\n");
            var h := Header(t, "a.c", "f", 10);
            && |r| >= 7 && r[0] == '[' && r[|r| - 7..] == "| hi 3\n"
            && 12 <= |h| <= |r| && r[|h| - 12..|h|] == "[a.c:f:10]: "
            && Count('\n', r) == 1
  {
    var r := RecordText(t, "a.c", "f", 10, 0, "hi 3\n");
    var h := Header(t, "a.c", "f", 10);
    RecordLayout(t, "a.c", "f", 10, 0, "hi 3\n");
    assert r[..|h|] == h;
    SessionSite(t);
    assert r[|h| - 12..|h|] == h[|h| - 12..];
    SessionNewlines(t);
  }

  lemma SessionSite(t: TimeOfDay)
    ensures var h := Header(t, "a.c", "f", 10);
            12 <= |h| && h[|h| - 12..] == "[a.c:f:10]: "
  {
    assert Decimal(10) == "10" by {
      assert Decimal(1) == "1";
    }
    HeaderEndsWithSite(t, "a.c", "f", 10);
    assert "[" + "a.c" + ":" + "f" + ":" + "10" + "]: " == "[a.c:f:10]: ";
  }

  lemma SessionNewlines(t: TimeOfDay)
    ensures Count('\n', RecordText(t, "a.c", "f", 10, 0, "hi 3\n")) == 1
  {
    RecordNewlines(t, "a.c", "f", 10, 0, "hi 3\n");
    CountAbsent('\n', "a.c");
    CountAbsent('\n', "f");
    CountAbsent('\n', "hi 3");
    CountConcat('\n', "hi 3", "\n");
    assert "hi 3" + "\n" == "hi 3\n";
  }

  /**
   * Three nested traced functions: their entry records are indented one, two
   * and three levels (2, 4 and 6 spaces), and the level is back to zero once
   * all three scopes have ended.
   */
  method NestedEntries(file: string, t: TimeOfDay)
  {
    var log := new Logger();
    var setup := log.LoggingSetup(Text("out.log"), true, true, true);
    ghost var r1 := RecordText(t, file, "outer", 1, 1, "outer" + " function entry\n");
    ghost var r2 := RecordText(t, file, "middle", 2, 2, "middle" + " function entry\n");
    ghost var r3 := RecordText(t, file, "inner", 3, 3, "inner" + " function entry\n");
    var s1 := log.LogFunctionEntry(CallSite(file, 1, "outer"), Some(t));
    assert log.output == r1;
    var s2 := log.LogFunctionEntry(CallSite(file, 2, "middle"), Some(t));
    assert log.output == r1 + r2;
    var s3 := log.LogFunctionEntry(CallSite(file, 3, "inner"), Some(t));
    assert log.output == r1 + r2 + r3 && log.indentLevel == 3;
    log.ExitScope();
    log.ExitScope();
    log.ExitScope();
    assert log.indentLevel == 0;
  }
}
