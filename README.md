# liblogger in Dafny

liblogger is a small C++ logging library made of `logger.hpp` and `logger.cpp`. A program calls
`LoggingSetup(path)` once. The library then opens the log file unbuffered and registers an exit
hook, `LoggingDtor`. After that, the macros `Log`, `LogFunctionEntry`, `LogError` and
`LogVariable` append one record per call. A record has four parts:

- a header `[h:m:s][file:function:line]: `;
- padding with spaces up to column 90;
- the separator `| `;
- two spaces per open `LogHelper_` scope, followed by the printf-formatted message.

Every entry point reports a `LoggingStatus`.

This project models that core:

- `Logging.Logger` is a class. It holds the library's two globals: `log_file`, as `isOpen` plus
  the text written so far, and `indent_level`. Each entry point is a method on it.
- Separate modules give the pure parts their own definitions:
  - the status enumeration and its names (`Status`);
  - the `#` operator of the C preprocessor (`Preprocessor`);
  - the part of printf that the library relies on (`Printf`);
  - the record layout (`Record`);
  - the message formats built by the macros (`Macros`);
  - the RAII nesting of `LogHelper_` objects (`Scopes`).

The properties are proved about these definitions:

- the status values round-trip;
- status names are injective;
- the header format prints exactly the header;
- the record's column layout and its newline count;
- the macros' messages;
- balanced scopes restore the indentation level;
- every status and state outcome of setup, logging and teardown.

Three behaviours of the code that a reader might not expect:

- `LoggingSetup` and `Log_` reject only null pointers and a negative line. Empty strings pass.
- The enumeration has six enumerators: `kOk = -1`, `kUninitEnum = 0`, and then the four error
  codes 1 to 4.
- `LogFunctionEntry()` constructs its `LogHelper_` before it logs. So the entry record of a function
  at nesting depth d is indented by d levels. Three nested traced functions print their entries at
  2, 4 and 6 spaces. `Logging.NestedEntries` walks through this case.

## Model

| member | source | states |
|---|---|---|
| Status.Value | logger.hpp:20-29 | each enumerator's value is between -1 and 4; only `kOk` is -1, and exactly the error enumerators are positive |
| Status.FromValue | logger.hpp:20-29 | an int names an enumerator exactly when it lies in -1..4, and then it names the one with that value |
| Status.ValueRoundTrip | logger.hpp:20-29 | converting an enumerator to its value and back gives the same enumerator |
| Status.ValueInjective | logger.hpp:20-29 | distinct enumerators have distinct values |
| Status.LogErrorToStr | logger.cpp:120-132 | a valid value is named `LoggingStatus::` followed by its enumerator, spelled by stringifying the qualified name; any other value gives `<unknown enum value>` |
| Status.LogErrorToStrInjective | logger.cpp:120-132 | a valid status value shares its name with no other value, including invalid ones |
| Preprocessor.Stringify | logger.hpp:7 | `#` turns a macro argument into the text of its tokens; white space before the first token is dropped, so the text starts with that token's spelling |
| Preprocessor.StringifyTight | logger.hpp:6-12 | stringifying an argument with no whitespace between its tokens gives its spellings run together |
| Preprocessor.StringifyLength | logger.hpp:6-12 | a stringified argument is as long as its spellings plus one space per whitespace gap between tokens |
| Printf.Expand | logger.cpp:110 | printing a format with rendered arguments; the result is undefined only where the format holds a `%` |
| Printf.SpecRun | logger.cpp:110 | the flag, width, precision and length characters of a conversion specification are a maximal prefix |
| Printf.ExpandLiteral | logger.cpp:110 | printf copies text without `%` through unchanged and goes on with the rest of the format |
| Printf.PlainFormat | logger.cpp:110 | a format without `%` prints itself and consumes no argument |
| Printf.ExpandConversion | logger.cpp:110 | a well-formed conversion specification prints its argument and the rest of the format uses the remaining arguments |
| Printf.FormatConcat | logger.cpp:88-95 | joining two format fragments joins their texts and adds their numbers of conversions |
| Printf.TextConcat | logger.cpp:88-95 | the printed text of two fragments is the first printed with the arguments, then the second printed with the arguments the first did not use |
| Printf.ExpandPieces | logger.cpp:88-95 | a format made of literals and conversion specifications prints each literal and each argument in order |
| Printf.Decimal | logger.cpp:88-95 | `%d` of a non-negative int is a non-empty string of digits with no leading zero unless the value is 0 |
| Printf.DecimalRoundTrip | logger.cpp:88-95 | reading the digits printed for n back gives n |
| Printf.DecimalInjective | logger.cpp:88-95 | distinct numbers print differently |
| Record.Spaces | logger.cpp:97-108 | a loop writing one space per step from a lower to an upper bound writes max(0, upper - lower) spaces |
| Record.Header | logger.cpp:88-95 | the header starts with `[`, ends with `]: `, and is at least 14 characters longer than the file and function names together |
| Record.HeaderEndsWithSite | logger.cpp:88-95 | the header ends with the call site in brackets, `[file:function:line]: ` |
| Record.HeaderIsPrinted | logger.cpp:88-95 | the header format applied to hour, minute, second, file, function and line prints `[h:m:s][file:function:line]: ` |
| Record.RecordText | logger.cpp:88-110 | a record always reaches past column 90: it is at least 92 characters longer than its message |
| Record.RecordLayout | logger.cpp:88-110 | a record starts with its header, is padded with spaces up to column max(90, header length), has `| ` there, then 2·depth spaces (none for depth ≤ 0), and ends with the message; its length is the sum of these parts |
| Record.CountConcat | logger.cpp:88-110 | the newlines of a record split over its parts |
| Record.CountAbsent | logger.cpp:88-95 | digits and spaces contribute no newline |
| Record.RecordNewlines | logger.cpp:88-111 | a record adds no newline of its own: its newlines are those of the file name, the function name and the message |
| Macros.EntryMessage | logger.hpp:34 | `LogFunctionEntry()` prints `<function> function entry` followed by a newline |
| Macros.ErrorMessage | logger.hpp:35 | `LogError(e)` prints `Error encountered: ` followed by the spelling of `e` after macro replacement, and a newline |
| Macros.VariableMessage | logger.hpp:36 | with the expression passed as an argument, `LogVariable(f, v)` prints the spelling of `v`, `: `, the value as `f` renders it, and a newline |
| Macros.VariableFormatAsWritten | logger.hpp:36 | the format the macro as written builds begins with the spelling of the expression and ends with the caller's format and a newline, so the spelling becomes format text |
| Macros.VariableFormatAsWrittenAgrees | logger.hpp:36 | when the expression's spelling has no `%`, pasting it into the format as written prints the same as passing it as an argument |
| Macros.VariableFormatAsWrittenBreaks | logger.hpp:36 | for `LogVariable("%d", a % b)` the pasted format is `a % b: %d` plus a newline, and it is not a valid printf format |
| Scopes.LevelAfterConcat | logger.cpp:21-27 | the level after two runs of constructions and destructions is the second applied to the level after the first |
| Scopes.ScopeRestoresLevel | logger.hpp:14-18 | a `LogHelper_` scope, with the scopes nested in it, leaves `indent_level` as it found it |
| Scopes.ScopesRestoreLevel | logger.hpp:14-18 | a run of complete scopes leaves `indent_level` unchanged |
| Scopes.ChainEvents | logger.hpp:34 | n directly nested traced functions construct n helpers and then destroy n helpers |
| Scopes.ConstructsRaiseLevel | logger.cpp:21-23 | n constructions raise the level by n |
| Scopes.NestedScopes | logger.hpp:34 | with n nested traced functions the level reaches its start plus n at the innermost one and is back at its start once all have returned |
| Logging.Logger.constructor | logger.cpp:14-15 | at program start no log file is open and the level is 0 |
| Logging.Logger.EnterScope | logger.cpp:21-23 | constructing a `LogHelper_` raises the level by one |
| Logging.Logger.ExitScope | logger.cpp:25-27 | destroying a `LogHelper_` lowers the level by one |
| Logging.Logger.LoggingSetup | logger.cpp:31-53 | null path gives `kNullPassed`, a failed `fopen` gives `kCantOpenFile`, a failed `setvbuf` or `atexit` gives `kInternalError` with the handle closed again, and only success opens an empty log and registers the hook; the level never changes |
| Logging.Logger.Emit | logger.cpp:55-118 | for any format, a null pointer or negative line gives `kNullPassed`, then no log gives `kUninitLog`, then a failed clock gives `kInternalError`, each leaving the log unchanged; otherwise exactly one record (header, padding, bar, indentation at the current level, printed message) is appended |
| Logging.Logger.PutRecord | logger.cpp:87-110 | the writes after the checks append the header, spaces up to column 90, `| `, two spaces per level and the message, and nothing else |
| Logging.Logger.PutSpaces | logger.cpp:98-100 | the padding loop appends exactly max(0, upper - lower) spaces and nothing else |
| Logging.Logger.Log | logger.hpp:33 | `Log(...)` behaves as `Log_` at the caller's file, line and function, which are never null |
| Logging.Logger.LogFunctionEntry | logger.hpp:34 | the level rises by one before logging, so the entry record is indented at the raised level; the statuses are as for `Log_` |
| Logging.Logger.LogError | logger.hpp:35 | appends one `Error encountered: <spelling>` record at the current level, where the spelling is that of the argument after macro replacement, or reports why it did not |
| Logging.Logger.LogVariable | logger.hpp:36 | appends one `<spelling>: <value>` record at the current level, or reports why it did not |
| Logging.Logger.LoggingDtor | logger.cpp:136-143 | with no log open it does nothing; otherwise it appends its own entry record at one level deeper (when the clock works), closes the file and leaves the log uninitialised, with the level restored |
| Logging.HiThree | logger.cpp:110 | the format `hi %d` with a newline, applied to the rendered argument `3`, prints `hi 3` and a newline |
| Logging.SessionRecordShape | logger.cpp:88-111 | the record of that message logged by `f` at line 10 of `a.c` at depth 0 starts with `[`, holds `[a.c:f:10]: ` at the end of its header, ends with `| hi 3` and a newline, and is one line |
| Logging.SessionNewlines | logger.cpp:88-111 | that record holds exactly one newline, the message's own |

## Left out

- `fopen`, `setvbuf`, `atexit` and `fclose` are foreign calls. Each one is represented only by whether it succeeds. The file is the text appended to `output`, and the ghost counters `openHandles` and `exitHooks` stand for the handle and the hook registration.
- Re-running `LoggingSetup` after a success opens a new file and leaks the old handle, which the counters show. `output` shows only the file currently referenced, so the earlier file's text drops out of view.
- `time` and `localtime` are a clock parameter: `None` means `time` failed. A null result from `localtime` is not modelled; the source dereferences it unchecked.
- Caller arguments to `Log_` are passed as the texts printf renders for them. Only `%%` and single conversions with flag, width, precision and length characters are interpreted. `*` widths and `%n` count as invalid. A call that reaches `vfprintf` with a format that does not match its arguments is excluded by the precondition, because C leaves it undefined. Calls that return before `vfprintf` accept any format.
- `Printf.Expand`: flag, width, precision and length characters are accepted in any order and number, and flag, length and conversion are not checked against each other. Section 7.21.6.1 of ISO C11 makes such specifications (for example `%l-5d` or `%..hhs`) undefined, where the model prints the argument.
- Strings stand for NUL-free byte strings with one byte per character. `%s` stops at a NUL, and a file or function name with non-ASCII characters takes more bytes than characters. The padding to column 90 counts bytes, so such names get fewer spaces in the program than in the model.
- `Logging.Logger.Emit`: a negative result from `fprintf` (a write error) is not modelled. Such a result would make the padding loop start from a negative count.
- `Logging.Logger.Emit`: `indent_level` is an `int64_t` and the loop counter an `int`. The model uses unbounded integers, so wrap-around past 2^63 nesting levels, or a padding count past `INT_MAX`, is not captured.
- The `assert` calls in `LoggingSetup`, `Log_` and `LogErrorToStr` are not modelled. Without `NDEBUG` they abort on exactly the inputs that the checks after them reject. The model returns the status those checks give, as a build with `NDEBUG` does.
- The branch of `Log_` compiled when `DEBUG` is not defined is not modelled: it logs nothing and returns `kOk`. `logger.cpp` defines `DEBUG` itself.
- `Logging.Logger.LogVariable`: the format argument is taken to be a single conversion specification, and the model uses the corrected macro (see Findings).
- `Logging.Logger.LogError`: the macro replacement of the argument of `LogError` before `STRINGIFY` sees it is not modelled. The argument is given as the tokens after replacement, so `LogError(errno)` is logged with whatever `errno` expands to.
- `TO_STR` is the same macro as `STRINGIFY` and shares its model. `Preprocessor.Stringify` covers spacing between tokens. It does not cover the escaping of `"` and `\` inside string literals, because none of the library's own uses contain them.
- `__FILE__`, `__LINE__` and `__func__` are the fields of a `CallSite` value. The file name that `LoggingDtor` logs is a parameter.
- Concurrency: the globals are not protected against threads, and the model is sequential.

## Findings

| source | as written | input that shows it | evidently intended | confidence | as-written member | corrected member |
|---|---|---|---|---|---|---|
| logger.hpp:36 | `LogVariable` pastes the spelling of the expression into the printf format | `LogVariable("%d", a % b)` builds the format `a % b: %d` plus a newline, where `% b` is an invalid conversion (undefined behaviour) | pass the spelling as an argument: `Log("%s: " format_ "\n", #value_, value_)` | high, not executed | Macros.VariableFormatAsWrittenBreaks | Macros.VariableMessage |
