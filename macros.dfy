/**
 * The message texts of the convenience macros of logger.hpp. Each macro hands
 * `Log_` a fixed printf format and its arguments; the lemmas here state what
 * that format prints.
 */
module Macros {
  import opened Wrappers
  import opened Printf
  import opened Preprocessor

  /** Format of `LogFunctionEntry`, whose one argument is the enclosing function's name. */
  const EntryFormat := "%s function entry\n"

  /** Format of `LogError`, whose one argument is the stringified error expression. */
  const ErrorFormat := "Error encountered: %s\n"

  /** A function-entry record's message is the function name, " function entry" and a newline. */
  lemma EntryMessage(func: string)
    ensures Expand(EntryFormat, [func]) == Some(func + " function entry\n")
  {
    var tail := " function entry\n";
    assert IsConversionSpec("%s");
    EntryFormatSplits();
    PlainFormat(tail, []);
    ExpandConversion("%s", tail, func, []);
    assert [func] + [] == [func];
  }

  lemma EntryFormatSplits()
    ensures EntryFormat == "%s" + " function entry\n"
  {
  }

  /**
   * An error record's message is "Error encountered: ", the spelling of the
   * error expression and a newline; a `%` in that spelling is printed as is.
   * The argument of `LogError` is macro-replaced before it reaches `STRINGIFY`,
   * so `error` stands for the tokens after that replacement.
   */
  lemma ErrorMessage(error: seq<PPToken>)
    ensures Expand(ErrorFormat, [Stringify(error)]) == Some("Error encountered: " + Stringify(error) + "\n")
  {
    var name := Stringify(error);
    var lead, tail := "Error encountered: ", "\n";
    assert IsConversionSpec("%s");
    assert ErrorFormat == lead + ("%s" + tail);
    PlainFormat(tail, []);
    ExpandConversion("%s", tail, name, []);
    assert [name] + [] == [name];
    ExpandLiteral(lead, "%s" + tail, [name]);
    assert lead + (name + tail) == lead + name + tail;
  }

  /**
   * The format `LogVariable(format_, value_)` builds as written: the spelling of
   * the expression is pasted into the format string itself, `#value_ ": " format_ "\n"`.
   */
  function VariableFormatAsWritten(format: string, value: seq<PPToken>): (r: string)
    ensures |r| == |Stringify(value)| + 2 + |format| + 1
    ensures r[..|Stringify(value)|] == Stringify(value)
    ensures r[|r| - |format| - 1..] == format + "\n"
  {
    Stringify(value) + ": " + format + "\n"
  }

  /**
   * The format of the corrected macro `Log("%s: " format_ "\n", #value_, value_)`,
   * which passes the spelling as an argument instead.
   */
  function VariableFormat(format: string): string
  {
    "%s: " + format + "\n"
  }

  /**
   * With the corrected format, a variable record's message is the expression's
   * spelling, ": ", the rendered value and a newline, for every expression.
   */
  lemma VariableMessage(format: string, value: seq<PPToken>, rendered: string)
    requires IsConversionSpec(format)
    ensures Expand(VariableFormat(format), [Stringify(value), rendered])
            == Some(Stringify(value) + ": " + rendered + "\n")
  {
    var name := Stringify(value);
    VariableTail(format, rendered);
    assert IsConversionSpec("%s");
    ExpandConversion("%s", ": " + (format + "\n"), name, [rendered]);
    assert [name] + [rendered] == [name, rendered];
    assert "%s" + (": " + (format + "\n")) == VariableFormat(format);
    assert name + (": " + (rendered + "\n")) == name + ": " + rendered + "\n";
  }

  /** What follows the spelling in a variable record: ": ", the rendered value and a newline. */
  lemma VariableTail(format: string, rendered: string)
    requires IsConversionSpec(format)
    ensures Expand(": " + (format + "\n"), [rendered]) == Some(": " + (rendered + "\n"))
  {
    PlainFormat("\n", []);
    ExpandConversion(format, "\n", rendered, []);
    assert [rendered] + [] == [rendered];
    ExpandLiteral(": ", format + "\n", [rendered]);
  }

  /** The macro as written prints the intended message whenever the spelling holds no `%`. */
  lemma VariableFormatAsWrittenAgrees(format: string, value: seq<PPToken>, rendered: string)
    requires IsConversionSpec(format) && '%' !in Stringify(value)
    ensures Expand(VariableFormatAsWritten(format, value), [rendered])
            == Expand(VariableFormat(format), [Stringify(value), rendered])
  {
    var name := Stringify(value);
    VariableMessage(format, value, rendered);
    PlainFormat("\n", []);
    ExpandConversion(format, "\n", rendered, []);
    assert [rendered] + [] == [rendered];
    ExpandLiteral(name + ": ", format + "\n", [rendered]);
    assert name + ": " + (format + "\n") == VariableFormatAsWritten(format, value);
    assert name + ": " + (rendered + "\n") == name + ": " + rendered + "\n";
  }

  /** The tokens of the expression `a % b`. */
  const ModuloExpression := [PPToken("a", false), PPToken("%", true), PPToken("b", true)]

  /**
   * `LogVariable("%d", a % b)` as written: the format becomes `a % b: %d\n`, in
   * which `% b` is a conversion specification with the invalid letter `b`, so
   * the record's message is undefined instead of `a % b: <value>`.
   */
  lemma VariableFormatAsWrittenBreaks(rendered: string)
    ensures Stringify(ModuloExpression) == "a % b"
    ensures VariableFormatAsWritten("%d", ModuloExpression) == "a % b: %d\n"
    ensures Expand(VariableFormatAsWritten("%d", ModuloExpression), [rendered]) == None
  {
    ModuloFormat();
    InvalidConversion([rendered]);
    ExpandLiteral("a ", "% b: %d\n", [rendered]);
  }

  lemma ModuloFormat()
    ensures Stringify(ModuloExpression) == "a % b"
    ensures VariableFormatAsWritten("%d", ModuloExpression) == "a % b: %d\n" == "a " + "% b: %d\n"
  {
    ModuloSpelling();
  }

  lemma ModuloSpelling()
    ensures Stringify(ModuloExpression) == "a % b"
  {
    var ts := ModuloExpression;
    assert Joined(ts[1..][1..][1..]) == "";
    assert Joined(ts[1..][1..]) == " b";
    assert Joined(ts[1..]) == " % b";
  }

  /** `% b` starts a conversion specification with the flag ` ` and the invalid conversion letter `b`. */
  lemma InvalidConversion(args: seq<string>)
    ensures Expand("% b: %d\n", args) == None
  {
    var format := "% b: %d\n";
    assert format[1..][0] == ' ' && IsSpecChar(' ');
    assert format[1..][1] == 'b' && !IsSpecChar('b');
    assert SpecRun(format[1..]) == 1;
    assert !IsConversionChar('b');
  }
}
