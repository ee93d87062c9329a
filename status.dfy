/**
 * The `LoggingStatus` enumeration of logger.hpp and `LogErrorToStr`, which names
 * its values.
 */
module Status {
  import opened Wrappers
  import opened Preprocessor

  /** Outcome of every logger operation; `UninitEnum` is a placeholder that no operation returns. */
  datatype LoggingStatus = Ok | UninitEnum | NullPassed | CantOpenFile | UninitLog | InternalError
  {
    /** The four enumerators that report a failure. */
    predicate IsError()
    {
      NullPassed? || CantOpenFile? || UninitLog? || InternalError?
    }
  }

  /** The integer each enumerator is declared with. */
  function Value(s: LoggingStatus): (v: int)
    ensures -1 <= v <= 4
    ensures (v == -1) == (s == Ok)
    ensures (v > 0) == s.IsError()
  {
    match s
    case Ok => -1
    case UninitEnum => 0
    case NullPassed => 1
    case CantOpenFile => 2
    case UninitLog => 3
    case InternalError => 4
  }

  /** The enumerator a raw value of the enumeration's underlying `int` stands for, if any. */
  function FromValue(v: int): (r: Option<LoggingStatus>)
    ensures r.Some? <==> -1 <= v <= 4
    ensures r.Some? ==> Value(r.value) == v
  {
    if v == -1 then Some(Ok)
    else if v == 0 then Some(UninitEnum)
    else if v == 1 then Some(NullPassed)
    else if v == 2 then Some(CantOpenFile)
    else if v == 3 then Some(UninitLog)
    else if v == 4 then Some(InternalError)
    else None
  }

  /** Every enumerator survives the trip to its integer value and back. */
  lemma ValueRoundTrip(s: LoggingStatus)
    ensures FromValue(Value(s)) == Some(s)
  {
  }

  /** The six enumerators have six distinct values. */
  lemma ValueInjective(a: LoggingStatus, b: LoggingStatus)
    requires Value(a) == Value(b)
    ensures a == b
  {
    ValueRoundTrip(a);
    ValueRoundTrip(b);
  }

  /** The identifier an enumerator is declared under. */
  function Enumerator(s: LoggingStatus): string
  {
    match s
    case Ok => "kOk"
    case UninitEnum => "kUninitEnum"
    case NullPassed => "kNullPassed"
    case CantOpenFile => "kCantOpenFile"
    case UninitLog => "kUninitLog"
    case InternalError => "kInternalError"
  }

  /** The tokens of the qualified name `LoggingStatus::kX` as written inside `STRINGIFY(...)`. */
  function QualifiedTokens(s: LoggingStatus): seq<PPToken>
  {
    [PPToken("LoggingStatus", false), PPToken("::", false), PPToken(Enumerator(s), false)]
  }

  const UnknownName := "<unknown enum value>"

  /**
   * `LogErrorToStr` applied to a `LoggingStatus` whose underlying value is
   * `raw`: a declared enumerator gives its stringified qualified name, any other
   * value the `default` branch's text.
   */
  function LogErrorToStr(raw: int): (name: string)
    ensures FromValue(raw).Some? ==> name == "LoggingStatus::" + Enumerator(FromValue(raw).value)
    ensures FromValue(raw).None? ==> name == UnknownName
  {
    match FromValue(raw)
    case Some(s) =>
      StringifyTight(QualifiedTokens(s));
      assert Spellings(QualifiedTokens(s)) == "LoggingStatus::" + Enumerator(s);
      Stringify(QualifiedTokens(s))
    case None => UnknownName
  }

  /** Distinct enumerators get distinct names, and no enumerator is named like an unknown value. */
  lemma {:induction false} LogErrorToStrInjective(a: int, b: int)
    requires FromValue(a).Some?
    requires LogErrorToStr(a) == LogErrorToStr(b)
    ensures a == b
  {
    var prefix := "LoggingStatus::";
    var na, nb := LogErrorToStr(a), LogErrorToStr(b);
    assert na[0] == 'L';
    if FromValue(b).Some? {
      var sa, sb := FromValue(a).value, FromValue(b).value;
      assert na[|prefix|..] == Enumerator(sa);
      assert nb[|prefix|..] == Enumerator(sb);
      EnumeratorInjective(sa, sb);
    }
  }

  lemma EnumeratorInjective(a: LoggingStatus, b: LoggingStatus)
    requires Enumerator(a) == Enumerator(b)
    ensures a == b
  {
  }
}
