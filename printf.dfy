/**
 * The part of the C library's formatted output (section 7.21.6.1 of ISO C11)
 * that the logger depends on: how `fprintf`/`vfprintf` expand a format string.
 *
 * Arguments are given as the text each conversion renders them to (the digits
 * of an `int` under `%d`, the characters of a string under `%s`, ...), so only
 * the format's own structure is modelled: ordinary characters are copied, `%%`
 * gives `%`, and a conversion specification consumes the next argument. A
 * format whose expansion C leaves undefined (a stray or unfinished `%`, an
 * invalid conversion letter, too few arguments) expands to `None`.
 */
module Printf {
  import opened Wrappers

  /** Flags, field width, precision and length modifiers that may stand between `%` and the conversion letter. */
  predicate IsSpecChar(c: char)
  {
    c in {'-', '+', ' ', '#', '0', '1', '2', '3', '4', '5', '6', '7', '8', '9', '.', 'h', 'l', 'j', 'z', 't', 'L'}
  }

  /** Conversion letters whose output is the rendered text of one argument. */
  predicate IsConversionChar(c: char)
  {
    c in {'d', 'i', 'o', 'u', 'x', 'X', 'f', 'F', 'e', 'E', 'g', 'G', 'a', 'A', 'c', 's', 'p'}
  }

  /** A complete conversion specification such as `%d`, `%5s` or `%lu`. */
  predicate IsConversionSpec(spec: string)
  {
    && |spec| >= 2
    && spec[0] == '%'
    && IsConversionChar(spec[|spec| - 1])
    && forall i :: 1 <= i < |spec| - 1 ==> IsSpecChar(spec[i])
  }

  /** Length of the longest prefix of `s` made of flag, width, precision and length characters. */
  function SpecRun(s: string): (n: nat)
    ensures n <= |s|
    ensures forall i :: 0 <= i < n ==> IsSpecChar(s[i])
    ensures n < |s| ==> !IsSpecChar(s[n])
  {
    if s != [] && IsSpecChar(s[0]) then 1 + SpecRun(s[1..]) else 0
  }

  function Prepend(prefix: string, r: Option<string>): Option<string>
  {
    match r
    case None => None
    case Some(text) => Some(prefix + text)
  }

  /** The text that printing `format` with the rendered `args` produces; arguments left over are ignored, as in C. */
  function Expand(format: string, args: seq<string>): (r: Option<string>)
    ensures r.None? ==> '%' in format
    decreases |format|
  {
    if format == [] then Some("")
    else if format[0] != '%' then Prepend([format[0]], Expand(format[1..], args))
    else if |format| >= 2 && format[1] == '%' then Prepend("%", Expand(format[2..], args))
    else
      var n := 1 + SpecRun(format[1..]);
      if n < |format| && IsConversionChar(format[n]) && args != [] then
        Prepend(args[0], Expand(format[n + 1..], args[1..]))
      else
        None
  }

  /** Text without `%` is copied through unchanged, whatever the arguments. */
  lemma {:induction false} ExpandLiteral(lit: string, rest: string, args: seq<string>)
    requires '%' !in lit
    ensures Expand(lit + rest, args) == Prepend(lit, Expand(rest, args))
    decreases |lit|
  {
    if lit == [] {
      assert lit + rest == rest;
      match Expand(rest, args)
      case None =>
      case Some(text) => assert lit + text == text;
    } else {
      assert lit[0] in lit;
      assert (lit + rest)[0] == lit[0];
      assert (lit + rest)[1..] == lit[1..] + rest;
      ExpandLiteral(lit[1..], rest, args);
      match Expand(rest, args)
      case None =>
      case Some(text) => assert [lit[0]] + (lit[1..] + text) == lit + text;
    }
  }

  /** A format with no `%` at all prints as itself. */
  lemma PlainFormat(lit: string, args: seq<string>)
    requires '%' !in lit
    ensures Expand(lit, args) == Some(lit)
  {
    ExpandLiteral(lit, "", args);
    assert lit + "" == lit;
  }

  /** A conversion specification prints its argument and hands the remaining ones on. */
  lemma ExpandConversion(spec: string, rest: string, arg: string, more: seq<string>)
    requires IsConversionSpec(spec)
    ensures Expand(spec + rest, [arg] + more) == Prepend(arg, Expand(rest, more))
  {
    var format := spec + rest;
    var k := |spec| - 1;
    assert format[0] == '%';
    assert format[1] != '%' by {
      assert format[1] == spec[1];
      if k == 1 {
        assert IsConversionChar(spec[1]);
      } else {
        assert IsSpecChar(spec[1]);
      }
    }
    var run := SpecRun(format[1..]);
    assert format[1..][k - 1] == spec[k];
    assert !IsSpecChar(spec[k]);
    assert run == k - 1;
    assert format[k + 1..] == rest;
  }

  /** A format string seen as the ordinary text and conversion specifications it is made of. */
  datatype Piece = Literal(text: string) | Conversion(spec: string)

  predicate WellFormed(pieces: seq<Piece>)
  {
    forall i :: 0 <= i < |pieces| ==>
      match pieces[i]
      case Literal(text) => '%' !in text
      case Conversion(spec) => IsConversionSpec(spec)
  }

  /** The format string the pieces spell. */
  function FormatOf(pieces: seq<Piece>): string
  {
    if pieces == [] then ""
    else
      match pieces[0]
      case Literal(text) => text + FormatOf(pieces[1..])
      case Conversion(spec) => spec + FormatOf(pieces[1..])
  }

  /** Number of arguments the pieces consume. */
  function Conversions(pieces: seq<Piece>): nat
  {
    if pieces == [] then 0
    else (if pieces[0].Conversion? then 1 else 0) + Conversions(pieces[1..])
  }

  /** The intended output: each literal as written, each conversion replaced by its argument. */
  function TextOf(pieces: seq<Piece>, args: seq<string>): string
  {
    if pieces == [] then ""
    else
      match pieces[0]
      case Literal(text) => text + TextOf(pieces[1..], args)
      case Conversion(_) =>
        if args == [] then TextOf(pieces[1..], []) else args[0] + TextOf(pieces[1..], args[1..])
  }

  lemma {:induction false} FormatConcat(a: seq<Piece>, b: seq<Piece>)
    ensures FormatOf(a + b) == FormatOf(a) + FormatOf(b)
    ensures Conversions(a + b) == Conversions(a) + Conversions(b)
  {
    ConversionsConcat(a, b);
    if a == [] {
      assert a + b == b;
    } else {
      assert (a + b)[0] == a[0];
      assert (a + b)[1..] == a[1..] + b;
      FormatConcat(a[1..], b);
    }
  }

  lemma {:induction false} ConversionsConcat(a: seq<Piece>, b: seq<Piece>)
    ensures Conversions(a + b) == Conversions(a) + Conversions(b)
  {
    if a == [] {
      assert a + b == b;
    } else {
      assert (a + b)[0] == a[0];
      assert (a + b)[1..] == a[1..] + b;
      ConversionsConcat(a[1..], b);
    }
  }

  lemma WellFormedConcat(a: seq<Piece>, b: seq<Piece>)
    requires WellFormed(a) && WellFormed(b)
    ensures WellFormed(a + b)
  {
    forall i | 0 <= i < |a + b| ensures (a + b)[i] == if i < |a| then a[i] else b[i - |a|] { }
  }

  lemma {:induction false} TextConcat(a: seq<Piece>, b: seq<Piece>, args: seq<string>)
    requires Conversions(a) + Conversions(b) <= |args|
    ensures Conversions(a + b) <= |args|
    ensures TextOf(a + b, args) == TextOf(a, args) + TextOf(b, args[Conversions(a)..])
  {
    ConversionsConcat(a, b);
    if a == [] {
      assert a + b == b;
      assert args[0..] == args;
    } else {
      var rest := a[1..];
      assert (a + b)[0] == a[0];
      assert (a + b)[1..] == rest + b;
      match a[0]
      case Conversion(_) =>
        assert Conversions(a) == 1 + Conversions(rest) && args != [];
        calc {
          TextOf(a + b, args);
          args[0] + TextOf(rest + b, args[1..]);
          { TextConcat(rest, b, args[1..]); }
          args[0] + (TextOf(rest, args[1..]) + TextOf(b, args[1..][Conversions(rest)..]));
          { assert args[1..][Conversions(rest)..] == args[Conversions(a)..]; }
          (args[0] + TextOf(rest, args[1..])) + TextOf(b, args[Conversions(a)..]);
        }
      case Literal(text) =>
        assert Conversions(a) == Conversions(rest);
        calc {
          TextOf(a + b, args);
          text + TextOf(rest + b, args);
          { TextConcat(rest, b, args); }
          text + (TextOf(rest, args) + TextOf(b, args[Conversions(rest)..]));
          (text + TextOf(rest, args)) + TextOf(b, args[Conversions(a)..]);
        }
    }
  }

  /** A well-formed format with enough arguments prints exactly its intended output. */
  lemma {:induction false} ExpandPieces(pieces: seq<Piece>, args: seq<string>)
    requires WellFormed(pieces) && Conversions(pieces) <= |args|
    ensures Expand(FormatOf(pieces), args) == Some(TextOf(pieces, args))
  {
    if pieces == [] {
    } else {
      assert WellFormed(pieces[1..]) by {
        forall i | 0 <= i < |pieces[1..]| ensures pieces[1..][i] == pieces[i + 1] { }
      }
      match pieces[0]
      case Literal(text) =>
        assert '%' !in text by { assert pieces[0] == pieces[0]; }
        ExpandPieces(pieces[1..], args);
        ExpandLiteral(text, FormatOf(pieces[1..]), args);
      case Conversion(spec) =>
        assert IsConversionSpec(spec) by { assert pieces[0] == pieces[0]; }
        ExpandPieces(pieces[1..], args[1..]);
        assert args == [args[0]] + args[1..];
        ExpandConversion(spec, FormatOf(pieces[1..]), args[0], args[1..]);
    }
  }

  // ---------------------------------------------------------------------------
  // `%d` of a non-negative int: unpadded decimal digits

  predicate IsDigit(c: char)
  {
    '0' <= c <= '9'
  }

  function DigitChar(d: nat): (c: char)
    requires d < 10
    ensures IsDigit(c)
  {
    ('0' as int + d) as char
  }

  function DigitValue(c: char): (d: nat)
    requires IsDigit(c)
    ensures d < 10
  {
    c as int - '0' as int
  }

  /** What `%d` prints for `n`: its decimal digits, with no sign and no leading zero. */
  function Decimal(n: nat): (r: string)
    ensures |r| >= 1
    ensures forall i :: 0 <= i < |r| ==> IsDigit(r[i])
    ensures (r[0] == '0') == (n == 0)
    ensures n == 0 ==> r == "0"
    decreases n
  {
    if n < 10 then [DigitChar(n)] else Decimal(n / 10) + [DigitChar(n % 10)]
  }

  /** The number a string of decimal digits denotes. */
  function DecimalValue(s: string): nat
    requires forall i :: 0 <= i < |s| ==> IsDigit(s[i])
    decreases |s|
  {
    if s == [] then 0 else 10 * DecimalValue(s[..|s| - 1]) + DigitValue(s[|s| - 1])
  }

  /** Reading back the digits `%d` printed gives the number printed. */
  lemma {:induction false} DecimalRoundTrip(n: nat)
    ensures DecimalValue(Decimal(n)) == n
    decreases n
  {
    var r := Decimal(n);
    if n >= 10 {
      DecimalRoundTrip(n / 10);
      assert r[..|r| - 1] == Decimal(n / 10);
    }
  }

  /** Distinct numbers print differently. */
  lemma DecimalInjective(a: nat, b: nat)
    requires Decimal(a) == Decimal(b)
    ensures a == b
  {
    DecimalRoundTrip(a);
    DecimalRoundTrip(b);
  }
}
