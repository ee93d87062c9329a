/**
 * The text of one log record as `Log_` writes it (logger.cpp): a header naming
 * the wall-clock time and the call site, spaces up to column 90, the column
 * separator `| `, two spaces per open scope, then the caller's message.
 */
module Record {
  import opened Wrappers
  import opened Printf

  /** The broken-down local time the header shows (`tm_hour`, `tm_min`, `tm_sec`). */
  datatype TimeOfDay = TimeOfDay(hour: nat, minute: nat, second: nat)

  /** The column the separator is aligned to (`kAlignment`). */
  const Alignment := 90
  /** Spaces per indentation level (`kTabWidth`). */
  const TabWidth := 2
  /** The format of the header `fprintf`. */
  const HeaderFormat := "[%d:%d:%d][%s:%s:%d]: "

  /** `n` spaces, none when `n` is not positive. */
  function Spaces(n: int): (s: string)
    ensures |s| == if n > 0 then n else 0
    ensures forall i :: 0 <= i < |s| ==> s[i] == ' '
  {
    seq(if n > 0 then n else 0, _ => ' ')
  }

  lemma SpacesSucc(n: nat)
    ensures Spaces(n) + " " == Spaces(n + 1)
  {
  }

  /** The header fields in the order the header format consumes them. */
  function HeaderArgs(t: TimeOfDay, file: string, func: string, line: nat): seq<string>
  {
    [Decimal(t.hour), Decimal(t.minute), Decimal(t.second), file, func, Decimal(line)]
  }

  /** The header `[h:m:s][file:func:line]: `, with unpadded decimal numbers. */
  function Header(t: TimeOfDay, file: string, func: string, line: nat): (h: string)
    ensures |h| >= 14 + |file| + |func| && h[0] == '[' && h[|h| - 3..] == "]: "
  {
    var fields := "[" + Decimal(t.hour) + ":" + Decimal(t.minute) + ":" + Decimal(t.second)
                  + "][" + file + ":" + func + ":" + Decimal(line);
    assert fields[0] == '[';
    fields + "]: "
  }

  /** The header format as text and conversions: first the time, then the call site. */
  const TimePieces := [Literal("["), Conversion("%d"), Literal(":"), Conversion("%d"), Literal(":"), Conversion("%d")]
  const SitePieces := [Literal("]["), Conversion("%s"), Literal(":"), Conversion("%s"), Literal(":"), Conversion("%d"), Literal("]: ")]

  /** `Header` is what the header `fprintf` prints, whatever the file and function names contain. */
  lemma HeaderIsPrinted(t: TimeOfDay, file: string, func: string, line: nat)
    ensures Expand(HeaderFormat, HeaderArgs(t, file, func, line)) == Some(Header(t, file, func, line))
  {
    var args := HeaderArgs(t, file, func, line);
    HeaderPieces();
    HeaderPiecesPrint(t, file, func, line);
    ExpandPieces(TimePieces + SitePieces, args);
  }

  /** Together the two halves spell the header format, a well-formed format with six conversions. */
  lemma HeaderPieces()
    ensures WellFormed(TimePieces + SitePieces) && Conversions(TimePieces + SitePieces) == 6
    ensures FormatOf(TimePieces + SitePieces) == HeaderFormat
  {
    TimePiecesSpell();
    SitePiecesSpell();
    FormatConcat(TimePieces, SitePieces);
    WellFormedConcat(TimePieces, SitePieces);
    HeaderFormatHalves();
  }

  lemma HeaderFormatHalves()
    ensures "[%d:%d:%d" + "][%s:%s:%d]: " == HeaderFormat
  {
  }

  lemma HeaderPiecesPrint(t: TimeOfDay, file: string, func: string, line: nat)
    ensures var args := HeaderArgs(t, file, func, line);
            Conversions(TimePieces + SitePieces) <= |args| &&
            TextOf(TimePieces + SitePieces, args) == Header(t, file, func, line)
  {
    var args := HeaderArgs(t, file, func, line);
    TimePiecesSpell();
    SitePiecesSpell();
    TextConcat(TimePieces, SitePieces, args);
    TimePiecesPrint(args);
    SitePiecesPrint(args[3..]);
    HeaderText(args[0], args[1], args[2], file, func, args[5]);
  }

  /** The header ends with the call site in brackets, `[file:func:line]: `. */
  lemma HeaderEndsWithSite(t: TimeOfDay, file: string, func: string, line: nat)
    ensures var h := Header(t, file, func, line);
            var site := "[" + file + ":" + func + ":" + Decimal(line) + "]: ";
            |site| <= |h| && h[|h| - |site|..] == site
  {
    var h, m, sec, l := Decimal(t.hour), Decimal(t.minute), Decimal(t.second), Decimal(line);
    var time := "[" + h + ":" + m + ":" + sec + "]";
    var site := "[" + file + ":" + func + ":" + l + "]: ";
    HeaderSplits(h, m, sec, file, func, l);
    assert (time + site)[|time + site| - |site|..] == site;
  }

  lemma HeaderSplits(h: string, m: string, sec: string, file: string, func: string, l: string)
    ensures "[" + h + ":" + m + ":" + sec + "][" + file + ":" + func + ":" + l + "]: "
            == ("[" + h + ":" + m + ":" + sec + "]") + ("[" + file + ":" + func + ":" + l + "]: ")
  {
  }

  /** The nested concatenation the pieces produce is the header, read left to right. */
  lemma HeaderText(h: string, m: string, sec: string, file: string, func: string, l: string)
    ensures "[" + (h + (":" + (m + (":" + (sec + ""))))) + ("][" + (file + (":" + (func + (":" + (l + ("]: " + "")))))))
            == "[" + h + ":" + m + ":" + sec + "][" + file + ":" + func + ":" + l + "]: "
  {
  }

  lemma TimePiecesSpell()
    ensures WellFormed(TimePieces) && Conversions(TimePieces) == 3
    ensures FormatOf(TimePieces) == "[%d:%d:%d"
  {
    var ps := TimePieces;
    assert IsConversionSpec("%d");
    assert FormatOf(ps[5..]) == "%d";
    assert FormatOf(ps[4..]) == ":%d";
    assert FormatOf(ps[3..]) == "%d:%d";
    assert FormatOf(ps[2..]) == ":%d:%d";
    assert FormatOf(ps[1..]) == "%d:%d:%d";
    assert ps == ps[0..];
  }

  lemma SitePiecesSpell()
    ensures WellFormed(SitePieces) && Conversions(SitePieces) == 3
    ensures FormatOf(SitePieces) == "][%s:%s:%d]: "
  {
    SitePiecesWellFormed();
    SitePiecesCount();
    SiteMiddleSpell();
    assert FormatOf(SitePieces) == "][" + "%s:%s:%d]: ";
  }

  lemma SiteMiddleSpell()
    ensures FormatOf(SitePieces[1..]) == "%s:%s:%d]: "
  {
    var ps := SitePieces;
    SiteTailSpell();
    assert FormatOf(ps[2..]) == ":" + "%s:%d]: ";
    assert FormatOf(ps[1..]) == "%s" + ":%s:%d]: ";
  }

  lemma SitePiecesCount()
    ensures Conversions(SitePieces) == 3
  {
    var ps := SitePieces;
    assert Conversions(ps[6..]) == 0;
    assert Conversions(ps[5..]) == 1;
    assert Conversions(ps[4..]) == 1;
    assert Conversions(ps[3..]) == 2;
    assert Conversions(ps[2..]) == 2;
    assert Conversions(ps[1..]) == 3;
  }

  lemma SitePiecesWellFormed()
    ensures WellFormed(SitePieces)
  {
    assert IsConversionSpec("%d") && IsConversionSpec("%s");
  }

  lemma SiteTailSpell()
    ensures FormatOf(SitePieces[3..]) == "%s:%d]: "
  {
    var ps := SitePieces;
    assert FormatOf(ps[6..]) == "]: ";
    assert FormatOf(ps[5..]) == "%d" + "]: ";
    assert FormatOf(ps[4..]) == ":" + "%d]: ";
    assert FormatOf(ps[3..]) == "%s" + ":%d]: ";
  }

  lemma TimePiecesPrint(args: seq<string>)
    requires |args| >= 3
    ensures TextOf(TimePieces, args) == "[" + (args[0] + (":" + (args[1] + (":" + (args[2] + "")))))
  {
    var ps := TimePieces;
    var a0, a1, a2 := args[0], args[1], args[2];
    assert TextOf(ps[6..], args[3..]) == "";
    assert TextOf(ps[5..], args[2..]) == a2 + "";
    assert TextOf(ps[4..], args[2..]) == ":" + (a2 + "");
    assert TextOf(ps[3..], args[1..]) == a1 + (":" + (a2 + ""));
    assert TextOf(ps[2..], args[1..]) == ":" + (a1 + (":" + (a2 + "")));
    assert TextOf(ps[1..], args) == a0 + (":" + (a1 + (":" + (a2 + ""))));
    assert ps == ps[0..];
  }

  lemma SitePiecesPrint(args: seq<string>)
    requires |args| >= 3
    ensures TextOf(SitePieces, args) == "][" + (args[0] + (":" + (args[1] + (":" + (args[2] + ("]: " + ""))))))
  {
    var ps := SitePieces;
    var a0, a1, a2 := args[0], args[1], args[2];
    assert TextOf(ps[7..], args[3..]) == "";
    assert TextOf(ps[6..], args[3..]) == "]: " + "";
    assert TextOf(ps[5..], args[2..]) == a2 + ("]: " + "");
    assert TextOf(ps[4..], args[2..]) == ":" + (a2 + ("]: " + ""));
    assert TextOf(ps[3..], args[1..]) == a1 + (":" + (a2 + ("]: " + "")));
    assert TextOf(ps[2..], args[1..]) == ":" + (a1 + (":" + (a2 + ("]: " + ""))));
    assert TextOf(ps[1..], args) == a0 + (":" + (a1 + (":" + (a2 + ("]: " + "")))));
    assert ps == ps[0..];
  }

  /** One complete record: header, padding to the alignment column, separator, indentation, message. */
  function RecordText(t: TimeOfDay, file: string, func: string, line: nat, depth: int, message: string): (r: string)
    ensures |r| >= Alignment + 2 + |message|
  {
    var header := Header(t, file, func, line);
    header + Spaces(Alignment - |header|) + "| " + Spaces(TabWidth * depth) + message
  }

  function Max(a: int, b: int): int
  {
    if a < b then b else a
  }

  /**
   * The layout of a record, position by position: the header comes first and is
   * never cut short; the separator `| ` starts at column 90, or right after a
   * longer header; `2 * depth` spaces of indentation follow it (none for a
   * depth that is not positive); and the record ends with the message itself,
   * with nothing (in particular no newline) added after it.
   */
  lemma RecordLayout(t: TimeOfDay, file: string, func: string, line: nat, depth: int, message: string)
    ensures var header := Header(t, file, func, line);
            var r := RecordText(t, file, func, line, depth, message);
            var column := Max(Alignment, |header|);
            var indent := Max(0, TabWidth * depth);
            && |r| == column + 2 + indent + |message|
            && r[..|header|] == header
            && (forall i :: |header| <= i < column ==> r[i] == ' ')
            && r[column] == '|' && r[column + 1] == ' '
            && (forall i :: column + 2 <= i < column + 2 + indent ==> r[i] == ' ')
            && r[column + 2 + indent..] == message
  {
    var header := Header(t, file, func, line);
    var pad := Spaces(Alignment - |header|);
    var indent := Spaces(TabWidth * depth);
    var r := RecordText(t, file, func, line, depth, message);
    assert r == header + pad + "| " + indent + message;
    var column := |header| + |pad|;
    assert column == Max(Alignment, |header|);
    assert forall i :: |header| <= i < column ==> r[i] == pad[i - |header|];
    assert forall i :: column + 2 <= i < column + 2 + |indent| ==> r[i] == indent[i - column - 2];
  }

  /** Number of occurrences of `c` in `s`. */
  function Count(c: char, s: string): nat
  {
    if s == [] then 0 else (if s[0] == c then 1 else 0) + Count(c, s[1..])
  }

  lemma {:induction false} CountConcat(c: char, a: string, b: string)
    ensures Count(c, a + b) == Count(c, a) + Count(c, b)
  {
    if a == [] {
      assert a + b == b;
    } else {
      assert (a + b)[0] == a[0];
      assert (a + b)[1..] == a[1..] + b;
      CountConcat(c, a[1..], b);
    }
  }

  lemma {:induction false} CountAbsent(c: char, s: string)
    requires c !in s
    ensures Count(c, s) == 0
  {
    if s != [] {
      assert s == [s[0]] + s[1..];
      CountAbsent(c, s[1..]);
    }
  }

  /**
   * The newlines of a record are exactly those of the file name, the function
   * name and the message: the logger adds no line break of its own.
   */
  lemma RecordNewlines(t: TimeOfDay, file: string, func: string, line: nat, depth: int, message: string)
    ensures Count('\n', RecordText(t, file, func, line, depth, message))
            == Count('\n', file) + Count('\n', func) + Count('\n', message)
  {
    var h, m, sec, l := Decimal(t.hour), Decimal(t.minute), Decimal(t.second), Decimal(line);
    var header := Header(t, file, func, line);
    var pad := Spaces(Alignment - |header|);
    var indent := Spaces(TabWidth * depth);
    CountAbsent('\n', h);
    CountAbsent('\n', m);
    CountAbsent('\n', sec);
    CountAbsent('\n', l);
    CountAbsent('\n', pad);
    CountAbsent('\n', indent);
    CountAbsent('\n', "[");
    CountAbsent('\n', ":");
    CountAbsent('\n', "][");
    CountAbsent('\n', "]: ");
    CountAbsent('\n', "| ");
    // the header, piece by piece from the left
    var p1 := "[" + h;          CountConcat('\n', "[", h);
    var p2 := p1 + ":";         CountConcat('\n', p1, ":");
    var p3 := p2 + m;           CountConcat('\n', p2, m);
    var p4 := p3 + ":";         CountConcat('\n', p3, ":");
    var p5 := p4 + sec;         CountConcat('\n', p4, sec);
    var p6 := p5 + "][";        CountConcat('\n', p5, "][");
    var p7 := p6 + file;        CountConcat('\n', p6, file);
    var p8 := p7 + ":";         CountConcat('\n', p7, ":");
    var p9 := p8 + func;        CountConcat('\n', p8, func);
    var p10 := p9 + ":";        CountConcat('\n', p9, ":");
    var p11 := p10 + l;         CountConcat('\n', p10, l);
    var p12 := p11 + "]: ";     CountConcat('\n', p11, "]: ");
    assert p12 == header;
    // then the rest of the record
    var q1 := header + pad;     CountConcat('\n', header, pad);
    var q2 := q1 + "| ";        CountConcat('\n', q1, "| ");
    var q3 := q2 + indent;      CountConcat('\n', q2, indent);
    var q4 := q3 + message;     CountConcat('\n', q3, message);
    assert q4 == RecordText(t, file, func, line, depth, message);
  }
}
