/**
 * The `#` operator of the C preprocessor (section 6.10.3.2 of ISO C11), which
 * the `STRINGIFY` and `TO_STR` macros of logger.hpp apply to their argument.
 *
 * A macro argument is a sequence of preprocessing tokens; what matters for `#`
 * is each token's spelling and whether white space preceded it. The result's
 * value is the spellings in order, with a single space wherever the argument
 * had white space between two tokens, and nothing for white space before the
 * first token.
 */
module Preprocessor {

  /** One preprocessing token of a macro argument. */
  datatype PPToken = PPToken(spelling: string, spaceBefore: bool)

  /** The spellings of `tokens` run together, without any separators. */
  function Spellings(tokens: seq<PPToken>): string
  {
    if tokens == [] then "" else tokens[0].spelling + Spellings(tokens[1..])
  }

  /** Number of places where white space separates two tokens of the argument. */
  function Gaps(tokens: seq<PPToken>): nat
  {
    if |tokens| <= 1 then 0
    else (if tokens[1].spaceBefore then 1 else 0) + Gaps(tokens[1..])
  }

  /** The text that the separator and spelling of a non-first token contribute. */
  function Piece(t: PPToken): string
  {
    (if t.spaceBefore then " " else "") + t.spelling
  }

  function Joined(tokens: seq<PPToken>): string
  {
    if tokens == [] then "" else Piece(tokens[0]) + Joined(tokens[1..])
  }

  /** The value of the string literal `#arg`: white space before the first token is dropped. */
  function Stringify(arg: seq<PPToken>): (s: string)
    ensures arg != [] ==> |arg[0].spelling| <= |s| && s[..|arg[0].spelling|] == arg[0].spelling
  {
    if arg == [] then "" else arg[0].spelling + Joined(arg[1..])
  }

  /**
   * Without white space between tokens, `#` yields the spellings run together:
   * for `STRINGIFY(LoggingStatus::kOk)` that is the text `LoggingStatus::kOk`.
   */
  lemma {:induction false} StringifyTight(arg: seq<PPToken>)
    requires forall i :: 1 <= i < |arg| ==> !arg[i].spaceBefore
    ensures Stringify(arg) == Spellings(arg)
  {
    if arg != [] {
      JoinedTight(arg[1..]);
    }
  }

  lemma {:induction false} JoinedTight(tokens: seq<PPToken>)
    requires forall i :: 0 <= i < |tokens| ==> !tokens[i].spaceBefore
    ensures Joined(tokens) == Spellings(tokens)
    decreases tokens
  {
    if tokens != [] {
      JoinedTight(tokens[1..]);
    }
  }

  /**
   * White space before the first token never reaches the result, and the result
   * has exactly one space per gap between tokens.
   */
  lemma {:induction false} StringifyLength(arg: seq<PPToken>)
    ensures |Stringify(arg)| == |Spellings(arg)| + Gaps(arg)
  {
    if arg != [] {
      JoinedGaps(arg[1..]);
    }
  }

  lemma {:induction false} JoinedGaps(tokens: seq<PPToken>)
    ensures |Joined(tokens)| == |Spellings(tokens)| + (if tokens == [] then 0 else (if tokens[0].spaceBefore then 1 else 0) + Gaps(tokens))
    decreases tokens
  {
    if tokens != [] {
      JoinedGaps(tokens[1..]);
    }
  }
}
