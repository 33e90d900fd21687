/**
 * The Lox scanner (app/scanner.py) as a class whose fields the methods update
 * in place, each method proved against the reference functions of ScanSpec.
 *
 * Printing an error line to standard error is modelled by appending a
 * `Diagnostic` to the `diagnostics` field; `Valid()` ties the `error` flag to
 * that list, so the flag is set exactly when something has been reported.
 */
module Scanning {
  import opened Wrappers
  import opened Tokens
  import opened ScanSpec

  class Scanner {
    const source: string
    var tokens: seq<Token>
    var start: nat
    var current: nat
    var line: int
    var error: bool
    var diagnostics: seq<Diagnostic>

    /** The cursors stay inside the text, the line never moves, the flag records the reports. */
    ghost predicate Valid()
      reads this
    {
      && start <= current <= |source|
      && line == FirstLine
      && (error <==> diagnostics != [])
    }

    constructor (sourceCode: string)
      ensures Valid()
      ensures source == sourceCode && tokens == [] && diagnostics == []
      ensures start == 0 && current == 0 && line == FirstLine && !error
    {
      source := sourceCode;
      tokens := [];
      start := 0;
      current := 0;
      line := FirstLine;
      error := false;
      diagnostics := [];
    }

    /** Reports `message` at the current line with no location annotation. */
    method ErrorMessage(message: string)
      modifies this`error, this`diagnostics
      ensures error
      ensures diagnostics == old(diagnostics) + [Diagnostic(line, "", message)]
    {
      Report(line, "", message);
    }

    /** Records one error report and sets the error flag, which nothing clears. */
    method Report(line: int, where: string, message: string)
      modifies this`error, this`diagnostics
      ensures error
      ensures diagnostics == old(diagnostics) + [Diagnostic(line, where, message)]
    {
      diagnostics := diagnostics + [Diagnostic(line, where, message)];
      error := true;
    }

    method IsAtEnd() returns (atEnd: bool)
      ensures atEnd <==> current >= |source|
    {
      atEnd := current >= |source|;
    }

    /** Consumes the character under the cursor and returns it. */
    method Advance() returns (c: char)
      requires current < |source|
      modifies this`current
      ensures current == old(current) + 1
      ensures c == source[old(current)]
    {
      current := current + 1;
      c := source[current - 1];
    }

    /** Appends a token whose lexeme is the text between the two cursors. */
    method AddToken(tokenType: TokenType, literal: Option<string>)
      requires start <= current <= |source|
      modifies this`tokens
      ensures tokens == old(tokens) + [NewToken(tokenType, source[start..current], literal, line)]
    {
      var text := source[start..current];
      tokens := tokens + [NewToken(tokenType, text, literal, line)];
    }

    /** The character under the cursor, or NUL at the end of the text. */
    method Peek() returns (c: char)
      ensures current < |source| ==> c == source[current]
      ensures current >= |source| ==> c == '\0'
    {
      if current >= |source| {
        return '\0';
      }
      c := source[current];
    }

    /** Consumes the character under the cursor exactly when it is `expected`. */
    method Match(expected: char) returns (matched: bool)
      modifies this`current
      ensures matched <==> NextIs(source, old(current), expected)
      ensures current == if matched then old(current) + 1 else old(current)
    {
      if current >= |source| {
        return false;
      }
      if source[current] != expected {
        return false;
      }
      current := current + 1;
      matched := true;
    }

    /**
     * The shared shape of the `=`, `!`, `<` and `>` cases: the `=`-suffixed
     * kind when the next character is `=` (which is then consumed), the bare
     * kind otherwise.
     */
    method AddOneOrTwo(bare: TokenType, withEqual: TokenType)
      requires start <= current <= |source|
      modifies this`current, this`tokens
      ensures var matched := NextIs(source, old(current), '=');
        && current == (if matched then old(current) + 1 else old(current))
        && tokens == old(tokens) + [NewToken(if matched then withEqual else bare, source[start..current], None, line)]
    {
      var m := Match('=');
      AddToken(if !m then bare else withEqual, None);
    }

    /**
     * The `/` case: a second `/` starts a comment, which is skipped up to the
     * next newline; otherwise the slash is a token of its own.
     */
    method SlashOrComment()
      requires start <= current <= |source|
      modifies this`current, this`tokens
      ensures var comment := NextIs(source, old(current), '/');
        && current == (if comment then CommentEnd(source, old(current) + 1) else old(current))
        && tokens == old(tokens) + (if comment then [] else [NewToken(Slash, source[start..current], None, line)])
    {
      var m := Match('/');
      if m {
        SkipComment();
      } else {
        AddToken(Slash, None);
      }
    }

    /** The comment loop: consumes characters up to the next newline or the end. */
    method SkipComment()
      requires current <= |source|
      modifies this`current
      ensures current == CommentEnd(source, old(current))
    {
      var c := Peek();
      var atEnd := IsAtEnd();
      while c != '\n' && !atEnd
        invariant old(current) <= current <= |source|
        invariant CommentEnd(source, current) == CommentEnd(source, old(current))
        invariant current < |source| ==> c == source[current]
        invariant atEnd <==> current >= |source|
        decreases |source| - current
      {
        var _ := Advance();
        c := Peek();
        atEnd := IsAtEnd();
      }
    }

    /**
     * One call of `scan_token`: consumes the characters of one step of the
     * reference scan and appends its token (lexeme taken from `start`) or
     * its report.  Blank characters fall through to the error case.
     */
    method ScanToken()
      requires Valid() && current < |source|
      modifies this`current, this`tokens, this`error, this`diagnostics
      ensures Valid()
      ensures current == ScanStep(source, old(current)).end
      ensures ScanStep(source, old(current)).action.Emit? ==>
        tokens == old(tokens) + [NewToken(ScanStep(source, old(current)).action.kind, source[start..current], None, line)]
      ensures !ScanStep(source, old(current)).action.Emit? ==> tokens == old(tokens)
      ensures diagnostics == old(diagnostics) + StepDiagnostics(source, old(current), ScanStep(source, old(current)))
    {
      var c := Advance();
      match c {
        case '(' => AddToken(LeftParen, None);
        case ')' => AddToken(RightParen, None);
        case '{' => AddToken(LeftBrace, None);
        case '}' => AddToken(RightBrace, None);
        case ',' => AddToken(Comma, None);
        case '.' => AddToken(Dot, None);
        case '-' => AddToken(Minus, None);
        case '+' => AddToken(Plus, None);
        case ';' => AddToken(Semicolon, None);
        case '*' => AddToken(Star, None);
        case '=' => AddOneOrTwo(Equal, EqualEqual);
        case '!' => AddOneOrTwo(Bang, BangEqual);
        case '<' => AddOneOrTwo(Less, LessEqual);
        case '>' => AddOneOrTwo(Greater, GreaterEqual);
        case '/' => SlashOrComment();
        case _ =>
          // The source's case for space, carriage return and tab is a
          // sequence pattern that a one-character string never matches, so
          // those characters (and the newline) end up here.
          ErrorMessage("Unexpected character: " + [c]);
      }
    }

    /**
     * The main loop of `scan_tokens`: scans from the current offset to the
     * end of the text, then appends the EOF token.
     */
    method ScanTokens()
      requires Valid()
      modifies this`start, this`current, this`tokens, this`error, this`diagnostics
      ensures Valid()
      ensures current == |source|
      ensures tokens == old(tokens) + TokensFrom(source, old(current)) + [EofToken()]
      ensures diagnostics == old(diagnostics) + DiagnosticsFrom(source, old(current))
      ensures error <==> old(error) || DiagnosticsFrom(source, old(current)) != []
      ensures start == FinalStart(source, old(current), old(start))
    {
      var atEnd := IsAtEnd();
      while !atEnd
        invariant Valid()
        invariant atEnd <==> current >= |source|
        invariant tokens + TokensFrom(source, current) == old(tokens) + TokensFrom(source, old(current))
        invariant diagnostics + DiagnosticsFrom(source, current) == old(diagnostics) + DiagnosticsFrom(source, old(current))
        invariant FinalStart(source, current, start) == FinalStart(source, old(current), old(start))
        decreases |source| - current
      {
        start := current;
        ghost var before, tokensBefore, diagnosticsBefore := current, tokens, diagnostics;
        ScanToken();
        LoopTurn(source, before, tokensBefore, tokens, diagnosticsBefore, diagnostics);
        atEnd := IsAtEnd();
      }
      tokens := tokens + [NewToken(Eof, "", None, line)];
    }

    method GetTokens() returns (result: seq<Token>)
      ensures result == tokens
    {
      result := tokens;
    }
  }

  /**
   * Scanning a text with a fresh scanner: the token list is the reference
   * scan and the error flag is set exactly when something was reported.
   */
  method Scan(sourceCode: string) returns (result: seq<Token>, hadError: bool)
    ensures result == ScanAll(sourceCode)
    ensures hadError <==> DiagnosticsFrom(sourceCode, 0) != []
  {
    var scanner := new Scanner(sourceCode);
    scanner.ScanTokens();
    result := scanner.GetTokens();
    hadError := scanner.error;
    assert [] + TokensFrom(sourceCode, 0) == TokensFrom(sourceCode, 0);
  }
}
