/**
 * Token kinds and token records of the Lox scanner (app/token.py).
 *
 * `TokenType` is the closed enumeration of lexical categories; `Token` is the
 * immutable record that the scanner appends to its list.  A token prints as
 * `<KIND NAME> <lexeme> <literal>`, where an absent literal prints as `null`.
 */
module Tokens {
  import opened Wrappers

  /** The 39 members of the enumeration, in declaration order. */
  datatype TokenType =
    // single-character tokens
    | LeftParen | RightParen | LeftBrace | RightBrace | Comma | Dot
    | Minus | Plus | Semicolon | Slash | Star
    // one- or two-character tokens
    | Bang | BangEqual | Equal | EqualEqual
    | Greater | GreaterEqual | Less | LessEqual
    // literals
    | Identifier | String | Number
    // keywords
    | And | Class | Else | False | Fun | For | If | Nil | Or
    | Print | Return | Super | This | True | Var | While
    // end of input
    | Eof

  /** Number of members of the enumeration. */
  const TypeCount: nat := 39

  /** The member's `name`, as `__str__` prints it. */
  function Name(t: TokenType): string {
    match t
    case LeftParen => "LEFT_PAREN"
    case RightParen => "RIGHT_PAREN"
    case LeftBrace => "LEFT_BRACE"
    case RightBrace => "RIGHT_BRACE"
    case Comma => "COMMA"
    case Dot => "DOT"
    case Minus => "MINUS"
    case Plus => "PLUS"
    case Semicolon => "SEMICOLON"
    case Slash => "SLASH"
    case Star => "STAR"
    case Bang => "BANG"
    case BangEqual => "BANG_EQUAL"
    case Equal => "EQUAL"
    case EqualEqual => "EQUAL_EQUAL"
    case Greater => "GREATER"
    case GreaterEqual => "GREATER_EQUAL"
    case Less => "LESS"
    case LessEqual => "LESS_EQUAL"
    case Identifier => "IDENTIFIER"
    case String => "STRING"
    case Number => "NUMBER"
    case And => "AND"
    case Class => "CLASS"
    case Else => "ELSE"
    case False => "FALSE"
    case Fun => "FUN"
    case For => "FOR"
    case If => "IF"
    case Nil => "NIL"
    case Or => "OR"
    case Print => "PRINT"
    case Return => "RETURN"
    case Super => "SUPER"
    case This => "THIS"
    case True => "TRUE"
    case Var => "VAR"
    case While => "WHILE"
    case Eof => "EOF"
  }

  /** The member whose `name` is `n`, if any (the inverse of `Name`). */
  function FromName(n: string): Option<TokenType> {
    match n
    case "LEFT_PAREN" => Some(LeftParen)
    case "RIGHT_PAREN" => Some(RightParen)
    case "LEFT_BRACE" => Some(LeftBrace)
    case "RIGHT_BRACE" => Some(RightBrace)
    case "COMMA" => Some(Comma)
    case "DOT" => Some(Dot)
    case "MINUS" => Some(Minus)
    case "PLUS" => Some(Plus)
    case "SEMICOLON" => Some(Semicolon)
    case "SLASH" => Some(Slash)
    case "STAR" => Some(Star)
    case "BANG" => Some(Bang)
    case "BANG_EQUAL" => Some(BangEqual)
    case "EQUAL" => Some(Equal)
    case "EQUAL_EQUAL" => Some(EqualEqual)
    case "GREATER" => Some(Greater)
    case "GREATER_EQUAL" => Some(GreaterEqual)
    case "LESS" => Some(Less)
    case "LESS_EQUAL" => Some(LessEqual)
    case "IDENTIFIER" => Some(Identifier)
    case "STRING" => Some(String)
    case "NUMBER" => Some(Number)
    case "AND" => Some(And)
    case "CLASS" => Some(Class)
    case "ELSE" => Some(Else)
    case "FALSE" => Some(False)
    case "FUN" => Some(Fun)
    case "FOR" => Some(For)
    case "IF" => Some(If)
    case "NIL" => Some(Nil)
    case "OR" => Some(Or)
    case "PRINT" => Some(Print)
    case "RETURN" => Some(Return)
    case "SUPER" => Some(Super)
    case "THIS" => Some(This)
    case "TRUE" => Some(True)
    case "VAR" => Some(Var)
    case "WHILE" => Some(While)
    case "EOF" => Some(Eof)
    case _ => None
  }

  /** Position of a member in declaration order. */
  function Index(t: TokenType): nat {
    match t
    case LeftParen => 0
    case RightParen => 1
    case LeftBrace => 2
    case RightBrace => 3
    case Comma => 4
    case Dot => 5
    case Minus => 6
    case Plus => 7
    case Semicolon => 8
    case Slash => 9
    case Star => 10
    case Bang => 11
    case BangEqual => 12
    case Equal => 13
    case EqualEqual => 14
    case Greater => 15
    case GreaterEqual => 16
    case Less => 17
    case LessEqual => 18
    case Identifier => 19
    case String => 20
    case Number => 21
    case And => 22
    case Class => 23
    case Else => 24
    case False => 25
    case Fun => 26
    case For => 27
    case If => 28
    case Nil => 29
    case Or => 30
    case Print => 31
    case Return => 32
    case Super => 33
    case This => 34
    case True => 35
    case Var => 36
    case While => 37
    case Eof => 38
  }

  /** The member declared at position `i`. */
  function FromIndex(i: nat): TokenType
    requires i < TypeCount
  {
    match i
    case 0 => LeftParen
    case 1 => RightParen
    case 2 => LeftBrace
    case 3 => RightBrace
    case 4 => Comma
    case 5 => Dot
    case 6 => Minus
    case 7 => Plus
    case 8 => Semicolon
    case 9 => Slash
    case 10 => Star
    case 11 => Bang
    case 12 => BangEqual
    case 13 => Equal
    case 14 => EqualEqual
    case 15 => Greater
    case 16 => GreaterEqual
    case 17 => Less
    case 18 => LessEqual
    case 19 => Identifier
    case 20 => String
    case 21 => Number
    case 22 => And
    case 23 => Class
    case 24 => Else
    case 25 => False
    case 26 => Fun
    case 27 => For
    case 28 => If
    case 29 => Nil
    case 30 => Or
    case 31 => Print
    case 32 => Return
    case 33 => Super
    case 34 => This
    case 35 => True
    case 36 => Var
    case 37 => While
    case _ => Eof
  }

  // The five groups of the enumeration, defined by the members they contain.

  predicate IsSingleChar(t: TokenType) {
    t.LeftParen? || t.RightParen? || t.LeftBrace? || t.RightBrace? || t.Comma? || t.Dot?
    || t.Minus? || t.Plus? || t.Semicolon? || t.Slash? || t.Star?
  }

  predicate IsOneOrTwoChar(t: TokenType) {
    t.Bang? || t.BangEqual? || t.Equal? || t.EqualEqual?
    || t.Greater? || t.GreaterEqual? || t.Less? || t.LessEqual?
  }

  predicate IsLiteralKind(t: TokenType) {
    t.Identifier? || t.String? || t.Number?
  }

  predicate IsKeyword(t: TokenType) {
    t.And? || t.Class? || t.Else? || t.False? || t.Fun? || t.For? || t.If? || t.Nil?
    || t.Or? || t.Print? || t.Return? || t.Super? || t.This? || t.True? || t.Var? || t.While?
  }

  /**
   * The enumeration has exactly 39 pairwise distinct members: declaration
   * order is a bijection between the members and 0 .. 38.
   */
  lemma IndexIsBijection()
    ensures forall t :: Index(t) < TypeCount && FromIndex(Index(t)) == t
    ensures forall i: nat :: i < TypeCount ==> Index(FromIndex(i)) == i
  {
  }

  /**
   * The groups of the enumeration are consecutive runs of 11 single-character,
   * 8 one-or-two-character, 3 literal and 16 keyword kinds, then EOF alone.
   */
  lemma GroupsAreIndexRanges(t: TokenType)
    ensures IsSingleChar(t) <==> Index(t) < 11
    ensures IsOneOrTwoChar(t) <==> 11 <= Index(t) < 19
    ensures IsLiteralKind(t) <==> 19 <= Index(t) < 22
    ensures IsKeyword(t) <==> 22 <= Index(t) < 38
    ensures t.Eof? <==> Index(t) == 38
  {
  }

  /** Distinct members have distinct names, and `FromName` recovers them. */
  lemma NameRoundTrip(t: TokenType)
    ensures FromName(Name(t)) == Some(t)
  {
  }

  /** No name contains a space, so a printed token splits back at its spaces. */
  lemma NameHasNoSpace(t: TokenType)
    ensures ' ' !in Name(t)
  {
  }

  /**
   * A token: its kind, the matched text, the literal as it will be printed,
   * and the source line.  The constructor has already replaced an absent
   * literal by the string "null"; a present literal is represented by its
   * printed form.
   */
  datatype Token = Token(tokenType: TokenType, lexeme: string, literal: string, line: int)

  /** `Token(token_type, lexeme, literal, line)`: store the fields, `None` becoming "null". */
  function NewToken(tokenType: TokenType, lexeme: string, literal: Option<string>, line: int): (tok: Token)
    ensures tok.tokenType == tokenType && tok.lexeme == lexeme && tok.line == line
    ensures literal.None? ==> tok.literal == "null"
    ensures literal.Some? ==> tok.literal == literal.value
  {
    Token(tokenType, lexeme, if literal.Some? then literal.value else "null", line)
  }

  /**
   * After construction an absent literal cannot be told apart from the string
   * "null", and any other literal keeps the token distinguishable.
   */
  lemma NullLiteralIsConflated(tokenType: TokenType, lexeme: string, literal: Option<string>, line: int)
    ensures NewToken(tokenType, lexeme, literal, line) == NewToken(tokenType, lexeme, None, line)
        <==> (literal.None? || literal.value == "null")
  {
  }

  /** `str(token)`: kind name, lexeme and literal separated by single spaces. */
  function Render(tok: Token): string {
    Name(tok.tokenType) + " " + tok.lexeme + " " + tok.literal
  }

  /**
   * `repr(token)`: the same text as `str(token)`, from which the kind, lexeme
   * and literal can be read back whenever the lexeme has no space.
   */
  function Repr(tok: Token): (s: string)
    ensures ' ' !in tok.lexeme ==> Unrender(s) == Some((tok.tokenType, tok.lexeme, tok.literal))
  {
    if ' ' !in tok.lexeme then RenderRoundTrip(tok); Render(tok) else Render(tok)
  }

  /** Splits `s` at its first space: the text before it and the text after it. */
  function SplitAtSpace(s: string): Option<(string, string)> {
    if s == [] then None
    else if s[0] == ' ' then Some(([], s[1..]))
    else match SplitAtSpace(s[1..])
      case None => None
      case Some(parts) => Some(([s[0]] + parts.0, parts.1))
  }

  lemma {:induction false} SplitAfterWord(word: string, rest: string)
    requires ' ' !in word
    ensures SplitAtSpace(word + " " + rest) == Some((word, rest))
  {
    if word != [] {
      assert word[0] in word;
      assert (word + " " + rest)[1..] == word[1..] + " " + rest;
      SplitAfterWord(word[1..], rest);
      assert [word[0]] + word[1..] == word;
    }
  }

  /** Reads a printed token line back into kind, lexeme and literal. */
  function Unrender(text: string): Option<(TokenType, string, string)> {
    match SplitAtSpace(text)
    case None => None
    case Some(first) =>
      match FromName(first.0)
      case None => None
      case Some(t) =>
        match SplitAtSpace(first.1)
        case None => None
        case Some(second) => Some((t, second.0, second.1))
  }

  /**
   * A printed token line determines the token's kind, lexeme and literal,
   * provided the lexeme has no space in it.
   */
  lemma {:induction false} RenderRoundTrip(tok: Token)
    requires ' ' !in tok.lexeme
    ensures Unrender(Render(tok)) == Some((tok.tokenType, tok.lexeme, tok.literal))
  {
    NameRoundTrip(tok.tokenType);
    NameHasNoSpace(tok.tokenType);
    var name := Name(tok.tokenType);
    assert Render(tok) == name + " " + (tok.lexeme + " " + tok.literal);
    SplitAfterWord(name, tok.lexeme + " " + tok.literal);
    SplitAfterWord(tok.lexeme, tok.literal);
  }

  /** The end-of-input token the scanner appends prints as `EOF  null`. */
  lemma EofRendering(line: int)
    ensures Render(NewToken(Eof, "", None, line)) == "EOF  null"
  {
  }
}
