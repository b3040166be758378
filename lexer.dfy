/**
 * The lexer (lexer/lexer.go): a cursor over the source bytes that hands out one
 * token per call.
 *
 * `Scan` is the specification of one `NextToken` call: from a cursor position it
 * gives the token and the position the cursor is left at. The class `Lexer`
 * keeps the source's three cursor fields and is proved against `Scan`.
 */
module Lexing {
  import opened Tokens

  /** One byte of source text (a Go string is indexed by byte). */
  type Byte = c: char | c as int < 0x100 witness '\0'

  /** The byte the cursor holds once it has run past the end of the input. */
  const NUL: Byte := '\0'

  /** The byte at index `i`, or NUL past the end: what `readChar` loads into `ch`. */
  function CharAt(input: seq<Byte>, i: int): Byte
    requires 0 <= i
  {
    if i < |input| then input[i] else NUL
  }

  predicate IsWhitespace(ch: Byte)
  {
    ch == ' ' || ch == '\t' || ch == '\n' || ch == '\r'
  }

  /**
   * `isLetter` as the source writes it. The upper-case test reads
   * `'A' <= ch && 'Z' <= ch`, so 'A'..'Y' are not letters and every byte from
   * 'Z' upwards is.
   */
  predicate IsLetter(ch: Byte)
    ensures IsLetter(ch) ==> ch != NUL && ch != ';' && !IsDigit(ch) && !IsWhitespace(ch)
  {
    ('a' <= ch && ch <= 'z') || ('A' <= ch && 'Z' <= ch) || ch == '_'
  }

  /** `isDigit`: the decimal digits, none of which starts any other kind of token. */
  predicate IsDigit(ch: Byte)
    ensures IsDigit(ch) ==> ch != NUL && ch !in "=;(),+{}" && !IsWhitespace(ch)
  {
    '0' <= ch && ch <= '9'
  }

  /**
   * The first position at or after `pos` whose byte is not in the class
   * `inRun`: where a loop `for inRun(l.ch) { l.readChar() }` leaves the cursor.
   * NUL is in none of the classes the lexer scans, so a run never passes the end.
   */
  function RunEnd(input: seq<Byte>, pos: int, inRun: Byte -> bool): (r: int)
    requires 0 <= pos
    requires !inRun(NUL)
    ensures pos <= r
    ensures pos <= |input| ==> r <= |input|
    ensures forall k | pos <= k < r :: k < |input| && inRun(input[k])
    ensures !inRun(CharAt(input, r))
    decreases |input| - pos
  {
    if inRun(CharAt(input, pos)) then RunEnd(input, pos + 1, inRun) else pos
  }

  /** The outcome of one `NextToken` call: the token and the new cursor position. */
  datatype Lexed = Lexed(token: Token, next: int)

  /** `newToken`: a token whose literal is the single byte `ch`. */
  function NewToken(tokenType: TokenType, ch: Byte): (t: Token)
    ensures t.tokenType == tokenType && |t.literal| == 1 && t.literal[0] == ch
  {
    Token(tokenType, [ch])
  }

  /**
   * One `NextToken` call from cursor position `pos`: skip whitespace, then the
   * eight one-byte tokens, EOF on NUL, a greedy identifier or keyword, a greedy
   * integer, or one ILLEGAL byte.
   */
  function Scan(input: seq<Byte>, pos: int): (r: Lexed)
    requires 0 <= pos
    ensures pos < r.next
    ensures pos <= |input| ==> r.next <= |input| + 1
    ensures r.token.tokenType != EOF ==> r.next <= |input| && r.token.literal != []
    ensures r.token.tokenType == EOF ==> r.token.literal == []
  {
    var start := RunEnd(input, pos, IsWhitespace);
    var ch := CharAt(input, start);
    match ch
    case '=' => Lexed(NewToken(ASSIGN, ch), start + 1)
    case ';' => Lexed(NewToken(SEMICOLON, ch), start + 1)
    case '(' => Lexed(NewToken(LPAREN, ch), start + 1)
    case ')' => Lexed(NewToken(RPAREN, ch), start + 1)
    case ',' => Lexed(NewToken(COMMA, ch), start + 1)
    case '+' => Lexed(NewToken(PLUS, ch), start + 1)
    case '{' => Lexed(NewToken(LBRACES, ch), start + 1)
    case '}' => Lexed(NewToken(RBRACES, ch), start + 1)
    case '\0' => Lexed(Token(EOF, ""), start + 1)
    case _ =>
      if IsLetter(ch) then
        var end := RunEnd(input, start, IsLetter);
        var literal := input[start..end];
        Lexed(Token(LookupIdent(literal), literal), end)
      else if IsDigit(ch) then
        var end := RunEnd(input, start, IsDigit);
        Lexed(Token(INT, input[start..end]), end)
      else
        Lexed(NewToken(ILLEGAL, ch), start + 1)
  }

  /** The cursor position after `n` consecutive `NextToken` calls from `pos`. */
  function Advance(input: seq<Byte>, pos: int, n: nat): (p: int)
    requires 0 <= pos
    ensures pos + n <= p
    decreases n
  {
    if n == 0 then pos else Advance(input, Scan(input, pos).next, n - 1)
  }

  /**
   * The tokens of successive `NextToken` calls from `pos` up to and including
   * the first EOF. Every token before it consumes at least one byte, so there are
   * at most one more tokens than bytes left.
   */
  function TokensUntilEof(input: seq<Byte>, pos: int): (ts: seq<Token>)
    requires 0 <= pos
    ensures |ts| >= 1 && ts[|ts| - 1] == Token(EOF, "")
    ensures forall i | 0 <= i < |ts| - 1 :: ts[i].tokenType != EOF
    ensures pos <= |input| ==> |ts| <= |input| - pos + 1
    decreases |input| + 1 - pos
  {
    var r := Scan(input, pos);
    if r.token.tokenType == EOF then [r.token] else [r.token] + TokensUntilEof(input, r.next)
  }

  /** Each of `= ; ( ) , + { }` is its own token with that byte as literal, one byte long. */
  lemma ScanPunctuation(input: seq<Byte>, pos: int)
    requires 0 <= pos
    ensures var start := RunEnd(input, pos, IsWhitespace);
            var ch := CharAt(input, start);
            var r := Scan(input, pos);
            (ch in "=;(),+{}" ==> r.next == start + 1 && r.token.literal == [ch]) &&
            (ch == '=' <==> r.token.tokenType == ASSIGN) &&
            (ch == ';' <==> r.token.tokenType == SEMICOLON) &&
            (ch == '(' <==> r.token.tokenType == LPAREN) &&
            (ch == ')' <==> r.token.tokenType == RPAREN) &&
            (ch == ',' <==> r.token.tokenType == COMMA) &&
            (ch == '+' <==> r.token.tokenType == PLUS) &&
            (ch == '{' <==> r.token.tokenType == LBRACES) &&
            (ch == '}' <==> r.token.tokenType == RBRACES)
  {
  }

  /** A NUL byte, at the end of the input or embedded in it, reads as EOF with an empty literal. */
  lemma ScanNulIsEof(input: seq<Byte>, pos: int)
    requires 0 <= pos
    requires CharAt(input, RunEnd(input, pos, IsWhitespace)) == NUL
    ensures Scan(input, pos) == Lexed(Token(EOF, ""), RunEnd(input, pos, IsWhitespace) + 1)
  {
  }

  /** Once the cursor is past the input, every later call returns EOF again. */
  lemma EofForever(input: seq<Byte>, pos: int, n: nat)
    requires |input| <= pos
    ensures |input| <= Advance(input, pos, n)
    ensures Scan(input, Advance(input, pos, n)).token == Token(EOF, "")
  {
  }

  /**
   * An identifier or keyword is the longest run of letters at the token start;
   * the cursor stops on the byte after the run, and its type is the keyword lookup
   * of the run.
   */
  lemma ScanIdentifier(input: seq<Byte>, pos: int)
    requires 0 <= pos
    requires var ch := CharAt(input, RunEnd(input, pos, IsWhitespace));
             IsLetter(ch) && ch != '{' && ch != '}'
    ensures var start := RunEnd(input, pos, IsWhitespace);
            var r := Scan(input, pos);
            start < r.next <= |input| &&
            r.token.literal == input[start..r.next] &&
            (forall k | start <= k < r.next :: IsLetter(input[k])) &&
            !IsLetter(CharAt(input, r.next)) &&
            r.token.tokenType == LookupIdent(r.token.literal)
  {
  }

  /** An integer is the longest run of decimal digits, kept as text. */
  lemma ScanNumber(input: seq<Byte>, pos: int)
    requires 0 <= pos
    requires IsDigit(CharAt(input, RunEnd(input, pos, IsWhitespace)))
    ensures var start := RunEnd(input, pos, IsWhitespace);
            var r := Scan(input, pos);
            start < r.next <= |input| &&
            r.token == Token(INT, input[start..r.next]) &&
            (forall k | start <= k < r.next :: IsDigit(input[k])) &&
            !IsDigit(CharAt(input, r.next))
  {
  }

  /**
   * Every other byte is one ILLEGAL token of that byte. Such a byte is below
   * 'Z', hence ASCII, so Go's `string(ch)` is that one byte.
   */
  lemma ScanIllegal(input: seq<Byte>, pos: int)
    requires 0 <= pos
    requires var ch := CharAt(input, RunEnd(input, pos, IsWhitespace));
             ch !in "=;(),+{}" && ch != NUL && !IsLetter(ch) && !IsDigit(ch)
    ensures var start := RunEnd(input, pos, IsWhitespace);
            var ch := CharAt(input, start);
            Scan(input, pos) == Lexed(Token(ILLEGAL, [ch]), start + 1) && ch < 'Z'
  {
  }

  /**
   * The reversed bound of `isLetter`: 'A'..'Y' are not letters, while 'Z' and
   * every byte above it (`[`, `|`, `~`, bytes from 0x80) are.
   */
  lemma IsLetterAsWritten(ch: Byte)
    ensures IsLetter(ch) <==> ('a' <= ch && ch <= 'z') || ch == '_' || 'Z' <= ch
    ensures 'A' <= ch < 'Z' ==> !IsLetter(ch)
  {
  }

  /** An upper-case letter other than 'Z' at a token start is an ILLEGAL token. */
  lemma UpperCaseIsIllegal(input: seq<Byte>, pos: int)
    requires 0 <= pos
    requires var ch := CharAt(input, RunEnd(input, pos, IsWhitespace)); 'A' <= ch < 'Z'
    ensures var start := RunEnd(input, pos, IsWhitespace);
            Scan(input, pos) == Lexed(Token(ILLEGAL, [input[start]]), start + 1)
  {
  }

  /** `Abc` lexes as ILLEGAL `A` followed by the identifier `bc`. */
  lemma CapitalisedWord()
    ensures Scan("Abc", 0) == Lexed(Token(ILLEGAL, "A"), 1)
    ensures Scan("Abc", 1) == Lexed(Token(IDENT, "bc"), 3)
  {
    var input: seq<Byte> := "Abc";
    assert RunEnd(input, 0, IsWhitespace) == 0;
    assert RunEnd(input, 1, IsWhitespace) == 1;
    assert RunEnd(input, 1, IsLetter) == 3 by {
      assert RunEnd(input, 3, IsLetter) == 3;
      assert RunEnd(input, 2, IsLetter) == 3;
    }
    assert input[1..3] == "bc";
  }

  /** Braces start their own tokens, but inside an identifier they are letters: `a{b}` is one identifier. */
  lemma BracesInsideIdentifier()
    ensures Scan("a{b}", 0) == Lexed(Token(IDENT, "a{b}"), 4)
    ensures Scan("{b}", 0) == Lexed(Token(LBRACES, "{"), 1)
  {
    var input: seq<Byte> := "a{b}";
    assert RunEnd(input, 0, IsWhitespace) == 0;
    assert RunEnd(input, 0, IsLetter) == 4 by {
      assert RunEnd(input, 4, IsLetter) == 4;
      assert RunEnd(input, 3, IsLetter) == 4;
      assert RunEnd(input, 2, IsLetter) == 4;
      assert RunEnd(input, 1, IsLetter) == 4;
    }
    assert input[0..4] == "a{b}";
    var braces: seq<Byte> := "{b}";
    assert RunEnd(braces, 0, IsWhitespace) == 0;
  }

  class Lexer {
    const input: seq<Byte>
    var position: int
    var readPosition: int
    var ch: Byte

    /** The cursor invariant: `readPosition` is one ahead and `ch` is the byte at `position`. */
    ghost predicate Valid()
      reads this
    {
      0 <= position && readPosition == position + 1 && ch == CharAt(input, position)
    }

    /** `New`: a cursor on the first byte. */
    constructor (input: seq<Byte>)
      ensures Valid() && this.input == input && position == 0
    {
      this.input := input;
      position, readPosition, ch := 0, 0, NUL;
      new;
      ReadChar();
    }

    /** `readChar`: load the byte at `readPosition` (NUL past the end) and step forward. */
    method ReadChar()
      requires 0 <= readPosition
      modifies this
      ensures position == old(readPosition) && readPosition == position + 1
      ensures ch == CharAt(input, position)
    {
      if readPosition >= |input| {
        ch := NUL;
      } else {
        ch := input[readPosition];
      }
      position := readPosition;
      readPosition := readPosition + 1;
    }

    /** `skipWhitespace`: advance over space, tab, newline and carriage return. */
    method SkipWhitespace()
      requires Valid()
      modifies this
      ensures Valid() && position == RunEnd(input, old(position), IsWhitespace)
    {
      while IsWhitespace(ch)
        invariant Valid()
        invariant RunEnd(input, position, IsWhitespace) == RunEnd(input, old(position), IsWhitespace)
        decreases |input| - position
      {
        ReadChar();
      }
    }

    /** `readIdentifier`: consume the run of letters and return it. */
    method ReadIdentifier() returns (literal: string)
      requires Valid() && position <= |input|
      modifies this
      ensures Valid() && position == RunEnd(input, old(position), IsLetter)
      ensures literal == input[old(position)..position]
    {
      var start := position;
      while IsLetter(ch)
        invariant Valid() && start <= position <= |input|
        invariant RunEnd(input, position, IsLetter) == RunEnd(input, start, IsLetter)
        decreases |input| - position
      {
        ReadChar();
      }
      literal := input[start..position];
    }

    /** `readNumber`: consume the run of decimal digits and return it, unconverted. */
    method ReadNumber() returns (literal: string)
      requires Valid() && position <= |input|
      modifies this
      ensures Valid() && position == RunEnd(input, old(position), IsDigit)
      ensures literal == input[old(position)..position]
    {
      var start := position;
      while IsDigit(ch)
        invariant Valid() && start <= position <= |input|
        invariant RunEnd(input, position, IsDigit) == RunEnd(input, start, IsDigit)
        decreases |input| - position
      {
        ReadChar();
      }
      literal := input[start..position];
    }

    /** `NextToken`: one call does exactly what `Scan` describes. */
    method NextToken() returns (tok: Token)
      requires Valid()
      modifies this
      ensures Valid() && Scan(input, old(position)) == Lexed(tok, position)
    {
      SkipWhitespace();
      ghost var start := position;
      match ch {
        case '=' => tok := NewToken(ASSIGN, ch);
        case ';' => tok := NewToken(SEMICOLON, ch);
        case '(' => tok := NewToken(LPAREN, ch);
        case ')' => tok := NewToken(RPAREN, ch);
        case ',' => tok := NewToken(COMMA, ch);
        case '+' => tok := NewToken(PLUS, ch);
        case '{' => tok := NewToken(LBRACES, ch);
        case '}' => tok := NewToken(RBRACES, ch);
        case '\0' => tok := Token(EOF, "");
        case _ =>
          if IsLetter(ch) {
            var literal := ReadIdentifier();
            tok := Token(LookupIdent(literal), literal);
            return;
          } else if IsDigit(ch) {
            var literal := ReadNumber();
            tok := Token(INT, literal);
            return;
          } else {
            tok := NewToken(ILLEGAL, ch);
          }
      }
      ReadChar();
    }
  }
}
