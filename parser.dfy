/**
 * The parser (parser/parser.go): a two-token window over the lexer and a list
 * of error messages that only grows.
 *
 * The parser's whole position is the lexer position from which its current
 * token was read (`curFrom`): the current token, the peek token and the lexer
 * cursor all follow from it by `Scan`. The functions `StatementAt` and
 * `ProgramAt` describe, from that position, what `parseStatement` and
 * `ParseProgram` return and where they leave the parser; the class `Parser`
 * keeps the source's fields and is proved against them.
 *
 * The loops that skip to the next `;` never end when no `;` follows, since the
 * lexer then returns EOF for ever. The model therefore requires a `;` ahead of
 * each such loop (`StatementTerminates`, `Closed`).
 */
module Parsing {
  import opened Wrappers
  import opened Tokens
  import opened Lexing
  import opened Ast

  /** The index of the first `;` byte at or after `from`, or `|input|` when there is none. */
  function NextSemicolon(input: seq<Byte>, from: int): (j: int)
    requires 0 <= from
    ensures j <= |input|
    ensures j < |input| ==> from <= j && input[j] == ';'
    ensures forall k | from <= k < j :: input[k] != ';'
    decreases |input| - from
  {
    if from >= |input| then |input|
    else if input[from] == ';' then from
    else NextSemicolon(input, from + 1)
  }

  /**
   * A `;` byte is never swallowed by a longer token: a call that starts at or
   * before it either returns that SEMICOLON or stops at or before it.
   */
  lemma ScanStopsAtSemicolon(input: seq<Byte>, from: int, j: int)
    requires 0 <= from <= j < |input| && input[j] == ';'
    ensures Scan(input, from).token.tokenType == SEMICOLON || Scan(input, from).next <= j
  {
    var start := RunEnd(input, from, IsWhitespace);
    if start < j {
      var ch := CharAt(input, start);
      if IsLetter(ch) && ch != '{' && ch != '}' {
        assert !IsLetter(input[j]);
      } else if IsDigit(ch) {
        assert !IsDigit(input[j]);
      }
    }
  }

  /** Stepping forward without passing the next `;` keeps the same next `;`. */
  lemma NextSemicolonStable(input: seq<Byte>, from: int, q: int)
    requires 0 <= from <= q <= NextSemicolon(input, from) < |input|
    ensures NextSemicolon(input, q) == NextSemicolon(input, from)
  {
  }

  /**
   * The loop `for !p.curTokenIs(token.SEMICOLON) { p.nextToken() }` started with
   * the current token read from `from`: the position of the SEMICOLON it stops on.
   */
  function SkipToSemicolon(input: seq<Byte>, from: int): (r: int)
    requires 0 <= from && NextSemicolon(input, from) < |input|
    ensures from <= r <= NextSemicolon(input, from)
    ensures Scan(input, r).token.tokenType == SEMICOLON
    decreases NextSemicolon(input, from) - from
  {
    if Scan(input, from).token.tokenType == SEMICOLON then from
    else
      ScanStopsAtSemicolon(input, from, NextSemicolon(input, from));
      NextSemicolonStable(input, from, Scan(input, from).next);
      SkipToSemicolon(input, Scan(input, from).next)
  }

  /** One turn of a skip loop that has not yet reached its SEMICOLON. */
  lemma SkipStep(input: seq<Byte>, from: int)
    requires 0 <= from && NextSemicolon(input, from) < |input|
    requires Scan(input, from).token.tokenType != SEMICOLON
    ensures var next := Scan(input, from).next;
            NextSemicolon(input, next) == NextSemicolon(input, from) &&
            SkipToSemicolon(input, next) == SkipToSemicolon(input, from)
  {
    ScanStopsAtSemicolon(input, from, NextSemicolon(input, from));
    NextSemicolonStable(input, from, Scan(input, from).next);
  }

  /** `peekError`'s message. */
  function PeekErrorMessage(expected: TokenType, got: TokenType): (r: string)
    ensures "expected next token to be " + TypeName(expected) + ", got " <= r
    ensures |r| >= |TypeName(got)| + 8 && r[|r| - |TypeName(got)| - 8..] == TypeName(got) + " instead"
    ensures |r| == 26 + |TypeName(expected)| + 6 + |TypeName(got)| + 8
  {
    "expected next token to be " + TypeName(expected) + ", got " + TypeName(got) + " instead"
  }

  /**
   * The skip loop a statement starting at `from` would run has a `;` ahead:
   * after `return`, and after a `let <ident> =` that parses. Every other
   * statement start runs no loop.
   */
  predicate StatementTerminates(input: seq<Byte>, from: int)
    requires 0 <= from
  {
    var t := Scan(input, from);
    match t.token.tokenType
    case RETURN => NextSemicolon(input, t.next) < |input|
    case LET =>
      var ident := Scan(input, t.next);
      var assign := Scan(input, ident.next);
      ident.token.tokenType == IDENT && assign.token.tokenType == ASSIGN ==>
        NextSemicolon(input, ident.next) < |input|
    case _ => true
  }

  /**
   * What one `parseStatement` call returns (`None` is Go's untyped nil), the
   * errors it appends, and the position of the current token it leaves.
   */
  datatype StatementResult = StatementResult(stmt: Option<Statement>, errors: seq<string>, last: int)

  /**
   * How `parseLetStatement` ends, by the two tokens after LET: a `let` named by
   * the IDENT, stopped on or before the first `;` after it, exactly when IDENT
   * then ASSIGN follow; otherwise the typed nil, left on the LET token with the
   * IDENT message, or on the IDENT with the ASSIGN message, each naming the
   * type actually found.
   */
  predicate LetOutcome(input: seq<Byte>, from: int, r: StatementResult)
    requires 0 <= from
  {
    var ident := Scan(input, Scan(input, from).next);
    var assign := Scan(input, ident.next).token;
    (r.stmt == Some(NilLetStatement) <==> ident.token.tokenType != IDENT || assign.tokenType != ASSIGN) &&
    (ident.token.tokenType != IDENT ==>
       r.last == from && r.errors == [PeekErrorMessage(IDENT, ident.token.tokenType)]) &&
    (ident.token.tokenType == IDENT && assign.tokenType != ASSIGN ==>
       r.last == Scan(input, from).next && r.errors == [PeekErrorMessage(ASSIGN, assign.tokenType)]) &&
    (r.stmt != Some(NilLetStatement) ==>
       r.stmt.Some? && r.stmt.value.LetStatement? &&
       r.stmt.value.name == Identifier(ident.token, ident.token.literal) &&
       r.last <= NextSemicolon(input, ident.next))
  }

  /**
   * `parseLetStatement` with the LET token read from `from`: two `expectPeek`
   * calls, then the skip to `;`. A failed `expectPeek` returns the typed nil
   * at once, with one error and without resynchronising.
   */
  function LetAt(input: seq<Byte>, from: int): (r: StatementResult)
    requires 0 <= from && StatementTerminates(input, from)
    requires Scan(input, from).token.tokenType == LET
    ensures r.stmt.Some? && (r.stmt == Some(NilLetStatement) <==> |r.errors| == 1)
    ensures r.stmt == Some(NilLetStatement) ==> r.last == from || r.last == Scan(input, from).next
    ensures r.stmt != Some(NilLetStatement) ==>
              r.stmt.value.LetStatement? && r.errors == [] && Scan(input, from).next < r.last &&
              Scan(input, r.last).token.tokenType == SEMICOLON
  {
    var letToken := Scan(input, from).token;
    var identFrom := Scan(input, from).next;
    var ident := Scan(input, identFrom).token;
    if ident.tokenType != IDENT then
      StatementResult(Some(NilLetStatement), [PeekErrorMessage(IDENT, ident.tokenType)], from)
    else
      var assignFrom := Scan(input, identFrom).next;
      var assign := Scan(input, assignFrom).token;
      if assign.tokenType != ASSIGN then
        StatementResult(Some(NilLetStatement), [PeekErrorMessage(ASSIGN, assign.tokenType)], identFrom)
      else
        StatementResult(Some(LetStatement(letToken, Identifier(ident, ident.literal), None)), [],
                        SkipToSemicolon(input, assignFrom))
  }

  /** `LetAt` ends as `LetOutcome` says. */
  lemma LetAtOutcome(input: seq<Byte>, from: int)
    requires 0 <= from && StatementTerminates(input, from)
    requires Scan(input, from).token.tokenType == LET
    ensures LetOutcome(input, from, LetAt(input, from))
  {
  }

  /** `parseReturnStatement` with the RETURN token read from `from`: one step, then the skip to `;`. */
  function ReturnAt(input: seq<Byte>, from: int): (r: StatementResult)
    requires 0 <= from && StatementTerminates(input, from)
    requires Scan(input, from).token.tokenType == RETURN
    ensures r.stmt.Some? && r.stmt.value.ReturnStatement? && r.errors == []
    ensures from < r.last && Scan(input, r.last).token.tokenType == SEMICOLON
    ensures r.last <= NextSemicolon(input, Scan(input, from).next)
  {
    StatementResult(Some(ReturnStatement(Scan(input, from).token, None)), [],
                    SkipToSemicolon(input, Scan(input, from).next))
  }

  /** `parseStatement` with the current token read from `from`. */
  function StatementAt(input: seq<Byte>, from: int): (r: StatementResult)
    requires 0 <= from && StatementTerminates(input, from)
    ensures from <= r.last
    ensures Scan(input, from).token.tokenType != EOF ==> Scan(input, r.last).token.tokenType != EOF
    ensures r.stmt.None? <==> Scan(input, from).token.tokenType !in {LET, RETURN}
    ensures r.stmt.None? ==> r.last == from
    ensures r.stmt.Some? ==> !r.stmt.value.ExpressionStatement?
    ensures |r.errors| == (if r.stmt == Some(NilLetStatement) then 1 else 0)
    ensures r.stmt.Some? && r.stmt != Some(NilLetStatement) ==> Scan(input, r.last).token.tokenType == SEMICOLON
    ensures r.stmt == Some(NilLetStatement) ==> r.last == from || r.last == Scan(input, from).next
  {
    match Scan(input, from).token.tokenType
    case LET => LetAt(input, from)
    case RETURN => ReturnAt(input, from)
    case _ => StatementResult(None, [], from)
  }

  /**
   * `parseStatement` on a `let` ends as `LetOutcome` says, and on a `return`
   * stops on or before the first `;` after the RETURN token.
   */
  lemma StatementAtCases(input: seq<Byte>, from: int)
    requires 0 <= from && StatementTerminates(input, from)
    ensures Scan(input, from).token.tokenType == LET ==> LetOutcome(input, from, StatementAt(input, from))
    ensures Scan(input, from).token.tokenType == RETURN ==>
              StatementAt(input, from).last <= NextSemicolon(input, Scan(input, from).next)
  {
    if Scan(input, from).token.tokenType == LET {
      LetAtOutcome(input, from);
    }
  }

  /**
   * The `ParseProgram` loop started with the current token read from `from`
   * ends: at each statement start it meets before EOF, the skip loop that
   * statement runs has a `;` ahead.
   */
  predicate Closed(input: seq<Byte>, from: int)
    requires 0 <= from
    decreases |input| + 1 - from
  {
    Scan(input, from).token.tokenType != EOF ==>
      StatementTerminates(input, from) && Closed(input, Scan(input, StatementAt(input, from).last).next)
  }

  /** What `ParseProgram` builds: the statements in source order and the errors it appends. */
  datatype ProgramResult = ProgramResult(statements: seq<Statement>, errors: seq<string>)

  function OptionToSeq<T>(o: Option<T>): seq<T>
  {
    match o
    case Some(x) => [x]
    case None => []
  }

  /**
   * `ParseProgram` with the current token read from `from`: until the current
   * token is EOF, parse one statement, keep it unless it is untyped nil, and step.
   */
  function ProgramAt(input: seq<Byte>, from: int): (r: ProgramResult)
    requires 0 <= from && Closed(input, from)
    ensures from <= |input| ==> |r.statements| <= |input| - from
    ensures |r.errors| <= |r.statements|
    decreases |input| + 1 - from
  {
    if Scan(input, from).token.tokenType == EOF then ProgramResult([], [])
    else
      var s := StatementAt(input, from);
      var rest := ProgramAt(input, Scan(input, s.last).next);
      ProgramResult(OptionToSeq(s.stmt) + rest.statements, s.errors + rest.errors)
  }

  /** One turn of the `ParseProgram` loop, as `ProgramAt` takes it. */
  lemma ProgramAtStep(input: seq<Byte>, from: int)
    requires 0 <= from && Closed(input, from) && Scan(input, from).token.tokenType != EOF
    ensures var s := StatementAt(input, from);
            var next := Scan(input, s.last).next;
            StatementTerminates(input, from) && from < next <= |input| && Closed(input, next) &&
            ProgramAt(input, from) ==
              ProgramResult(OptionToSeq(s.stmt) + ProgramAt(input, next).statements,
                            s.errors + ProgramAt(input, next).errors)
  {
  }

  /** Regrouping a three-way join, stated apart so that `ProgramAtResume` meets it in a small context. */
  lemma JoinAssociates<T>(a: seq<T>, b: seq<T>, c: seq<T>)
    ensures (a + b) + c == a + (b + c)
  {
  }

  /**
   * One turn of the `ParseProgram` loop seen from the method: what has been
   * collected, followed by what the rest of the loop collects, is unchanged
   * by parsing one more statement and stepping.
   */
  lemma ProgramAtResume(input: seq<Byte>, from: int, done: seq<Statement>, errs: seq<string>)
    requires 0 <= from && Closed(input, from) && Scan(input, from).token.tokenType != EOF
    ensures var s := StatementAt(input, from);
            var next := Scan(input, s.last).next;
            StatementTerminates(input, from) && from < next <= |input| && Closed(input, next) &&
            (done + OptionToSeq(s.stmt)) + ProgramAt(input, next).statements
              == done + ProgramAt(input, from).statements &&
            (errs + s.errors) + ProgramAt(input, next).errors == errs + ProgramAt(input, from).errors
  {
    ProgramAtStep(input, from);
    var s := StatementAt(input, from);
    var rest := ProgramAt(input, Scan(input, s.last).next);
    JoinAssociates(done, OptionToSeq(s.stmt), rest.statements);
    JoinAssociates(errs, s.errors, rest.errors);
  }

  /**
   * The forms a parsed statement takes: a `let` with its LET token, an IDENT
   * name whose value is the name's literal and a nil value; a `return` with a
   * nil value; or the typed-nil entry of a failed `let`. Never an expression
   * statement.
   */
  predicate ParsedForm(s: Statement)
  {
    match s
    case LetStatement(token, name, value) =>
      token == Token(LET, "let") && name.token.tokenType == IDENT &&
      name.value == name.token.literal && value.None?
    case ReturnStatement(token, returnValue) =>
      token == Token(RETURN, "return") && returnValue.None?
    case ExpressionStatement(_, _) => false
    case NilLetStatement => true
  }

  /** A LET or RETURN token comes only from the text `let` or `return`. */
  lemma ScanKeyword(input: seq<Byte>, from: int)
    requires 0 <= from
    ensures Scan(input, from).token.tokenType == LET ==> Scan(input, from).token.literal == "let"
    ensures Scan(input, from).token.tokenType == RETURN ==> Scan(input, from).token.literal == "return"
  {
  }

  /** The message of every error `StatementAt` appends: an `expectPeek` for IDENT or ASSIGN that failed. */
  ghost predicate IsPeekError(msg: string)
  {
    exists got: TokenType :: msg == PeekErrorMessage(IDENT, got) || msg == PeekErrorMessage(ASSIGN, got)
  }

  /** One statement: its form, and an error exactly when it is the typed nil of a failed `let`. */
  lemma StatementAtForm(input: seq<Byte>, from: int)
    requires 0 <= from && StatementTerminates(input, from)
    ensures var r := StatementAt(input, from);
            (r.stmt.Some? ==> ParsedForm(r.stmt.value)) &&
            (forall m | m in r.errors :: IsPeekError(m))
  {
    ScanKeyword(input, from);
    var t := Scan(input, from);
    if t.token.tokenType == LET {
      var ident := Scan(input, t.next).token;
      if ident.tokenType != IDENT {
        assert IsPeekError(PeekErrorMessage(IDENT, ident.tokenType));
      } else {
        var assign := Scan(input, Scan(input, t.next).next).token;
        assert IsPeekError(PeekErrorMessage(ASSIGN, assign.tokenType));
      }
    }
  }

  /**
   * Every kept statement has a parsed form, every error is a failed
   * `expectPeek`, and there are exactly as many errors as typed-nil entries.
   */
  ghost predicate WellParsed(r: ProgramResult)
  {
    (forall i | 0 <= i < |r.statements| :: ParsedForm(r.statements[i])) &&
    (forall m | m in r.errors :: IsPeekError(m)) &&
    |r.errors| == multiset(r.statements)[NilLetStatement]
  }

  /** Everything `ParseProgram` builds is `WellParsed`. */
  lemma {:induction false} ProgramAtForm(input: seq<Byte>, from: int)
    requires 0 <= from && Closed(input, from)
    ensures WellParsed(ProgramAt(input, from))
    decreases |input| + 1 - from
  {
    if Scan(input, from).token.tokenType != EOF {
      var s := StatementAt(input, from);
      var next := Scan(input, s.last).next;
      ProgramAtStep(input, from);
      StatementWellParsed(input, from);
      ProgramAtForm(input, next);
      FormsJoin(ProgramResult(OptionToSeq(s.stmt), s.errors), ProgramAt(input, next));
    }
  }

  /** One statement's entry and errors, taken alone, are `WellParsed`. */
  lemma StatementWellParsed(input: seq<Byte>, from: int)
    requires 0 <= from && StatementTerminates(input, from)
    ensures var s := StatementAt(input, from);
            WellParsed(ProgramResult(OptionToSeq(s.stmt), s.errors))
  {
    StatementAtForm(input, from);
    var s := StatementAt(input, from);
    if s.stmt.Some? {
      assert OptionToSeq(s.stmt) == [s.stmt.value];
    }
  }

  /** `WellParsed` survives concatenation. */
  lemma FormsJoin(a: ProgramResult, b: ProgramResult)
    requires WellParsed(a) && WellParsed(b)
    ensures WellParsed(ProgramResult(a.statements + b.statements, a.errors + b.errors))
  {
    assert multiset(a.statements + b.statements) == multiset(a.statements) + multiset(b.statements);
  }

  /** A parse that appends no error holds no typed-nil entry, so the program can be rendered. */
  lemma CleanParseIsRenderable(input: seq<Byte>, from: int)
    requires 0 <= from && Closed(input, from)
    requires ProgramAt(input, from).errors == []
    ensures Renderable(ProgramAt(input, from).statements)
  {
    ProgramAtForm(input, from);
    var stmts := ProgramAt(input, from).statements;
    forall i | 0 <= i < |stmts|
      ensures !stmts[i].NilLetStatement?
    {
      assert stmts[i] in multiset(stmts);
    }
  }

  /** A parsed `let` renders as `let <name> = ` and a parsed `return` as `return ;`. */
  lemma ParsedRendering(s: Statement)
    requires ParsedForm(s) && !s.NilLetStatement?
    ensures s.LetStatement? ==> s.String() == "let " + s.name.value + " = "
    ensures s.ReturnStatement? ==> s.String() == "return ;"
  {
  }

  /**
   * With no `;` byte at or after `from`, no later `NextToken` call ever returns
   * a SEMICOLON: a skip loop started there never ends.
   */
  lemma NoSemicolonAhead(input: seq<Byte>, from: int, n: nat)
    requires 0 <= from && NextSemicolon(input, from) == |input|
    ensures Scan(input, Advance(input, from, n)).token.tokenType != SEMICOLON
  {
  }

  class Parser {
    const l: Lexer
    var errors: seq<string>
    var curToken: Token
    var peekToken: Token
    /** The lexer positions the current and the peek token were read from. */
    ghost var curFrom: int
    ghost var peekFrom: int

    /** The window holds two consecutive lexer tokens, and the lexer stands after the second. */
    ghost predicate Valid()
      reads this, l
    {
      l.Valid() && 0 <= curFrom &&
      Scan(l.input, curFrom) == Lexed(curToken, peekFrom) &&
      Scan(l.input, peekFrom) == Lexed(peekToken, l.position)
    }

    /** `curTokenIs`: a test of the token read from `curFrom`. */
    predicate CurTokenIs(t: TokenType)
      reads this, l
      ensures Valid() ==> (CurTokenIs(t) <==> Scan(l.input, curFrom).token.tokenType == t)
    {
      curToken.tokenType == t
    }

    /** `peekTokenIs`: a test of the token read from `peekFrom`, one call after `curFrom`. */
    predicate PeekTokenIs(t: TokenType)
      reads this, l
      ensures Valid() ==> (PeekTokenIs(t) <==> Scan(l.input, Scan(l.input, curFrom).next).token.tokenType == t)
    {
      peekToken.tokenType == t
    }

    /** `Errors`: the messages collected so far, oldest first. */
    function Errors(): (r: seq<string>)
      reads this
      ensures r == errors
    {
      errors
    }

    /** `New`: no errors; the current and peek tokens are the lexer's next two tokens. */
    constructor (l: Lexer)
      requires l.Valid()
      modifies l
      ensures Valid() && this.l == l && errors == []
      ensures curFrom == old(l.position)
      ensures curToken == Scan(l.input, old(l.position)).token
      ensures peekToken == Scan(l.input, Scan(l.input, old(l.position)).next).token
    {
      ghost var first := l.position;
      var cur := l.NextToken();
      ghost var second := l.position;
      var peek := l.NextToken();
      this.l := l;
      errors := [];
      curToken, peekToken := cur, peek;
      curFrom, peekFrom := first, second;
    }

    /** `nextToken`: shift the window by one lexer token. */
    method NextToken()
      requires Valid()
      modifies this, l
      ensures Valid() && errors == old(errors)
      ensures curToken == old(peekToken) && curFrom == old(peekFrom)
      ensures peekToken == Scan(l.input, old(l.position)).token
    {
      curToken := peekToken;
      curFrom := peekFrom;
      peekFrom := l.position;
      peekToken := l.NextToken();
    }

    /** `peekError`: append one message naming the expected and the actual peek type. */
    method PeekError(t: TokenType)
      modifies this`errors
      ensures errors == old(errors) + [PeekErrorMessage(t, peekToken.tokenType)]
    {
      var msg := PeekErrorMessage(t, peekToken.tokenType);
      errors := errors + [msg];
    }

    /**
     * `expectPeek`: on a match step once and leave the errors alone; otherwise
     * leave the window alone and append one error.
     */
    method ExpectPeek(t: TokenType) returns (ok: bool)
      requires Valid()
      modifies this, l
      ensures Valid() && ok == (old(peekToken).tokenType == t)
      ensures ok ==> curToken == old(peekToken) && curFrom == old(peekFrom) && errors == old(errors)
      ensures !ok ==> curToken == old(curToken) && peekToken == old(peekToken) && curFrom == old(curFrom)
                      && l.position == old(l.position)
                      && errors == old(errors) + [PeekErrorMessage(t, old(peekToken).tokenType)]
    {
      if PeekTokenIs(t) {
        NextToken();
        return true;
      } else {
        PeekError(t);
        return false;
      }
    }

    /**
     * The `for !curTokenIs(SEMICOLON) { nextToken() }` loop that ends both
     * `parseLetStatement` and `parseReturnStatement`: the value expression is
     * not parsed, its tokens are stepped over up to the first SEMICOLON.
     */
    method SkipPastValue()
      requires Valid() && NextSemicolon(l.input, curFrom) < |l.input|
      modifies this, l
      ensures Valid() && errors == old(errors)
      ensures curFrom == SkipToSemicolon(l.input, old(curFrom))
      ensures CurTokenIs(SEMICOLON)
    {
      while !CurTokenIs(SEMICOLON)
        invariant Valid() && errors == old(errors)
        invariant NextSemicolon(l.input, curFrom) < |l.input|
        invariant SkipToSemicolon(l.input, curFrom) == SkipToSemicolon(l.input, old(curFrom))
        decreases NextSemicolon(l.input, curFrom) - curFrom
      {
        SkipStep(l.input, curFrom);
        NextToken();
      }
    }

    /** `parseLetStatement`; the typed nil it returns on failure is `NilLetStatement`. */
    method ParseLetStatement() returns (stmt: Statement)
      requires Valid() && CurTokenIs(LET) && StatementTerminates(l.input, curFrom)
      modifies this, l
      ensures Valid()
      ensures Some(stmt) == LetAt(l.input, old(curFrom)).stmt
      ensures errors == old(errors) + LetAt(l.input, old(curFrom)).errors
      ensures curFrom == LetAt(l.input, old(curFrom)).last
    {
      ghost var r := LetAt(l.input, curFrom);
      var letToken := curToken;
      var ok := ExpectPeek(IDENT);
      if !ok {
        assert r.last == curFrom && r.errors == [PeekErrorMessage(IDENT, peekToken.tokenType)];
        return NilLetStatement;
      }
      var name := Identifier(curToken, curToken.literal);
      ok := ExpectPeek(ASSIGN);
      if !ok {
        assert r.last == curFrom && r.errors == [PeekErrorMessage(ASSIGN, peekToken.tokenType)];
        return NilLetStatement;
      }
      assert r.stmt == Some(LetStatement(letToken, name, None)) && r.errors == [];
      assert r.last == SkipToSemicolon(l.input, curFrom);
      SkipPastValue();
      stmt := LetStatement(letToken, name, None);
    }

    /** `parseReturnStatement`: the value stays nil; everything up to `;` is skipped. */
    method ParseReturnStatement() returns (stmt: Statement)
      requires Valid() && CurTokenIs(RETURN) && StatementTerminates(l.input, curFrom)
      modifies this, l
      ensures Valid()
      ensures Some(stmt) == ReturnAt(l.input, old(curFrom)).stmt
      ensures errors == old(errors)
      ensures curFrom == ReturnAt(l.input, old(curFrom)).last
    {
      var returnToken := curToken;
      NextToken();
      SkipPastValue();
      stmt := ReturnStatement(returnToken, None);
    }

    /** `parseStatement`: only LET and RETURN start a statement; anything else is untyped nil. */
    method ParseStatement() returns (stmt: Option<Statement>)
      requires Valid() && StatementTerminates(l.input, curFrom)
      modifies this, l
      ensures Valid()
      ensures stmt == StatementAt(l.input, old(curFrom)).stmt
      ensures errors == old(errors) + StatementAt(l.input, old(curFrom)).errors
      ensures curFrom == StatementAt(l.input, old(curFrom)).last
    {
      match curToken.tokenType {
        case LET =>
          var s := ParseLetStatement();
          return Some(s);
        case RETURN =>
          var s := ParseReturnStatement();
          return Some(s);
        case _ =>
          return None;
      }
    }

    /**
     * `ParseProgram`: runs until the current token is EOF; the statements and
     * the appended errors are those of `ProgramAt`.
     */
    method ParseProgram() returns (program: Program)
      requires Valid() && Closed(l.input, curFrom)
      modifies this, l
      ensures Valid() && CurTokenIs(EOF)
      ensures program.statements == ProgramAt(l.input, old(curFrom)).statements
      ensures errors == old(errors) + ProgramAt(l.input, old(curFrom)).errors
    {
      program := Program([]);
      ghost var from0 := curFrom;
      ghost var errors0 := errors;
      while !CurTokenIs(EOF)
        invariant Valid() && Closed(l.input, curFrom)
        invariant program.statements + ProgramAt(l.input, curFrom).statements
                  == ProgramAt(l.input, from0).statements
        invariant errors + ProgramAt(l.input, curFrom).errors == errors0 + ProgramAt(l.input, from0).errors
        decreases |l.input| + 1 - curFrom
      {
        ghost var here, done, errorsBefore := curFrom, program.statements, errors;
        ProgramAtResume(l.input, here, done, errorsBefore);
        var stmt := ParseStatement();
        if stmt.Some? {
          program := Program(program.statements + [stmt.value]);
        }
        assert program.statements == done + OptionToSeq(stmt);
        NextToken();
      }
    }
  }
}
