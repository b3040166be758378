/**
 * What the model gives for small whole programs: the lexer's token stream,
 * a `let` that parses, a `let` whose `=` is missing, and a `return` with no `;`.
 */
module Scenarios {
  import opened Wrappers
  import opened Tokens
  import opened Lexing
  import opened Ast
  import opened Parsing

  const LetX: seq<Byte> := "let x = 5;"

  /** The cursor steps through `let x = 5;` token by token. */
  lemma LetXScans()
    ensures Scan(LetX, 0) == Lexed(Token(LET, "let"), 3)
    ensures Scan(LetX, 3) == Lexed(Token(IDENT, "x"), 5)
    ensures Scan(LetX, 5) == Lexed(Token(ASSIGN, "="), 7)
    ensures Scan(LetX, 7) == Lexed(Token(INT, "5"), 9)
    ensures Scan(LetX, 9) == Lexed(Token(SEMICOLON, ";"), 10)
    ensures Scan(LetX, 10) == Lexed(Token(EOF, ""), 11)
  {
    LetXScanAt0();
    LetXScanAt3();
    LetXScanAt5();
    LetXScanAt7();
    LetXScanAt9();
    LetXScanAt10();
  }

  lemma LetXScanAt0()
    ensures Scan(LetX, 0) == Lexed(Token(LET, "let"), 3)
  {
    assert RunEnd(LetX, 0, IsWhitespace) == 0;
    assert RunEnd(LetX, 0, IsLetter) == 3;
    assert LetX[0..3] == "let";
  }

  lemma LetXScanAt3()
    ensures Scan(LetX, 3) == Lexed(Token(IDENT, "x"), 5)
  {
    assert RunEnd(LetX, 3, IsWhitespace) == 4;
    assert RunEnd(LetX, 4, IsLetter) == 5;
    assert LetX[4..5] == "x";
  }

  lemma LetXScanAt5()
    ensures Scan(LetX, 5) == Lexed(Token(ASSIGN, "="), 7)
  {
    assert RunEnd(LetX, 5, IsWhitespace) == 6;
  }

  lemma LetXScanAt7()
    ensures Scan(LetX, 7) == Lexed(Token(INT, "5"), 9)
  {
    assert RunEnd(LetX, 7, IsWhitespace) == 8;
    assert RunEnd(LetX, 8, IsDigit) == 9;
    assert LetX[8..9] == "5";
  }

  lemma LetXScanAt9()
    ensures Scan(LetX, 9) == Lexed(Token(SEMICOLON, ";"), 10)
  {
    assert RunEnd(LetX, 9, IsWhitespace) == 9;
  }

  lemma LetXScanAt10()
    ensures Scan(LetX, 10) == Lexed(Token(EOF, ""), 11)
  {
    assert RunEnd(LetX, 10, IsWhitespace) == 10;
  }

  /** The lexer's whole stream for `let x = 5;`. */
  lemma LetXTokens()
    ensures TokensUntilEof(LetX, 0) ==
      [Token(LET, "let"), Token(IDENT, "x"), Token(ASSIGN, "="), Token(INT, "5"),
       Token(SEMICOLON, ";"), Token(EOF, "")]
  {
    LetXScans();
    assert TokensUntilEof(LetX, 10) == [Token(EOF, "")];
    assert TokensUntilEof(LetX, 9) == [Token(SEMICOLON, ";"), Token(EOF, "")];
    assert TokensUntilEof(LetX, 7) == [Token(INT, "5"), Token(SEMICOLON, ";"), Token(EOF, "")];
    assert TokensUntilEof(LetX, 5) ==
      [Token(ASSIGN, "="), Token(INT, "5"), Token(SEMICOLON, ";"), Token(EOF, "")];
    assert TokensUntilEof(LetX, 3) ==
      [Token(IDENT, "x"), Token(ASSIGN, "="), Token(INT, "5"), Token(SEMICOLON, ";"), Token(EOF, "")];
  }

  /** `let x = 5;` gives one `let` statement named `x` with a nil value, and no error. */
  lemma LetXParses()
    ensures Closed(LetX, 0)
    ensures ProgramAt(LetX, 0) ==
      ProgramResult([LetStatement(Token(LET, "let"), Identifier(Token(IDENT, "x"), "x"), None)], [])
  {
    LetXScans();
    assert SkipToSemicolon(LetX, 5) == 9;
    assert Closed(LetX, 9);
    assert Closed(LetX, 0);
    assert StatementAt(LetX, 0).last == 9;
  }

  const MissingAssign: seq<Byte> := "let x 5;"

  /**
   * `let x 5;` appends exactly one error naming the missing `=`, and the typed
   * nil of the failed `let` is still kept as an entry.
   */
  lemma MissingAssignParses()
    ensures Closed(MissingAssign, 0)
    ensures ProgramAt(MissingAssign, 0) ==
      ProgramResult([NilLetStatement], ["expected next token to be =, got INT instead"])
  {
    MissingAssignClosed();
    MissingAssignMessage();
    MissingAssignTail();
    MissingAssignFirst();
    ProgramAtStep(MissingAssign, 0);
  }

  /** The `let` fails at its second `expectPeek`, leaving the cursor on `x`. */
  lemma MissingAssignFirst()
    ensures Scan(MissingAssign, 0).token.tokenType == LET && Scan(MissingAssign, 3).next == 5
    ensures StatementTerminates(MissingAssign, 0)
    ensures StatementAt(MissingAssign, 0) ==
      StatementResult(Some(NilLetStatement), [PeekErrorMessage(ASSIGN, INT)], 3)
  {
    MissingAssignScanAt0();
    MissingAssignScanAt3();
    MissingAssignScanAt5();
  }

  /** After the failed `let`, the cursor sits on `5`; the INT and the `;` start no statement. */
  lemma MissingAssignTail()
    ensures Closed(MissingAssign, 5)
    ensures ProgramAt(MissingAssign, 5) == ProgramResult([], [])
  {
    MissingAssignTailSteps();
    assert ProgramAt(MissingAssign, 8) == ProgramResult([], []);
    assert ProgramAt(MissingAssign, 7) == ProgramResult([], []);
  }

  /** From `5` on, each token starts no statement and the parser steps one token at a time. */
  lemma MissingAssignTailSteps()
    ensures Closed(MissingAssign, 5) && Closed(MissingAssign, 7) && Closed(MissingAssign, 8)
    ensures Scan(MissingAssign, 5) == Lexed(Token(INT, "5"), 7)
    ensures Scan(MissingAssign, 7) == Lexed(Token(SEMICOLON, ";"), 8)
    ensures Scan(MissingAssign, 8) == Lexed(Token(EOF, ""), 9)
    ensures StatementAt(MissingAssign, 5) == StatementResult(None, [], 5)
    ensures StatementAt(MissingAssign, 7) == StatementResult(None, [], 7)
  {
    MissingAssignScanAt5();
    MissingAssignScanAt7();
    MissingAssignScanAt8();
    assert Closed(MissingAssign, 8);
    assert Closed(MissingAssign, 7);
  }

  /** The text of the error `expectPeek(ASSIGN)` appends when it meets an INT. */
  lemma MissingAssignMessage()
    ensures PeekErrorMessage(ASSIGN, INT) == "expected next token to be =, got INT instead"
  {
    assert TypeName(ASSIGN) == "=" && TypeName(INT) == "INT";
  }

  lemma MissingAssignClosed()
    ensures Closed(MissingAssign, 0)
  {
    MissingAssignFirst();
    MissingAssignTailSteps();
  }

  lemma MissingAssignScanAt0()
    ensures Scan(MissingAssign, 0) == Lexed(Token(LET, "let"), 3)
  {
    assert RunEnd(MissingAssign, 0, IsWhitespace) == 0;
    assert RunEnd(MissingAssign, 0, IsLetter) == 3;
    assert MissingAssign[0..3] == "let";
  }

  lemma MissingAssignScanAt3()
    ensures Scan(MissingAssign, 3) == Lexed(Token(IDENT, "x"), 5)
  {
    assert RunEnd(MissingAssign, 3, IsWhitespace) == 4;
    assert RunEnd(MissingAssign, 4, IsLetter) == 5;
    assert MissingAssign[4..5] == "x";
  }

  lemma MissingAssignScanAt5()
    ensures Scan(MissingAssign, 5) == Lexed(Token(INT, "5"), 7)
  {
    assert RunEnd(MissingAssign, 5, IsWhitespace) == 6;
    assert RunEnd(MissingAssign, 6, IsDigit) == 7;
    assert MissingAssign[6..7] == "5";
  }

  lemma MissingAssignScanAt7()
    ensures Scan(MissingAssign, 7) == Lexed(Token(SEMICOLON, ";"), 8)
  {
    assert RunEnd(MissingAssign, 7, IsWhitespace) == 7;
  }

  lemma MissingAssignScanAt8()
    ensures Scan(MissingAssign, 8) == Lexed(Token(EOF, ""), 9)
  {
    assert RunEnd(MissingAssign, 8, IsWhitespace) == 8;
  }

  const ReturnX: seq<Byte> := "return x;"

  /** `return x;` gives one `return` statement whose value stays nil. */
  lemma ReturnXParses()
    ensures Closed(ReturnX, 0)
    ensures ProgramAt(ReturnX, 0) == ProgramResult([ReturnStatement(Token(RETURN, "return"), None)], [])
  {
    ReturnXScans();
    assert SkipToSemicolon(ReturnX, 6) == 8;
    assert Closed(ReturnX, 0);
  }

  lemma ReturnXScans()
    ensures Scan(ReturnX, 0) == Lexed(Token(RETURN, "return"), 6)
    ensures Scan(ReturnX, 6) == Lexed(Token(IDENT, "x"), 8)
    ensures Scan(ReturnX, 8) == Lexed(Token(SEMICOLON, ";"), 9)
    ensures Scan(ReturnX, 9) == Lexed(Token(EOF, ""), 10)
  {
    ReturnXScanAt0();
    ReturnXScanAt6();
    ReturnXScanAt8();
    ReturnXScanAt9();
  }

  lemma ReturnXScanAt0()
    ensures Scan(ReturnX, 0) == Lexed(Token(RETURN, "return"), 6)
  {
    assert RunEnd(ReturnX, 0, IsWhitespace) == 0;
    assert RunEnd(ReturnX, 0, IsLetter) == 6;
    assert ReturnX[0..6] == "return";
  }

  lemma ReturnXScanAt6()
    ensures Scan(ReturnX, 6) == Lexed(Token(IDENT, "x"), 8)
  {
    assert RunEnd(ReturnX, 6, IsWhitespace) == 7;
    assert RunEnd(ReturnX, 7, IsLetter) == 8;
    assert ReturnX[7..8] == "x";
  }

  lemma ReturnXScanAt8()
    ensures Scan(ReturnX, 8) == Lexed(Token(SEMICOLON, ";"), 9)
  {
    assert RunEnd(ReturnX, 8, IsWhitespace) == 8;
  }

  lemma ReturnXScanAt9()
    ensures Scan(ReturnX, 9) == Lexed(Token(EOF, ""), 10)
  {
    assert RunEnd(ReturnX, 9, IsWhitespace) == 9;
  }

  const OpenReturn: seq<Byte> := "return x"

  /** The first token of `return x`. */
  lemma OpenReturnFirst()
    ensures Scan(OpenReturn, 0) == Lexed(Token(RETURN, "return"), 6)
  {
    assert RunEnd(OpenReturn, 0, IsWhitespace) == 0;
    assert RunEnd(OpenReturn, 0, IsLetter) == 6;
    assert OpenReturn[0..6] == "return";
  }

  /**
   * `return x` has no `;`: the model's precondition for `ParseProgram` fails,
   * and the skip loop after `return` would see no SEMICOLON however long it ran.
   */
  lemma OpenReturnNeverStops(n: nat)
    ensures !StatementTerminates(OpenReturn, 0) && !Closed(OpenReturn, 0)
    ensures Scan(OpenReturn, Advance(OpenReturn, 6, n)).token.tokenType != SEMICOLON
  {
    OpenReturnFirst();
    assert NextSemicolon(OpenReturn, 6) == |OpenReturn|;
    assert !StatementTerminates(OpenReturn, 0);
    NoSemicolonAhead(OpenReturn, 6, n);
  }
}
