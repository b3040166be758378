/**
 * The token package: token types, tokens and the keyword table.
 *
 * The package's source is not part of this model. The constants below are the
 * ones the lexer and the parser use; their printed names (used in the parser's
 * error messages) and the keyword table are stated here as assumptions.
 */
module Tokens {

  datatype TokenType =
    | ILLEGAL | EOF
    | IDENT | INT
    | ASSIGN | PLUS | COMMA | SEMICOLON
    | LPAREN | RPAREN | LBRACES | RBRACES
    | FUNCTION | LET | TRUE | FALSE | IF | ELSE | RETURN

  /** A token: its type and the text it was read from. */
  datatype Token = Token(tokenType: TokenType, literal: string)

  /** The string value of each TokenType constant, as printed by `%s`. */
  function TypeName(t: TokenType): (r: string)
    ensures r != []
    ensures |r| == 1 <==> t in {ASSIGN, PLUS, COMMA, SEMICOLON, LPAREN, RPAREN, LBRACES, RBRACES}
  {
    match t
    case ILLEGAL => "ILLEGAL"
    case EOF => "EOF"
    case IDENT => "IDENT"
    case INT => "INT"
    case ASSIGN => "="
    case PLUS => "+"
    case COMMA => ","
    case SEMICOLON => ";"
    case LPAREN => "("
    case RPAREN => ")"
    case LBRACES => "{"
    case RBRACES => "}"
    case FUNCTION => "FUNCTION"
    case LET => "LET"
    case TRUE => "TRUE"
    case FALSE => "FALSE"
    case IF => "IF"
    case ELSE => "ELSE"
    case RETURN => "RETURN"
  }

  /** The reserved words of the language and their token types. */
  const Keywords: map<string, TokenType> :=
    map["fn" := FUNCTION, "let" := LET, "true" := TRUE, "false" := FALSE,
        "if" := IF, "else" := ELSE, "return" := RETURN]

  predicate IsKeywordType(t: TokenType)
  {
    t in {FUNCTION, LET, TRUE, FALSE, IF, ELSE, RETURN}
  }

  /**
   * Keyword lookup: a reserved word gets its keyword type, every other text is
   * an identifier. `let` and `return` are the only texts that give LET and RETURN.
   */
  function LookupIdent(ident: string): (t: TokenType)
    ensures t == IDENT || IsKeywordType(t)
    ensures t == IDENT <==> ident !in Keywords
    ensures t == LET <==> ident == "let"
    ensures t == RETURN <==> ident == "return"
  {
    if ident in Keywords then Keywords[ident] else IDENT
  }
}
