/**
 * The syntax tree (ast/ast.go): the node types the parser builds and their
 * `TokenLiteral` and `String` renderers.
 *
 * Go's nilable children become `Option`. `Identifier` is the only Expression
 * node the package defines. A `Program` entry can be a non-nil Statement
 * interface that holds a nil `*LetStatement` (the parser produces one for every
 * failed `let`); `NilLetStatement` stands for that entry. Calling `TokenLiteral`
 * or `String` on it dereferences nil in Go, so the renderers require the entry
 * not to be one.
 */
module Ast {
  import opened Wrappers
  import opened Tokens

  datatype Identifier = Identifier(token: Token, value: string)
  {
    /** The text of the identifier's own token. */
    function TokenLiteral(): (r: string)
      ensures r == token.literal
    {
      token.literal
    }

    /** An identifier renders as its name. */
    function String(): (r: string)
      ensures r == value
    {
      value
    }
  }

  /** The Expression interface: its one implementation in the package is Identifier. */
  type Expression = Identifier

  datatype Statement =
    | LetStatement(token: Token, name: Identifier, value: Option<Expression>)
    | ReturnStatement(token: Token, returnValue: Option<Expression>)
    | ExpressionStatement(token: Token, expression: Option<Expression>)
    | NilLetStatement
  {
    /** Every node's `TokenLiteral` is the literal of its own token. */
    function TokenLiteral(): (r: string)
      requires !NilLetStatement?
      ensures r == token.literal
    {
      token.literal
    }

    /**
     * `let <name> = <value>` with no trailing `;`; `return <value>;`; an
     * expression statement renders its expression. A nil child renders as nothing.
     */
    function String(): (r: string)
      requires !NilLetStatement?
      ensures LetStatement? || ReturnStatement? ==> TokenLiteral() + " " <= r
      ensures LetStatement? ==> r[|token.literal| + 1..] == name.value + " = " + OptionString(value)
      ensures ReturnStatement? ==> r[|token.literal| + 1..] == OptionString(returnValue) + ";"
      ensures ExpressionStatement? ==> r == OptionString(expression)
    {
      match this
      case LetStatement(_, _, _) =>
        TokenLiteral() + " " + name.String() + " = " + OptionString(value)
      case ReturnStatement(_, _) =>
        TokenLiteral() + " " + OptionString(returnValue) + ";"
      case ExpressionStatement(_, _) =>
        OptionString(expression)
    }
  }

  /** A nilable expression rendered: its `String()`, or nothing when nil. */
  function OptionString(e: Option<Expression>): string
  {
    match e
    case Some(x) => x.String()
    case None => ""
  }

  /** No entry is the nil `*LetStatement` placeholder, so every entry can be rendered. */
  predicate Renderable(statements: seq<Statement>)
  {
    forall i | 0 <= i < |statements| :: !statements[i].NilLetStatement?
  }

  /** The root node: the statements in parse order. */
  datatype Program = Program(statements: seq<Statement>)
  {
    /** The first statement's token literal, or "" for an empty program. */
    function TokenLiteral(): (r: string)
      requires statements != [] ==> !statements[0].NilLetStatement?
      ensures statements == [] ==> r == ""
      ensures statements != [] ==> r == statements[0].token.literal
    {
      if |statements| > 0 then statements[0].TokenLiteral() else ""
    }

    /** The statements' renderings concatenated in order, with no separator. */
    function String(): (r: string)
      requires Renderable(statements)
      ensures statements == [] ==> r == ""
      ensures statements != [] ==> statements[0].String() <= r
      decreases |statements|
    {
      if statements == [] then "" else statements[0].String() + Program(statements[1..]).String()
    }
  }

  /** Rendering distributes over joining two statement lists. */
  lemma {:induction false} StringOfJoin(a: seq<Statement>, b: seq<Statement>)
    requires Renderable(a) && Renderable(b)
    ensures Renderable(a + b)
    ensures Program(a + b).String() == Program(a).String() + Program(b).String()
    decreases |a|
  {
    if a != [] {
      assert (a + b)[1..] == a[1..] + b;
      StringOfJoin(a[1..], b);
    } else {
      assert a + b == b;
    }
  }

  /** A program's rendering is each statement's rendering, one after the other. */
  lemma {:induction false} StringOfSnoc(a: seq<Statement>, s: Statement)
    requires Renderable(a) && !s.NilLetStatement?
    ensures Renderable(a + [s])
    ensures Program(a + [s]).String() == Program(a).String() + s.String()
  {
    assert Program([s]).String() == s.String() + Program([]).String();
    StringOfJoin(a, [s]);
  }

  /**
   * When the first statement is a `let` or a `return`, the program's token
   * literal is the start of its rendering.
   */
  lemma TokenLiteralStartsString(p: Program)
    requires Renderable(p.statements)
    requires p.statements != [] ==> !p.statements[0].ExpressionStatement?
    ensures p.TokenLiteral() <= p.String()
  {
  }

  /** The rendering of `let x = y`: no `;` at the end. */
  lemma LetRendering()
    ensures LetStatement(Token(LET, "let"), Identifier(Token(IDENT, "x"), "x"),
                         Some(Identifier(Token(IDENT, "y"), "y"))).String() == "let x = y"
    ensures LetStatement(Token(LET, "let"), Identifier(Token(IDENT, "x"), "x"), None).String() == "let x = "
  {
  }

  /** The rendering of `return y;`, and of a `return` with a nil value. */
  lemma ReturnRendering()
    ensures ReturnStatement(Token(RETURN, "return"), Some(Identifier(Token(IDENT, "y"), "y"))).String() == "return y;"
    ensures ReturnStatement(Token(RETURN, "return"), None).String() == "return ;"
  {
  }
}
