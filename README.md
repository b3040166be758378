# Monkey front end: lexer, parser and syntax tree

This project models the front end of a Go interpreter for the Monkey language:

- the lexer (`lexer/lexer.go`), a byte cursor that returns one token per `NextToken` call;
- the parser (`parser/parser.go`), a two-token window over the lexer. It builds a `Program` of `let` and `return` statements and collects error messages;
- the syntax tree (`ast/ast.go`), whose nodes render themselves with `TokenLiteral` and `String`.

Modules:

- `Tokens` holds the token types, the `Token` record and the keyword lookup. The token package is not part of this model. Its keyword table and the printed names of the token types are written down here as assumptions.
- `Lexing` holds `Scan`, a pure function for one `NextToken` call. It gives the token and the position the cursor ends at. The class `Lexing.Lexer` keeps the source's `position`, `readPosition` and `ch` fields. `NextToken` is proved equal to `Scan`. `SkipWhitespace`, `ReadIdentifier` and `ReadNumber` are proved to stop at `RunEnd`, the position where a "skip while the byte is in this class" loop stops. `ReadChar` and the constructor state the new cursor fields directly: `ch` is the byte at `position` (`CharAt`, NUL past the end) and `readPosition` is one ahead.
- `Parsing` describes the parser from the lexer position of its current token:
  - `StatementAt` describes one `parseStatement` call: the statement, the errors it appends and where it leaves the parser.
  - `ProgramAt` describes a whole `ParseProgram` call.
  - The class `Parsing.Parser` keeps the source's `l`, `errors`, `curToken` and `peekToken` fields. `ParseProgram` is proved equal to `ProgramAt`. `ParseStatement` is proved equal to `StatementAt`, and `ParseLetStatement` and `ParseReturnStatement` to its two cases, `LetAt` and `ReturnAt`. `SkipPastValue` is proved to stop where `SkipToSemicolon` says. The constructor, `NextToken`, `PeekError` and `ExpectPeek` state their new window and error list directly, in terms of `Scan`.
  - The lemmas prove the shape of the result. Every kept statement is a `let` with an IDENT name or a `return`, both with a nil value, or the nil entry of a failed `let`. Every error is a failed `expectPeek`. There are exactly as many errors as nil entries. A parse with no errors can be rendered.
- `Ast` holds the node types and their renderers.
- `Scenarios` states what the model gives for a few concrete programs.

Behaviour of the code that the model keeps as written:

- `isLetter` tests upper case as `'A' <= ch && 'Z' <= ch`. So 'A'..'Y' are not letters, and 'Z' together with every byte above it is (including `[`, `{`, `|`, `}`, `~` and bytes from 0x80).
  - An upper-case letter other than 'Z' at a token start is one ILLEGAL byte (`Lexing.UpperCaseIsIllegal`, `Lexing.CapitalisedWord`).
  - A brace inside an identifier is part of it (`Lexing.BracesInsideIdentifier`).
- A `let` whose `expectPeek` fails returns a nil `*LetStatement`. `ParseProgram` compares the resulting interface value with nil, finds it non-nil and keeps it, so the program holds an entry that panics when rendered. The model calls that entry `NilLetStatement`. The parser does not resynchronise after the failure: the next statement starts at the token after the one it stopped on.
- No expression is parsed. A `let` or `return` value stays nil, and the tokens up to the next SEMICOLON are skipped.
- `LetStatement.String` writes no trailing `;`, while `ReturnStatement.String` does.
- The skip loops in `parseLetStatement` and `parseReturnStatement` never end when no `;` follows, because the lexer then returns EOF forever (`Scenarios.OpenReturnNeverStops`, `Parsing.NoSemicolonAhead`).

## Model

| member | source | states |
|---|---|---|
| `Tokens.LookupIdent` | lexer/lexer.go:53-56 | an identifier's type is IDENT exactly when its text is not a keyword, otherwise a keyword type; LET comes only from `let` and RETURN only from `return` |
| `Tokens.TypeName` | parser/parser.go:115 | the name `%s` prints for a token type, never empty; exactly the eight punctuation types are named by their one byte |
| `Lexing.IsLetter` | lexer/lexer.go:93-95 | the letter class as written; a letter is never NUL, `;`, a digit or whitespace, so a letter run never swallows a `;` or runs past the end |
| `Lexing.IsDigit` | lexer/lexer.go:79-81 | the decimal digits; a digit is never NUL, whitespace or one of the one-byte punctuation bytes |
| `Lexing.NewToken` | lexer/lexer.go:97-99 | a token of the given type whose literal is exactly the one byte given |
| `Lexing.RunEnd` | lexer/lexer.go:21-25 | where a skip-while loop stops: every byte before it is in the class, the byte it stops on (NUL past the end) is not, and it never passes the end of the input |
| `Lexing.Scan` | lexer/lexer.go:27-68 | one `NextToken` call always advances the cursor, never past one beyond the end; a non-EOF token has a non-empty literal and ends inside the input; EOF has the empty literal |
| `Lexing.TokensUntilEof` | lexer/lexer.go:27-68 | the stream of successive calls ends with the first EOF, has no earlier EOF, and has at most one more token than bytes remain |
| `Lexing.ScanPunctuation` | lexer/lexer.go:32-48 | each of `= ; ( ) , + { }` is a one-byte token with that byte as literal, and each token type comes from exactly its byte |
| `Lexing.ScanNulIsEof` | lexer/lexer.go:49-51 | a NUL byte, at the end or embedded, reads as EOF with an empty literal |
| `Lexing.EofForever` | lexer/lexer.go:109-114 | once the cursor is past the input, every later call returns EOF again and the cursor stays past the end |
| `Lexing.ScanIdentifier` | lexer/lexer.go:53-56 | an identifier is the longest run of letters at the token start, its type is the keyword lookup of that text, and the cursor stops on the first non-letter |
| `Lexing.ScanNumber` | lexer/lexer.go:57-60 | an integer is the longest run of decimal digits, kept as text, and the cursor stops on the first non-digit |
| `Lexing.ScanIllegal` | lexer/lexer.go:61-63 | any other byte is one ILLEGAL token of that single byte, and such a byte is below 'Z' |
| `Lexing.IsLetterAsWritten` | lexer/lexer.go:93-95 | the letter class is `a`..`z`, `_` and every byte from 'Z' upwards; 'A'..'Y' are not letters |
| `Lexing.UpperCaseIsIllegal` | lexer/lexer.go:52-63 | an upper-case letter other than 'Z' at a token start gives one ILLEGAL byte |
| `Lexing.CapitalisedWord` | lexer/lexer.go:93-95 | `Abc` lexes as ILLEGAL `A` followed by the identifier `bc` |
| `Lexing.BracesInsideIdentifier` | lexer/lexer.go:45-56 | `a{b}` is one identifier, while `{b}` starts with an LBRACES token |
| `Lexing.Lexer.constructor` | lexer/lexer.go:102-106 | a new lexer stands on the first byte with its cursor invariant established |
| `Lexing.Lexer.ReadChar` | lexer/lexer.go:109-118 | `position` takes the old `readPosition`, `readPosition` is one ahead, and `ch` is the byte there or NUL past the end |
| `Lexing.Lexer.SkipWhitespace` | lexer/lexer.go:21-25 | the cursor ends at the end of the whitespace run, with its invariant kept |
| `Lexing.Lexer.ReadIdentifier` | lexer/lexer.go:83-90 | the cursor ends after the run of letters and the returned literal is exactly the bytes passed over |
| `Lexing.Lexer.ReadNumber` | lexer/lexer.go:70-77 | the cursor ends after the run of digits and the returned literal is exactly the bytes passed over |
| `Lexing.Lexer.NextToken` | lexer/lexer.go:27-68 | the returned token and the new cursor position are exactly those `Scan` gives for the old position |
| `Parsing.ScanStopsAtSemicolon` | parser/parser.go:88-90 | a `;` byte is never swallowed by a longer token: a call starting at or before it returns that SEMICOLON or stops at or before it |
| `Parsing.SkipToSemicolon` | parser/parser.go:88-90 | the skip loop, when a `;` byte is ahead, stops on a SEMICOLON token no later than that byte |
| `Parsing.SkipStep` | parser/parser.go:124-126 | a turn of a skip loop that has not reached its SEMICOLON keeps the same next `;` and the same stopping point |
| `Parsing.StatementAt` | parser/parser.go:64-73 | only LET and RETURN give a statement; any other token gives untyped nil and does not move; exactly one error is appended when the result is the nil `let` entry and none otherwise; never an expression statement; a statement never ends on EOF; a `let` or `return` that parses leaves the current token on SEMICOLON; a failed `let` does not resynchronise: it stays on the LET token or on the IDENT after it. `Parsing.StatementAtCases` gives the `let` case in full and the first-`;` bound for `return` |
| `Parsing.LetAt` | parser/parser.go:75-93 | always a statement; the nil `let` entry exactly when one error is appended; on failure the parser stays on the LET token (first `expectPeek`) or on the IDENT (second `expectPeek`); on success a `let` with no error, ending on a SEMICOLON after the name. `Parsing.LetAtOutcome` says which outcome each input gets. `Parsing.Parser.ParseLetStatement` is proved equal to it and `Parsing.StatementAtForm` gives the forms and messages |
| `Parsing.LetAtOutcome` | parser/parser.go:75-93 | the `let` parses exactly when IDENT and then ASSIGN follow LET, and is then named by that IDENT token and its text and stops on or before the first `;` after the name; when no IDENT follows, it stays on LET with the IDENT message naming the type found; when IDENT is not followed by ASSIGN, it stays on the IDENT with the ASSIGN message naming the type found |
| `Parsing.ReturnAt` | parser/parser.go:119-129 | a `return` statement with no error, ending on a SEMICOLON strictly after the RETURN token and no later than the first `;` after it. `Parsing.Parser.ParseReturnStatement` is proved equal to it |
| `Parsing.StatementAtCases` | parser/parser.go:64-73 | on a LET, `parseStatement` ends exactly as `LetAtOutcome` describes; on a RETURN, it stops no later than the first `;` after the RETURN token |
| `Parsing.ProgramAt` | parser/parser.go:49-62 | the whole `ParseProgram` result, defined wherever the loop ends (`Closed`): no more statements than bytes left, and never more errors than statements. `Parsing.ProgramAtStep` gives one loop turn, `Parsing.ProgramAtForm` the forms and the error count, `Parsing.CleanParseIsRenderable` renderability, and `Parsing.Parser.ParseProgram` is proved equal to it |
| `Parsing.PeekErrorMessage` | parser/parser.go:115 | the message starts with `expected next token to be ` and the expected type's name followed by `, got `, ends with the found type's name followed by ` instead`, and has no other text between the two |
| `Parsing.ProgramAtStep` | parser/parser.go:53-60 | one turn of the program loop: the statement's skip loop ends, the next statement start lies strictly further on and inside the input, the loop still ends from there, and the program is this statement followed by the rest |
| `Parsing.ProgramAtResume` | parser/parser.go:53-60 | the same turn seen from the running loop: the statements and errors collected so far, followed by what the rest of the loop collects, are unchanged by parsing one more statement and stepping |
| `Parsing.ScanKeyword` | lexer/lexer.go:53-56 | a LET token has literal `let` and a RETURN token has literal `return` |
| `Parsing.StatementAtForm` | parser/parser.go:75-93 | a statement from `parseStatement` has a parsed form, and every error it appends is a failed `expectPeek` for IDENT or ASSIGN |
| `Parsing.ProgramAtForm` | parser/parser.go:49-62 | the result is `WellParsed`: every kept statement has a parsed form, every error is a failed `expectPeek`, and the number of errors equals the number of nil `let` entries |
| `Parsing.StatementWellParsed` | parser/parser.go:56-58 | one statement's entry and errors, taken alone, are `WellParsed` |
| `Parsing.FormsJoin` | parser/parser.go:56-58 | `WellParsed` survives appending one statement list and its errors to another |
| `Parsing.CleanParseIsRenderable` | parser/parser.go:49-62 | a parse that appends no error holds no nil entry, so its program can be rendered |
| `Parsing.ParsedRendering` | ast/ast.go:97-122 | a parsed `let` renders as `let <name> = ` and a parsed `return` as `return ;` |
| `Parsing.NoSemicolonAhead` | parser/parser.go:124-126 | with no `;` byte ahead, no later token is a SEMICOLON however many calls are made, so a skip loop there never ends |
| `Parsing.Parser.constructor` | parser/parser.go:25-32 | a new parser has no errors and holds the lexer's next two tokens as current and peek token |
| `Parsing.Parser.CurTokenIs` | parser/parser.go:96-98 | in a valid parser, true exactly when the token the lexer gives at the current position has that type |
| `Parsing.Parser.PeekTokenIs` | parser/parser.go:100-102 | in a valid parser, true exactly when the token the lexer gives one call after the current one has that type |
| `Parsing.Parser.Errors` | parser/parser.go:34-36 | the collected messages, oldest first, as they are held |
| `Parsing.Parser.NextToken` | parser/parser.go:40-43 | the window shifts by one: the current token becomes the old peek token and the new peek token is the lexer's next token; errors are untouched |
| `Parsing.Parser.PeekError` | parser/parser.go:114-117 | appends exactly one message naming the expected type and the peek token's type |
| `Parsing.Parser.ExpectPeek` | parser/parser.go:104-112 | succeeds exactly when the peek type matches; on success it steps once and leaves the errors alone; on failure it leaves the window and the lexer alone and appends one message |
| `Parsing.Parser.SkipPastValue` | parser/parser.go:88-90 | the loop ends on a SEMICOLON current token at the position `SkipToSemicolon` gives, without touching the errors |
| `Parsing.Parser.ParseLetStatement` | parser/parser.go:75-93 | the statement, the appended errors and the new position are those of the `let` case of `StatementAt`, including both failure paths |
| `Parsing.Parser.ParseReturnStatement` | parser/parser.go:119-129 | returns a `return` statement with a nil value, appends no error and stops on the next SEMICOLON |
| `Parsing.Parser.ParseStatement` | parser/parser.go:64-73 | the result, the appended errors and the new position are exactly those of `StatementAt` |
| `Parsing.Parser.ParseProgram` | parser/parser.go:49-62 | ends with the current token EOF; the statements and appended errors are exactly those of `ProgramAt` |
| `Ast.Statement.String` | ast/ast.go:97-129 | a `let` or `return` rendering starts with its token literal and a space; a `let` continues with `<name> = <value>` and no `;`; a `return` with `<value>;`; a nil value renders as nothing |
| `Ast.Identifier.TokenLiteral` | ast/ast.go:74 | the literal of the identifier's own token |
| `Ast.Identifier.String` | ast/ast.go:132 | an identifier renders as its name |
| `Ast.Statement.TokenLiteral` | ast/ast.go:64 | the literal of the statement's own token, for `let`, `return` (line 84) and expression statements (line 94) alike |
| `Ast.Program.String` | ast/ast.go:47-55 | an empty program renders as the empty string, and a non-empty one starts with its first statement's rendering; `Ast.StringOfJoin` and `Ast.StringOfSnoc` show it is every rendering in order |
| `Ast.Program.TokenLiteral` | ast/ast.go:38-44 | an empty program's token literal is the empty string; otherwise it is the literal of the first statement's token |
| `Ast.StringOfJoin` | ast/ast.go:47-55 | the rendering of two statement lists joined is the two renderings concatenated |
| `Ast.StringOfSnoc` | ast/ast.go:47-55 | appending a statement appends its rendering to the program's rendering |
| `Ast.TokenLiteralStartsString` | ast/ast.go:38-55 | when the first statement is a `let` or a `return`, the program's token literal is a prefix of its rendering |
| `Ast.LetRendering` | ast/ast.go:97-109 | `let x = y` renders without a `;`, and a nil value renders as `let x = ` |
| `Ast.ReturnRendering` | ast/ast.go:111-122 | `return y;` renders with its `;`, and a nil value renders as `return ;` |
| `Scenarios.LetXTokens` | lexer/lexer.go:27-68 | the token stream of `let x = 5;` is LET, IDENT, ASSIGN, INT, SEMICOLON, EOF with their literals |
| `Scenarios.LetXParses` | parser/parser.go:75-93 | `let x = 5;` parses to one `let` statement named `x` with a nil value and no error |
| `Scenarios.MissingAssignMessage` | parser/parser.go:114-117 | the message for a missing `=` before an integer reads `expected next token to be =, got INT instead` |
| `Scenarios.MissingAssignParses` | parser/parser.go:84-86 | `let x 5;` keeps the nil `let` entry and appends that one message |
| `Scenarios.ReturnXParses` | parser/parser.go:119-129 | `return x;` parses to one `return` statement with a nil value and no error |
| `Scenarios.OpenReturnNeverStops` | parser/parser.go:124-126 | for `return x` the `return` statement's skip loop has no `;` ahead, so the program loop does not end, and the skip loop never meets a SEMICOLON |

## Left out

- The token package is not part of this model. The keyword table (`fn`, `let`, `true`, `false`, `if`, `else`, `return`) and the printed names of the token types used in error messages (`=` for ASSIGN, `INT`, `IDENT` and so on) are assumptions.
- `main.go` and the REPL it starts (reading standard input, the user name, printing) are I/O and are not modelled.
- `fmt.Sprintf` and `bytes.Buffer` are modelled by string concatenation.
- Go's `string(ch)` of a single byte is modelled as that one byte. That is exact for every byte `newToken` receives: punctuation, and ILLEGAL bytes, which lie below 'Z'.
- Go's interface and pointer nil-ness: a nil expression is `None`, `parseStatement`'s untyped nil is `None`, and the typed nil `*LetStatement` is `NilLetStatement`. `LetStatement.Name` is never nil in anything the parser builds, so it is modelled as always present.
- Rendering (`TokenLiteral`, `String`) a nil `*LetStatement` dereferences nil in Go and panics. The renderers require no such entry (`Renderable`) instead of modelling the panic.
- `Lexing.Lexer.constructor` and `Parsing.Parser.constructor`: the source builds a zero struct and then calls `readChar` once (lexer) or `nextToken` twice (parser). The parser model reads the lexer's two tokens directly. The resulting state is the same.
- `Parsing.ProgramAt`, `Parsing.Parser.ParseProgram` and the lemmas about them (`ProgramAtStep`, `ProgramAtResume`, `ProgramAtForm`, `CleanParseIsRenderable`) require `Closed`: the program loop, run from the given position, meets no statement whose skip loop lacks a `;` ahead. Inputs on which the source's loop runs forever are excluded, because every function and method must terminate.
- `Parsing.Parser.ParseLetStatement`, `Parsing.Parser.ParseReturnStatement` and `Parsing.Parser.ParseStatement` carry the same kind of precondition (`StatementTerminates`), for the same reason.
- Go's `int` is 64 bits; positions are unbounded integers here, since inputs long enough to overflow them are not meaningful.
- `Parsing.Parser.SkipPastValue` is the skip loop that `parseLetStatement` and `parseReturnStatement` each write out inline, shared as one method.
