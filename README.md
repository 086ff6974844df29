# A Lisp-style front end and a while-language pretty printer, in Dafny

The project models two pieces of a compiler-construction repository.

The first, `Aufgabe4.java`, is a hand-written lexer and recursive-descent parser for
a small Lisp-style language:

- The `Lexer` class moves a cursor over the input string. It skips whitespace and
  `;;` comments and emits parentheses, integer runs, string literals, one-character
  operators, and words. Each word is classified as a keyword, a boolean, or an
  identifier. After the last token it appends an `EOF` token.
- The `Parser` class moves a cursor over the token list. It builds a `Node` tree: a
  `Program` node over the top-level expressions, a `List` node per parenthesised
  group, and a leaf per atom.

The second, `src/main/java/PrettyPrinter.java`, is a visitor over the parse tree of a
while-language. It re-prints a program with four spaces of indentation per nesting
level. Its `indentLevel` field is raised and lowered around every loop body and
every if-else branch.

Dafny files:

- `results.dfy`: the `Option` and `Result` wrappers.
- `tokens.dfy`: the token kinds, the tokens, and the character classes.
- `lexer.dfy`: the imperative `Lexer` class, proved against `Scan`, a functional
  specification of the token list of the text after the cursor.
- `lexer_facts.dfy`: the properties of `Scan`.
  - A successful scan ends with the one EOF sentinel, and every token before it is
    well formed.
  - The error cases and the skipped trivia.
  - A round trip: spelling tokens out and scanning the text gives the tokens back.
- `tree.dfy`: the mutable `Node` class, with a ghost `Tree` value that it always
  equals.
- `parser.dfy`: the imperative `Parser` class, proved against `AtomAt`, `ExprAt`,
  `ListAt` and `ProgramAt`. These are functional specifications of what parsing the
  token list from the cursor returns and how many tokens it consumes.
- `parser_facts.dfy`: where the parser's loops stop, how a list ends, what an
  unclosed list and a stray `)` do.
- `sexpr.dfy`: an independent reference, the s-expression.
  - Completeness: the parser reads every parsable s-expression back as its tree.
  - Soundness: whatever the parser accepts is the spelling of parsable
    s-expressions.
  - Lexing and parsing the spelled-out text of s-expressions gives their trees.
- `printer.dfy`: the while-language parse tree as datatypes, plus `StmtText` and
  `BlockText`, the text each statement prints at a given level. The imperative
  `PrettyPrinter` class is proved against them.
- `printer_facts.dfy`: a line-by-line reference layout, with depths, proved equal to
  the printed text.
  - The nesting depth of every line.
  - The marker lines of loops and if-elses.
  - The line count.
  - How program texts concatenate.
  - Where the parentheses of an expression's text come from.
- `seqs.dfy`: generic sequence lemmas.

The printer's input is a parse tree, so the datatypes in `printer.dfy` stand for the
contexts of the grammar in `src/main/java/Aufgabe_3_1Parser.java`:

- `start`: a sequence of statements.
- `stmt`: an expression, a variable, a while loop, or an if-else.
- `expr`: an atom, a parenthesised expression, an assignment, or a binary operation.

## Model

| member | source | states |
|---|---|---|
| Tokens.OperatorKind | Aufgabe4.java:141-153 | a kind is found only for an operator-start character, and only for one of the seven operator kinds; among the operator-start characters exactly `\0` has none |
| Tokens.IsOperatorStart | Aufgabe4.java:109 | the characters sent to the operator reader; `LexerFacts.OperatorStartListed` proves they are exactly those of the string the lexer searches |
| Tokens.WordKind | Aufgabe4.java:155-176 | every word gets a word kind; BOOLEAN exactly for "true"/"false"; IDENT exactly for a word that is neither a keyword nor a boolean |
| Lexing.RunLength | Aufgabe4.java:126-130 | the length of the longest prefix made of the run's characters: every character before it is in the run, the one at it (if any) is not |
| Lexing.Scan | Aufgabe4.java:83-123 | the tokens of the remaining text: the loop's steps repeated until the text is used up; a successful result is never empty and ends with the `EOF("")` sentinel |
| Lexing.Step | Aufgabe4.java:83-119 | one iteration of the tokenize loop over non-empty text either fails or consumes between 1 and all remaining characters |
| Lexing.TokenLexeme | Aufgabe4.java:96-119 | the token-reading part of an iteration never skips, and an emitted token consumes at least one character |
| Lexing.Emitted | Aufgabe4.java:83-124 | emitting a token and continuing with the rest yields the same final list as appending the token to those already produced |
| Lexing.PrependCons | Aufgabe4.java:81-124 | tokens already produced followed by one more token and then a result equal the extended prefix followed by that result |
| Lexing.Lexer.constructor | Aufgabe4.java:63-66 | the lexer holds the input, with the cursor at 0 |
| Lexing.Lexer.Peek | Aufgabe4.java:68-70 | the character under the cursor, or `\0` at the end |
| Lexing.Lexer.Next | Aufgabe4.java:72-74 | returns what Peek returned and advances the cursor by one unless it is at the end |
| Lexing.Lexer.IsAtEnd | Aufgabe4.java:76-78 | true exactly when the cursor is at the end of the input |
| Lexing.Lexer.Tokenize | Aufgabe4.java:80-124 | the result is exactly `Scan` of the text that remained after the cursor, with the EOF sentinel or the first error; on success the cursor is at the end, so a second call gives just the sentinel |
| Lexing.Lexer.TokenizeStep | Aufgabe4.java:84-119 | one loop iteration: skips, emits or fails exactly as `Step` of the remaining text says, and advances the cursor by the characters it consumes |
| Lexing.Lexer.ReadToken | Aufgabe4.java:96-119 | the token-reading branches of an iteration, as `TokenLexeme` says |
| Lexing.Lexer.ReadNumber | Aufgabe4.java:126-130 | consumes the maximal digit run and returns an INT token with exactly those characters |
| Lexing.Lexer.ReadString | Aufgabe4.java:132-139 | consumes the opening quote and the text up to the next quote and returns that text as a STRING token; with no closing quote, runs to the end and fails with "Unterminated string" |
| Lexing.Lexer.ReadOperator | Aufgabe4.java:141-153 | consumes one character and returns its operator token, or fails with "Unknown operator" for that character |
| Lexing.Lexer.ReadIdentifierOrKeyword | Aufgabe4.java:155-176 | consumes the maximal run of letters and digits and returns it with the kind `WordKind` gives it |
| Lexing.Lex | Aufgabe4.java:63-66 | a fresh lexer over the code tokenizes it to `Scan(code)` |
| LexerFacts.OperatorStartListed | Aufgabe4.java:109 | a character starts an operator exactly when it occurs in the string `+-*/=<>` followed by NUL |
| LexerFacts.RunLengthExact | Aufgabe4.java:128 | any length that closes a run is the run length: the inner loops stop at the first character outside the run |
| LexerFacts.StepWellFormed | Aufgabe4.java:96-117 | every token a loop iteration emits is well formed: its text agrees with its kind, and it is never EOF |
| LexerFacts.DigitsWellFormed | Aufgabe4.java:126-130 | an INT token over a non-empty digit run is well formed |
| LexerFacts.QuotedWellFormed | Aufgabe4.java:132-139 | a STRING token over text without a quote is well formed |
| LexerFacts.WordWellFormed | Aufgabe4.java:155-176 | a word token starting with a letter, classified by `WordKind`, is well formed |
| LexerFacts.ConsKeepsShape | Aufgabe4.java:80-124 | putting a well-formed token in front keeps a list EOF-terminated and well formed before its last token |
| LexerFacts.ScanShape | Aufgabe4.java:80-124 | a successful tokenization ends with exactly one token `EOF("")`, no earlier token is EOF, and every earlier token is well formed |
| LexerFacts.WhitespaceIgnored | Aufgabe4.java:86-89 | leading whitespace does not change the token list |
| LexerFacts.CommentIgnored | Aufgabe4.java:91-94 | a `;;` comment up to a newline or the end does not change the token list |
| LexerFacts.LoneSemicolonFails | Aufgabe4.java:91-119 | a `;` not followed by another `;` is an unexpected character |
| LexerFacts.NulIsUnknownOperator | Aufgabe4.java:141-153 | a NUL character is sent to the operator reader and rejected there as an unknown operator |
| LexerFacts.UnclosedStringFails | Aufgabe4.java:132-136 | an opening quote with no later quote makes tokenizing fail with "Unterminated string" |
| LexerFacts.StepSpelled | Aufgabe4.java:96-117 | a well-formed token's spelling followed by a space is read back as that token, consuming exactly the spelling |
| LexerFacts.ScanSpelled | Aufgabe4.java:80-124 | a well-formed token's spelling, a space, and more text tokenize as the token and then the tokens of the rest |
| LexerFacts.ScanEmit | Aufgabe4.java:83-124 | an iteration that emits a token puts it in front of the tokens of the rest |
| LexerFacts.ScanRender | Aufgabe4.java:80-124 | spelling well-formed tokens out, space-separated, and tokenizing the text gives back exactly those tokens plus EOF |
| LexerFacts.RescanIsStable | Aufgabe4.java:80-124 | re-spelling the tokens of any successful tokenization and tokenizing again gives the same result |
| LexerFacts.BeforeSentinel | Aufgabe4.java:122 | the tokens of a successful tokenization before the sentinel are well formed, and the sentinel put back gives the whole list |
| Trees.Node.constructor | Aufgabe4.java:186-188 | a node with the given value and no children |
| Trees.Node.AddChild | Aufgabe4.java:190-192 | the children list gains exactly the new child at its end; the tree the node stands for gains the child's tree as its last child |
| Parsing.First | Aufgabe4.java:213-215 | the first token of a list, or the synthetic `EOF("")` for an empty one |
| Parsing.Consumed | Aufgabe4.java:217-219 | taking a token consumes one, except at the end |
| Parsing.IsAtomKind | Aufgabe4.java:261-286 | the token kinds that become a leaf; `ParserFacts.AtomKindsListed` proves they are exactly the twenty-two cases of the switch |
| Parsing.AtomAt | Aufgabe4.java:259-288 | an atom is one token of an atom kind, becoming a leaf with its text; any other kind is an "unexpected token" error |
| Parsing.ExprAt | Aufgabe4.java:240-245 | an accepted expression consumes at least one token and no more than remain |
| Parsing.ListAt | Aufgabe4.java:247-257 | an accepted list consumes at least its "(" and ")" and no more than remain |
| Parsing.ListBody | Aufgabe4.java:249-256 | an accepted list body consumes at least its ")" |
| Parsing.ListItems | Aufgabe4.java:251-253 | the list loop moves the cursor forward and never past the end |
| Parsing.ProgramItems | Aufgabe4.java:234-236 | the program loop moves the cursor forward and never past the end |
| Parsing.ProgramAt | Aufgabe4.java:232-238 | a program is accepted exactly when its loop is, and then is a "Program" node consuming no more than the tokens |
| Parsing.ListItemsStep | Aufgabe4.java:251-253 | one more expression in a list body extends the trees read so far |
| Parsing.ProgramItemsStep | Aufgabe4.java:234-236 | one more top-level expression extends the trees read so far |
| Parsing.Parser.constructor | Aufgabe4.java:209-211 | the parser holds the tokens, with the cursor at 0 |
| Parsing.Parser.Peek | Aufgabe4.java:213-215 | the token under the cursor, or `EOF("")` past the end |
| Parsing.Parser.Next | Aufgabe4.java:217-219 | returns what Peek returned and advances unless past the end |
| Parsing.Parser.Check | Aufgabe4.java:221-223 | true exactly when the next token has the given kind |
| Parsing.Parser.Expect | Aufgabe4.java:225-230 | consumes a token of the given kind, or fails with "expected K but found K'" naming the kind found and leaves the cursor |
| Parsing.Parser.ParseProgram | Aufgabe4.java:232-238 | the node returned stands for exactly the tree `ProgramAt` gives and the cursor moves by the tokens it consumes; otherwise the same error |
| Parsing.Parser.ParseChild | Aufgabe4.java:251-253 | parses an expression and appends its node to the parent, as `ExprAt` says |
| Parsing.Parser.ParseExpression | Aufgabe4.java:240-245 | a list when the next token is "(", otherwise an atom, as `ExprAt` says |
| Parsing.Parser.ParseList | Aufgabe4.java:247-257 | the result and the cursor movement are exactly those `ListAt` gives |
| Parsing.Parser.ParseListBody | Aufgabe4.java:249-256 | after "(", a "List" node over the expressions up to ")" or EOF, then the closing ")" or the expect error |
| Parsing.Parser.ParseItems | Aufgabe4.java:251-253 | the list loop appends the expressions up to ")" or EOF, as `ListItems` says |
| Parsing.Parser.ParseAtom | Aufgabe4.java:259-288 | a leaf for the next token's text, or the "unexpected token" error, as `AtomAt` says |
| Parsing.Parse | Aufgabe4.java:209-211 | a fresh parser over a token list returns exactly what `ProgramAt` gives |
| ParserFacts.AtomKindsListed | Aufgabe4.java:261-286 | the atom kinds are exactly INT, STRING, BOOLEAN, IDENT, the seven operators and the eleven keywords, so LPAREN, RPAREN and EOF are the unexpected ones |
| ParserFacts.ProgramItemsEnd | Aufgabe4.java:234-236 | the program loop keeps the trees read so far and stops only at EOF |
| ParserFacts.ListItemsEnd | Aufgabe4.java:251-253 | the list loop keeps the trees read so far and stops only at ")" or EOF |
| ParserFacts.ProgramStopsAtEof | Aufgabe4.java:232-238 | a parsed program ends exactly where the next token is EOF |
| ParserFacts.ListBodyVerdict | Aufgabe4.java:251-256 | after the list loop, either ")" follows and closes the list, or EOF follows and the list fails with "expected RPAREN but found EOF" |
| ParserFacts.ListAtClosed | Aufgabe4.java:247-257 | "(", a body read up to a ")", and that ")" make a "List" node over the body, consuming body plus two tokens |
| ParserFacts.ListAtParts | Aufgabe4.java:247-257 | conversely, an accepted list starts with "(", its body reads up to a ")", and the list ends with it |
| ParserFacts.NoCloseSuffix | Aufgabe4.java:251 | a token list without ")" has none in any suffix |
| ParserFacts.UnclosedListFails | Aufgabe4.java:251-255 | a list with no ")" anywhere after it fails with "expected RPAREN but found EOF" |
| ParserFacts.UnclosedExpr | Aufgabe4.java:240-245 | without any ")", an expression is an unclosed list that fails or an atom that succeeds |
| ParserFacts.UnclosedItems | Aufgabe4.java:251-253 | without any ")", the list loop either meets an unclosed list or runs to EOF |
| ParserFacts.StrayCloseFails | Aufgabe4.java:259-288 | a ")" where an expression starts is an "unexpected token RPAREN", at top level as well as in an expression |
| SExprs.Flatten | Aufgabe4.java:247-257 | an s-expression is spelled with at least one token |
| SExprs.FlattenAll | Aufgabe4.java:251-253 | a sequence of s-expressions is spelled with no tokens exactly when it is empty |
| SExprs.ToTrees | Aufgabe4.java:249-253 | one tree per s-expression |
| SExprs.ExprComplete | Aufgabe4.java:240-257 | every parsable s-expression parses as its tree and consumes exactly its tokens, whatever follows |
| SExprs.ItemsComplete | Aufgabe4.java:251-253 | the list loop reads parsable s-expressions up to a ")" or EOF as their trees |
| SExprs.ItemsRemain | Aufgabe4.java:251-253 | the same, for the loop started partway through |
| SExprs.ProgramItemsComplete | Aufgabe4.java:234-236 | the program loop reads parsable s-expressions up to EOF |
| SExprs.ProgramComplete | Aufgabe4.java:232-238 | parsable s-expressions followed by EOF parse as a "Program" node over their trees |
| SExprs.ExprSound | Aufgabe4.java:240-245 | every accepted expression is a parsable s-expression spelled by exactly the tokens consumed, and the tree is its tree |
| SExprs.GroupSound | Aufgabe4.java:247-257 | every accepted list is a group between the "(" and ")" consumed |
| SExprs.ItemsSound | Aufgabe4.java:251-253 | what the list loop accepts is the spelling of parsable s-expressions with their trees |
| SExprs.ProgramItemsSound | Aufgabe4.java:234-236 | what the program loop accepts is the spelling of parsable s-expressions with their trees |
| SExprs.ProgramSound | Aufgabe4.java:232-238 | every accepted program, up to its EOF, is the spelling of parsable s-expressions and its tree is theirs |
| SExprs.FrontEndRoundTrip | Aufgabe4.java:80-124 | spelling parsable s-expressions of well-formed tokens, lexing, and parsing gives back the tokens plus EOF and then a "Program" node over their trees |
| Printing.OpText | src/main/java/PrettyPrinter.java:95 | the operator text is one character for the six one-character operators and two for "==", "!=", ">=", "=<" |
| Printing.Spaces | src/main/java/PrettyPrinter.java:6-10 | exactly four spaces per level |
| Printing.BinOp | src/main/java/PrettyPrinter.java:13-15 | the left operand, one space, the operator, one space, the right operand, in that order and nothing else |
| Printing.VisitExpr | src/main/java/PrettyPrinter.java:75-100 | the text of an expression. Its properties are proved separately: `PrinterFacts.ExprNoNewline` (no newline of its own), `PrinterFacts.OpenParenCount` (no parenthesis of its own), and `PrinterFacts.AssignRendersAsParen` (an assignment prints as its parenthesised right-hand side) |
| Printing.StmtText | src/main/java/PrettyPrinter.java:29-71 | the text a statement prints at a level; it is never empty and always ends with a newline |
| Printing.BlockText | src/main/java/PrettyPrinter.java:19-25 | the texts of statements in order at one level; empty exactly for no statements, and otherwise it ends with a newline |
| Printing.BlockTextSnoc | src/main/java/PrettyPrinter.java:21-23 | appending one statement's text extends the text of the statements before it |
| Printing.PrettyPrinter.constructor | src/main/java/PrettyPrinter.java:5 | the printer starts at indentation level 0 |
| Printing.PrettyPrinter.Indent | src/main/java/PrettyPrinter.java:8-10 | four spaces per current indentation level, and nothing else |
| Printing.PrettyPrinter.VisitVar | src/main/java/PrettyPrinter.java:39-41 | the current indentation followed by exactly the variable's name |
| Printing.PrettyPrinter.VisitStmt | src/main/java/PrettyPrinter.java:29-35 | the text of the statement at the current level, and the level is the same afterwards |
| Printing.PrettyPrinter.VisitWhile | src/main/java/PrettyPrinter.java:45-55 | the text of the loop at the current level, and the level is restored afterwards |
| Printing.PrettyPrinter.VisitBody | src/main/java/PrettyPrinter.java:48-52 | the body statements' texts in order, one level deeper, and the level is restored afterwards |
| Printing.PrettyPrinter.VisitIfelse | src/main/java/PrettyPrinter.java:59-71 | the text of the if-else at the current level, and the level is restored afterwards |
| Printing.PrettyPrinter.VisitNested | src/main/java/PrettyPrinter.java:62-68 | a branch's text one level deeper, with the level restored afterwards |
| Printing.PrettyPrinter.VisitStart | src/main/java/PrettyPrinter.java:19-25 | the statements' texts in order at the current level |
| PrinterFacts.StmtTextIsLayout | src/main/java/PrettyPrinter.java:29-71 | what a statement prints is exactly its reference layout, line by line, each line indented four spaces per depth |
| PrinterFacts.BlockTextIsLayout | src/main/java/PrettyPrinter.java:19-25 | what a sequence of statements prints is exactly their layouts, one after another |
| PrinterFacts.JoinAppend | src/main/java/PrettyPrinter.java:22 | the printed lines of two line lists concatenate |
| PrinterFacts.LayoutDepths | src/main/java/PrettyPrinter.java:29-71 | no line of a statement at level L sits strictly between depth 0 and L, and the first line of every statement other than an expression statement is at L |
| PrinterFacts.BlockLayoutDepths | src/main/java/PrettyPrinter.java:49-51 | no line of a block at level L sits strictly between depth 0 and L |
| PrinterFacts.IndentedLayout | src/main/java/PrettyPrinter.java:29-71 | only expression statements print unindented lines: a statement with none inside it prints every line at its level or deeper |
| PrinterFacts.IndentedBlockLayout | src/main/java/PrettyPrinter.java:49-51 | the same for a block of such statements |
| PrinterFacts.WhileLines | src/main/java/PrettyPrinter.java:45-55 | a loop's first line is "while cond do" and its last line is "end", both at the outer level, and the lines in between are its body's, one level deeper |
| PrinterFacts.IfElseLines | src/main/java/PrettyPrinter.java:59-71 | an if-else has the "if", "else do" and "end" lines at the outer level, with each branch's lines in its place, one level deeper |
| PrinterFacts.BlockTextAppend | src/main/java/PrettyPrinter.java:19-25 | the text of concatenated statement sequences is the concatenation of their texts |
| PrinterFacts.ExprNoNewline | src/main/java/PrettyPrinter.java:75-100 | an expression whose atoms hold no newline prints without one |
| PrinterFacts.JoinNewlines | src/main/java/PrettyPrinter.java:29-55 | printed single-line lines hold exactly one newline per line |
| PrinterFacts.LayoutOneLine | src/main/java/PrettyPrinter.java:29-71 | the lines of a statement whose atoms hold no newline are single lines |
| PrinterFacts.LineCount | src/main/java/PrettyPrinter.java:29-71 | for a statement whose atom texts hold no newline: it prints exactly as many newlines as its layout has lines |
| PrinterFacts.AssignRendersAsParen | src/main/java/PrettyPrinter.java:82-89 | an assignment renders exactly like its right-hand side in parentheses, whatever its target |
| PrinterFacts.OpenParenCount | src/main/java/PrettyPrinter.java:77-97 | the printer adds no parentheses of its own: an expression's text holds one "(" per parenthesised node or assignment, plus those of its atoms, here none |

## Left out

- Character classes: `Character.isWhitespace`, `isDigit`, `isLetter` and
  `isLetterOrDigit` are restricted to ASCII. Non-ASCII letters, digits and spaces
  are treated as other characters.
- Errors: every `RuntimeException` is modelled as an error value; its message text
  is not.
- `Token.toString`, `Node.prettyPrint` and `main` are left out. They only print to
  the console.
- State after an error: where the Java code throws, no caller uses the lexer or the
  parser again. The methods below return the error and make no claim about the
  cursor after it. `Parsing.Parser.ParseAtom` is the case where the Java code has
  already consumed the rejected token.
- `Lexing.Lexer.Tokenize`: no claim about the cursor after an error.
- `Lexing.Lexer.TokenizeStep`: no claim about the cursor after an error.
- `Lexing.Lexer.ReadToken`: no claim about the cursor after an error.
- `Parsing.Parser.ParseProgram`: no claim about the cursor after an error.
- `Parsing.Parser.ParseChild`: no claim about the cursor after an error.
- `Parsing.Parser.ParseExpression`: no claim about the cursor after an error.
- `Parsing.Parser.ParseList`: no claim about the cursor after an error.
- `Parsing.Parser.ParseListBody`: no claim about the cursor after an error.
- `Parsing.Parser.ParseItems`: no claim about the cursor after an error.
- `Parsing.Parser.ParseAtom`: no claim about the cursor after an error.
- `Trees.Node.AddChild` requires that the new child's structure does not contain the
  parent. Java allows a cycle, which no call in the parser creates.
- `TokenizeStep`, `ReadToken`, `ParseChild`, `ParseItems`, `ParseListBody`,
  `VisitBody` and `VisitNested` each name one loop body, or one range of statements,
  of the Java methods they are cited against. Each is a separate method so that it
  has its own contract.
- The printer's parse tree:
  - The ANTLR runtime, the generated `Aufgabe_3_1Parser`, its visitor interface and
    `Main.java` are not part of this model.
  - The printer runs over a datatype with the shape of the grammar's contexts.
  - `Printing.Stmt.While` allows an empty body, which the grammar's `stmt+` rules
    out (`src/main/java/Aufgabe_3_1Parser.java`, lines 330-340). The proved
    properties hold for every body, empty or not.
  - Dynamic dispatch of `visit` is a `match` on that datatype.
- Unreachable fallbacks: the `return ""` fallbacks of `visitStmt` (line 34) and
  `visitExpr` (line 99) cannot be reached by a well-formed tree, so they are not
  modelled.
- `Printing.VisitExpr`:
  - An assignment is always caught by the parenthesis test at line 82, because it
    has one sub-expression among three children. It therefore renders as
    "(" rhs ")".
  - The assignment branch at lines 87-89 is dead code and is not modelled.
- Integer width: `indentLevel` is a Java `int`. It is a `nat` here, because it never
  goes below zero and nesting deep enough to overflow it is out of scope.
- The semantic analyser, the tree-walking interpreter and the C++ tokenizer
  elsewhere in the repository are not part of this model.
