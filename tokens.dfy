/** Tokens of the Lisp-style language and the character classes the lexer uses. */
module Tokens {
  import opened Results

  /** The token kinds, one per enum constant. */
  datatype TokenType =
    | LPAREN | RPAREN
    | PLUS | MINUS | MUL | DIV
    | EQ | LT | GT
    | PRINT | STR | IF | DO | DEF | DEFN | LET | HEAD | TAIL | LIST | NTH
    | INT | STRING | BOOLEAN
    | IDENT
    | EOF

  /** An immutable token: its kind and the text it carries. */
  datatype Token = Token(kind: TokenType, value: string)

  /** The end-of-input sentinel. */
  const EofToken := Token(EOF, "")

  // Character classes, restricted to ASCII.

  predicate IsWhitespace(c: char) {
    c == ' ' || c == '\t' || c == '\n' || c == '\U{000B}' || c == '\U{000C}' || c == '\r'
    || ('\U{001C}' <= c <= '\U{001F}')
  }

  predicate IsDigit(c: char) {
    '0' <= c <= '9'
  }

  predicate IsLetter(c: char) {
    ('a' <= c <= 'z') || ('A' <= c <= 'Z')
  }

  predicate IsLetterOrDigit(c: char) {
    IsLetter(c) || IsDigit(c)
  }

  /** The characters that send the lexer to its operator reader; '\0' is among them. */
  predicate IsOperatorStart(c: char) {
    c == '+' || c == '-' || c == '*' || c == '/' || c == '=' || c == '<' || c == '>' || c == '\0'
  }

  /** The kind of a one-character operator, or None for a character that is not one. */
  function OperatorKind(c: char): (k: Option<TokenType>)
    ensures k.Some? ==> IsOperatorStart(c) && IsOperatorType(k.value)
    ensures IsOperatorStart(c) ==> (k.None? <==> c == '\0')
  {
    match c
    case '+' => Some(PLUS)
    case '-' => Some(MINUS)
    case '*' => Some(MUL)
    case '/' => Some(DIV)
    case '=' => Some(EQ)
    case '<' => Some(LT)
    case '>' => Some(GT)
    case _ => None
  }

  /** The kind a word gets: one of the eleven keywords, BOOLEAN for true/false, otherwise IDENT. */
  function WordKind(w: string): (k: TokenType)
    ensures IsWordType(k)
    ensures k == BOOLEAN <==> w == "true" || w == "false"
    ensures k == IDENT <==> w !in Keywords && w != "true" && w != "false"
  {
    match w
    case "print" => PRINT
    case "str" => STR
    case "if" => IF
    case "do" => DO
    case "def" => DEF
    case "defn" => DEFN
    case "let" => LET
    case "list" => LIST
    case "head" => HEAD
    case "tail" => TAIL
    case "nth" => NTH
    case "true" => BOOLEAN
    case "false" => BOOLEAN
    case _ => IDENT
  }

  const Keywords: set<string> :=
    {"print", "str", "if", "do", "def", "defn", "let", "list", "head", "tail", "nth"}

  predicate IsOperatorType(k: TokenType) {
    k in {PLUS, MINUS, MUL, DIV, EQ, LT, GT}
  }

  predicate IsWordType(k: TokenType) {
    k in {PRINT, STR, IF, DO, DEF, DEFN, LET, HEAD, TAIL, LIST, NTH, BOOLEAN, IDENT}
  }

  /** A letter followed by letters or digits. */
  predicate IsWord(w: string) {
    |w| > 0 && IsLetter(w[0]) && forall k :: 0 <= k < |w| ==> IsLetterOrDigit(w[k])
  }

  /** A token the lexer can produce before the EOF sentinel: its text agrees with its kind. */
  predicate WellFormed(t: Token) {
    match t.kind
    case LPAREN => t.value == "("
    case RPAREN => t.value == ")"
    case INT => |t.value| > 0 && forall k :: 0 <= k < |t.value| ==> IsDigit(t.value[k])
    case STRING => forall k :: 0 <= k < |t.value| ==> t.value[k] != '"'
    case EOF => false
    case _ =>
      if IsOperatorType(t.kind) then |t.value| == 1 && OperatorKind(t.value[0]) == Some(t.kind)
      else IsWord(t.value) && WordKind(t.value) == t.kind
  }
}
