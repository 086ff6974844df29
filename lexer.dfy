/** The hand-written cursor-based lexer: a specification of the token list of the text
    that remains after the cursor, and the Lexer class proved against it. */
module Lexing {
  import opened Results
  import opened Tokens

  /** The three ways tokenizing can fail. */
  datatype LexError =
    | UnexpectedCharacter(c: char)
    | UnterminatedString
    | UnknownOperator(c: char)

  /** The runs of characters the lexer collects in its inner loops: the digits of a
      number, the letters and digits of a word, a comment up to its newline, and a
      string literal's text up to its closing quote. */
  datatype Run = Digits | WordChars | CommentChars | StringChars

  predicate InRun(run: Run, c: char) {
    match run
    case Digits => IsDigit(c)
    case WordChars => IsLetterOrDigit(c)
    case CommentChars => c != '\n'
    case StringChars => c != '"'
  }

  /** The length of the longest prefix of s made of characters of the run. */
  function RunLength(s: string, run: Run): (n: nat)
    ensures n <= |s|
    ensures forall k :: 0 <= k < n ==> InRun(run, s[k])
    ensures n < |s| ==> !InRun(run, s[n])
  {
    if s == [] || !InRun(run, s[0]) then 0 else 1 + RunLength(s[1..], run)
  }

  /** What one iteration of the lexer's loop does with the remaining text s: skip n
      characters, emit a token and consume n characters, or fail. The tests run in the
      lexer's order: whitespace, a ";;" comment, parentheses, a digit run, a string
      literal, an operator, a word; anything else is an unexpected character. */
  datatype Lexeme = Skip(n: nat) | Emit(tok: Token, n: nat) | Fail(error: LexError)

  function Step(s: string): (r: Lexeme)
    requires |s| > 0
    ensures !r.Fail? ==> 0 < r.n <= |s|
  {
    var c := s[0];
    if IsWhitespace(c) then Skip(1)
    else if c == ';' && 1 < |s| && s[1] == ';' then Skip(RunLength(s, CommentChars))
    else TokenLexeme(s)
  }

  /** The part of a step that reads a token: it starts where neither whitespace nor a
      comment does. */
  function TokenLexeme(s: string): (r: Lexeme)
    requires |s| > 0
    ensures !r.Skip?
    ensures r.Emit? ==> 0 < r.n <= |s|
  {
    var c := s[0];
    if c == '(' then Emit(Token(LPAREN, "("), 1)
    else if c == ')' then Emit(Token(RPAREN, ")"), 1)
    else if IsDigit(c) then
      var n := RunLength(s, Digits);
      Emit(Token(INT, s[..n]), n)
    else if c == '"' then
      var n := RunLength(s[1..], StringChars);
      if n == |s| - 1 then Fail(UnterminatedString) else Emit(Token(STRING, s[1..n + 1]), n + 2)
    else if IsOperatorStart(c) then
      match OperatorKind(c)
      case None => Fail(UnknownOperator(c))
      case Some(k) => Emit(Token(k, [c]), 1)
    else if IsLetter(c) then
      var n := RunLength(s, WordChars);
      Emit(Token(WordKind(s[..n]), s[..n]), n)
    else Fail(UnexpectedCharacter(c))
  }

  /** Puts t in front of the tokens of a successful result. */
  function Cons(t: Token, r: Result<seq<Token>, LexError>): Result<seq<Token>, LexError> {
    match r
    case Ok(ts) => Ok([t] + ts)
    case Err(e) => Err(e)
  }

  /** Puts the tokens already produced in front of the tokens of a successful result. */
  function Prepend(done: seq<Token>, r: Result<seq<Token>, LexError>): Result<seq<Token>, LexError> {
    match r
    case Ok(ts) => Ok(done + ts)
    case Err(e) => Err(e)
  }

  /** The tokens of the remaining text s: the steps repeated until nothing is left, then EOF. */
  function Scan(s: string): (r: Result<seq<Token>, LexError>)
    ensures r.Ok? ==> |r.value| > 0 && r.value[|r.value| - 1] == EofToken
    decreases |s|
  {
    if s == [] then Ok([EofToken])
    else
      match Step(s)
      case Skip(n) => Scan(s[n..])
      case Emit(t, n) => Cons(t, Scan(s[n..]))
      case Fail(e) => Err(e)
  }

  /** Emitting a token moves it from the scan of the rest onto the tokens already produced. */
  lemma Emitted(done: seq<Token>, s: string, t: Token, n: nat)
    requires |s| > 0 && Step(s) == Emit(t, n)
    ensures Prepend(done, Scan(s)) == Prepend(done + [t], Scan(s[n..]))
  {
    assert Scan(s) == Cons(t, Scan(s[n..]));
    PrependCons(done, t, Scan(s[n..]));
  }

  lemma PrependCons(done: seq<Token>, t: Token, r: Result<seq<Token>, LexError>)
    ensures Prepend(done, Cons(t, r)) == Prepend(done + [t], r)
  {
    if r.Ok? {
      assert done + ([t] + r.value) == (done + [t]) + r.value;
    }
  }

  /** The lexer: the input, its length and a cursor that never passes the length. */
  class Lexer {
    const input: string
    var pos: nat
    const length: nat

    ghost predicate Valid()
      reads this
    {
      length == |input| && pos <= length
    }

    /** The text from the cursor on. */
    ghost function Rest(): string
      reads this
      requires Valid()
    {
      input[pos..]
    }

    constructor (input: string)
      ensures Valid() && this.input == input && pos == 0
    {
      this.input := input;
      this.length := |input|;
      this.pos := 0;
    }

    /** The character under the cursor, or '\0' at the end. */
    function Peek(): (c: char)
      reads this
      requires Valid()
      ensures IsAtEnd() ==> c == '\0'
      ensures !IsAtEnd() ==> c == input[pos]
    {
      if pos < length then input[pos] else '\0'
    }

    /** Returns the character under the cursor and moves past it; at the end it
        returns '\0' and the cursor stays. */
    method Next() returns (c: char)
      requires Valid()
      modifies this
      ensures Valid() && c == old(Peek())
      ensures pos == if old(pos) < length then old(pos) + 1 else old(pos)
    {
      if pos < length {
        c := input[pos];
        pos := pos + 1;
      } else {
        c := '\0';
      }
    }

    function IsAtEnd(): (b: bool)
      reads this
      requires Valid()
      ensures b <==> pos == |input|
    {
      pos >= length
    }

    /** The whole input from the cursor on, as a token list ending in EOF. */
    method Tokenize() returns (r: Result<seq<Token>, LexError>)
      requires Valid()
      modifies this
      ensures Valid() && r == Scan(old(Rest()))
      ensures r.Ok? ==> pos == length
    {
      var tokens: seq<Token> := [];
      assert Scan(Rest()).Ok? ==> [] + Scan(Rest()).value == Scan(Rest()).value;
      while !IsAtEnd()
        invariant Valid() && old(pos) <= pos
        invariant Scan(old(Rest())) == Prepend(tokens, Scan(Rest()))
        decreases length - pos
      {
        ghost var rest := Rest();
        var step := TokenizeStep();
        match step {
          case Err(e) =>
            return Err(e);
          case Ok(None) =>
            assert rest[Step(rest).n..] == Rest();
          case Ok(Some(t)) =>
            assert rest[Step(rest).n..] == Rest();
            Emitted(tokens, rest, t, Step(rest).n);
            tokens := tokens + [t];
        }
      }
      tokens := tokens + [EofToken];
      return Ok(tokens);
    }

    /** One iteration of the tokenize loop with the cursor inside the input: skips
        whitespace or a comment (None), reads one token, or fails. */
    method TokenizeStep() returns (r: Result<Option<Token>, LexError>)
      requires Valid() && pos < length
      modifies this
      ensures Valid()
      ensures match Step(old(Rest()))
              case Skip(n) => r == Ok(None) && pos == old(pos) + n
              case Emit(t, n) => r == Ok(Some(t)) && pos == old(pos) + n
              case Fail(e) => r == Err(e)
    {
      var c := Peek();

      if IsWhitespace(c) {
        c := Next();
        return Ok(None);
      }

      if c == ';' && pos + 1 < length && input[pos + 1] == ';' {
        while !IsAtEnd() && Peek() != '\n'
          invariant Valid() && old(pos) <= pos
          invariant RunLength(old(Rest()), CommentChars) == pos - old(pos) + RunLength(Rest(), CommentChars)
          decreases length - pos
        {
          assert Rest()[1..] == input[pos + 1..];
          c := Next();
        }
        return Ok(None);
      }

      var t := ReadToken();
      match t {
        case Ok(tok) => return Ok(Some(tok));
        case Err(e) => return Err(e);
      }
    }

    /** The rest of the loop body: a parenthesis, a number, a string, an operator or a
        word, or the unexpected-character error. */
    method ReadToken() returns (r: Result<Token, LexError>)
      requires Valid() && pos < length
      modifies this
      ensures Valid()
      ensures match TokenLexeme(old(Rest()))
              case Skip(_) => false
              case Emit(t, n) => r == Ok(t) && pos == old(pos) + n
              case Fail(e) => r == Err(e)
    {
      ghost var s := Rest();
      var c := Peek();
      if c == '(' { c := Next(); return Ok(Token(LPAREN, "(")); }
      if c == ')' { c := Next(); return Ok(Token(RPAREN, ")")); }

      if IsDigit(c) {
        var t := ReadNumber();
        assert s[..pos - old(pos)] == input[old(pos)..pos];
        return Ok(t);
      }

      if c == '"' {
        r := ReadString();
        return;
      }

      if IsOperatorStart(c) {
        r := ReadOperator();
        return;
      }

      if IsLetter(c) {
        var t := ReadIdentifierOrKeyword();
        assert s[..pos - old(pos)] == input[old(pos)..pos];
        return Ok(t);
      }

      return Err(UnexpectedCharacter(c));
    }

    /** Reads the maximal digit run at the cursor as one INT token. */
    method ReadNumber() returns (t: Token)
      requires Valid()
      modifies this
      ensures Valid() && pos == old(pos) + RunLength(old(Rest()), Digits)
      ensures t == Token(INT, input[old(pos)..pos])
    {
      var sb := "";
      while IsDigit(Peek())
        invariant Valid() && old(pos) <= pos
        invariant sb == input[old(pos)..pos]
        invariant RunLength(old(Rest()), Digits) == pos - old(pos) + RunLength(Rest(), Digits)
        decreases length - pos
      {
        assert Rest()[1..] == input[pos + 1..];
        var c := Next();
        sb := sb + [c];
      }
      t := Token(INT, sb);
    }

    /** Reads a string literal: skips the opening quote, collects up to the closing quote
        and consumes it; reaching the end first is an error. */
    method ReadString() returns (r: Result<Token, LexError>)
      requires Valid() && pos < length
      modifies this
      ensures Valid()
      ensures var s := old(Rest());
              var n := RunLength(s[1..], StringChars);
              if n == |s| - 1 then r == Err(UnterminatedString) && pos == length
              else r == Ok(Token(STRING, s[1..n + 1])) && pos == old(pos) + n + 2
    {
      var c := Next();
      assert old(Rest())[1..] == Rest();
      ghost var i := pos;
      var sb := "";
      while Peek() != '"' && !IsAtEnd()
        invariant Valid() && i <= pos
        invariant sb == input[i..pos]
        invariant RunLength(input[i..], StringChars) == pos - i + RunLength(Rest(), StringChars)
        decreases length - pos
      {
        assert Rest()[1..] == input[pos + 1..];
        c := Next();
        sb := sb + [c];
      }
      if IsAtEnd() {
        return Err(UnterminatedString);
      }
      assert old(Rest())[1..pos - old(pos)] == sb;
      c := Next();
      r := Ok(Token(STRING, sb));
    }

    /** Reads a one-character operator; any other character is an unknown operator. */
    method ReadOperator() returns (r: Result<Token, LexError>)
      requires Valid()
      modifies this
      ensures Valid() && pos == if old(pos) < length then old(pos) + 1 else old(pos)
      ensures var c := old(Peek());
              match OperatorKind(c)
              case Some(k) => r == Ok(Token(k, [c]))
              case None => r == Err(UnknownOperator(c))
    {
      var c := Next();
      match OperatorKind(c)
      case Some(k) => r := Ok(Token(k, [c]));
      case None => r := Err(UnknownOperator(c));
    }

    /** Reads a maximal run of letters and digits and classifies it. */
    method ReadIdentifierOrKeyword() returns (t: Token)
      requires Valid()
      modifies this
      ensures Valid() && pos == old(pos) + RunLength(old(Rest()), WordChars)
      ensures t == Token(WordKind(input[old(pos)..pos]), input[old(pos)..pos])
    {
      var sb := "";
      while IsLetterOrDigit(Peek())
        invariant Valid() && old(pos) <= pos
        invariant sb == input[old(pos)..pos]
        invariant RunLength(old(Rest()), WordChars) == pos - old(pos) + RunLength(Rest(), WordChars)
        decreases length - pos
      {
        assert Rest()[1..] == input[pos + 1..];
        var c := Next();
        sb := sb + [c];
      }
      var word := sb;
      t := Token(WordKind(word), word);
    }
  }

  /** Runs a fresh lexer over the whole of code. */
  method Lex(code: string) returns (r: Result<seq<Token>, LexError>)
    ensures r == Scan(code)
  {
    var lexer := new Lexer(code);
    assert lexer.Rest() == code;
    r := lexer.Tokenize();
  }
}
