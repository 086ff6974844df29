/** Properties of the lexer's specification: the EOF sentinel, the shape of every token,
    that trivia is ignored, the error cases, and that spelling tokens out and scanning
    them again gives them back. */
module LexerFacts {
  import opened Results
  import opened Seqs
  import opened Tokens
  import opened Lexing

  /** The operator-start test is membership in the lexer's string of operator characters,
      which ends with NUL. */
  lemma OperatorStartListed(c: char)
    ensures IsOperatorStart(c) <==> c in "+-*/=<>\0"
  {
  }

  /** RunLength is the one length that closes the run. */
  lemma {:induction false} RunLengthExact(s: string, n: nat, run: Run)
    requires n <= |s|
    requires forall k :: 0 <= k < n ==> InRun(run, s[k])
    requires n < |s| ==> !InRun(run, s[n])
    ensures RunLength(s, run) == n
  {
    if n > 0 {
      RunLengthExact(s[1..], n - 1, run);
    }
  }

  /** Every token a step emits is well formed (and so is never EOF). */
  lemma StepWellFormed(s: string)
    requires |s| > 0
    ensures Step(s).Emit? ==> WellFormed(Step(s).tok)
  {
    var c := s[0];
    if IsDigit(c) {
      DigitsWellFormed(s, RunLength(s, Digits));
    } else if c == '"' {
      QuotedWellFormed(s[1..], RunLength(s[1..], StringChars));
    } else if !IsOperatorStart(c) && IsLetter(c) {
      WordWellFormed(s, RunLength(s, WordChars));
    }
  }

  lemma DigitsWellFormed(s: string, n: nat)
    requires 0 < n <= |s| && forall k :: 0 <= k < n ==> IsDigit(s[k])
    ensures WellFormed(Token(INT, s[..n]))
  {
    assert forall k :: 0 <= k < n ==> s[..n][k] == s[k];
  }

  lemma QuotedWellFormed(s: string, n: nat)
    requires n <= |s| && forall k :: 0 <= k < n ==> s[k] != '"'
    ensures WellFormed(Token(STRING, s[..n]))
  {
    assert forall k :: 0 <= k < n ==> s[..n][k] == s[k];
  }

  lemma WordWellFormed(s: string, n: nat)
    requires 0 < n <= |s| && IsLetter(s[0]) && forall k :: 0 <= k < n ==> IsLetterOrDigit(s[k])
    ensures WellFormed(Token(WordKind(s[..n]), s[..n]))
  {
    assert forall k :: 0 <= k < n ==> s[..n][k] == s[k];
    assert IsWord(s[..n]);
  }

  /** A token list that ends with the single EOF sentinel, with value "", and has no
      earlier EOF. */
  predicate EofTerminated(ts: seq<Token>) {
    |ts| > 0 && ts[|ts| - 1] == EofToken
    && forall k :: 0 <= k < |ts| - 1 ==> ts[k].kind != EOF
  }

  /** A token list whose tokens before the last one are all well formed. */
  predicate WellFormedBeforeLast(ts: seq<Token>) {
    forall k :: 0 <= k < |ts| - 1 ==> WellFormed(ts[k])
  }

  lemma ConsKeepsShape(t: Token, ts: seq<Token>)
    requires WellFormed(t)
    ensures EofTerminated(ts) ==> EofTerminated([t] + ts)
    ensures WellFormedBeforeLast(ts) ==> WellFormedBeforeLast([t] + ts)
  {
    var us := [t] + ts;
    assert forall k :: 1 <= k < |us| ==> us[k] == ts[k - 1];
  }

  /** A successful scan ends with the single EOF sentinel, with value "", and no earlier
      token is EOF; every token before the sentinel is well formed. */
  lemma {:induction false} ScanShape(s: string)
    ensures Scan(s).Ok? ==> EofTerminated(Scan(s).value) && WellFormedBeforeLast(Scan(s).value)
    decreases |s|
  {
    if s != [] {
      match Step(s)
      case Skip(n) =>
        assert Scan(s) == Scan(s[n..]);
        ScanShape(s[n..]);
      case Emit(t, n) =>
        var r := Scan(s[n..]);
        assert Scan(s) == Cons(t, r);
        StepWellFormed(s);
        ScanShape(s[n..]);
        if r.Ok? {
          ConsKeepsShape(t, r.value);
        }
      case Fail(_) =>
    }
  }

  /** Leading whitespace produces no tokens. */
  lemma {:induction false} WhitespaceIgnored(w: string, s: string)
    requires forall k :: 0 <= k < |w| ==> IsWhitespace(w[k])
    ensures Scan(w + s) == Scan(s)
    decreases |w|
  {
    if w != [] {
      assert (w + s)[1..] == w[1..] + s;
      assert Step(w + s) == Skip(1);
      assert Scan(w + s) == Scan(w[1..] + s);
      WhitespaceIgnored(w[1..], s);
    } else {
      assert w + s == s;
    }
  }

  /** A ";;" comment up to a newline or the end produces no tokens. */
  lemma CommentIgnored(c: string, s: string)
    requires |c| >= 2 && c[0] == ';' && c[1] == ';'
    requires forall k :: 0 <= k < |c| ==> c[k] != '\n'
    requires s == [] || s[0] == '\n'
    ensures Scan(c + s) == Scan(s)
  {
    var t := c + s;
    RunLengthExact(t, |c|, CommentChars);
    assert Step(t) == Skip(|c|);
    assert t[|c|..] == s;
  }

  /** A single ';' that does not start a comment is an unexpected character. */
  lemma LoneSemicolonFails(s: string)
    requires |s| > 0 && s[0] == ';' && (|s| == 1 || s[1] != ';')
    ensures Scan(s) == Err(UnexpectedCharacter(';'))
  {
    assert Step(s) == Fail(UnexpectedCharacter(';'));
  }

  /** A NUL character is taken for an operator and then rejected as an unknown one. */
  lemma NulIsUnknownOperator(s: string)
    requires |s| > 0 && s[0] == '\0'
    ensures Scan(s) == Err(UnknownOperator('\0'))
  {
    assert Step(s) == Fail(UnknownOperator('\0'));
  }

  /** An opening quote with no closing quote after it is an unterminated string. */
  lemma UnclosedStringFails(s: string)
    requires |s| > 0 && s[0] == '"'
    requires forall k :: 1 <= k < |s| ==> s[k] != '"'
    ensures Scan(s) == Err(UnterminatedString)
  {
    RunLengthExact(s[1..], |s| - 1, StringChars);
  }

  /** The source text of a token: its value, in quotes for a STRING. */
  function Spell(t: Token): string {
    if t.kind == STRING then ['"'] + t.value + ['"'] else t.value
  }

  /** Tokens spelled out, each followed by a space. */
  function Render(ts: seq<Token>): string {
    if ts == [] then "" else Spell(ts[0]) + " " + Render(ts[1..])
  }

  /** A well-formed token spelled out and followed by whitespace is read back as itself. */
  lemma StepSpelled(t: Token, rest: string)
    requires WellFormed(t) && |rest| > 0 && IsWhitespace(rest[0])
    ensures Step(Spell(t) + rest) == Emit(t, |Spell(t)|)
  {
    if t.kind == STRING {
      StringLexeme(t.value, rest);
    } else if t.kind == INT {
      IntLexeme(t.value, rest);
    } else if t.kind == LPAREN || t.kind == RPAREN || IsOperatorType(t.kind) {
      SingleLexeme(t, rest);
    } else {
      WordLexeme(t.value, rest);
    }
  }

  lemma StringLexeme(v: string, rest: string)
    requires forall k :: 0 <= k < |v| ==> v[k] != '"'
    ensures var s := ['"'] + v + ['"'] + rest; Step(s) == Emit(Token(STRING, v), |v| + 2)
  {
    SpelledString(v, rest);
  }

  lemma IntLexeme(v: string, rest: string)
    requires |v| > 0 && forall k :: 0 <= k < |v| ==> IsDigit(v[k])
    requires |rest| > 0 && IsWhitespace(rest[0])
    ensures Step(v + rest) == Emit(Token(INT, v), |v|)
  {
    SpelledRun(v, rest, Digits);
  }

  lemma WordLexeme(v: string, rest: string)
    requires IsWord(v) && |rest| > 0 && IsWhitespace(rest[0])
    ensures Step(v + rest) == Emit(Token(WordKind(v), v), |v|)
  {
    SpelledRun(v, rest, WordChars);
  }

  lemma SingleLexeme(t: Token, rest: string)
    requires t.kind == LPAREN || t.kind == RPAREN || IsOperatorType(t.kind)
    requires WellFormed(t)
    ensures Step(t.value + rest) == Emit(t, 1)
  {
    assert (t.value + rest)[0] == t.value[0];
  }

  lemma SpelledString(v: string, rest: string)
    requires forall k :: 0 <= k < |v| ==> v[k] != '"'
    ensures var s := ['"'] + v + ['"'] + rest;
      RunLength(s[1..], StringChars) == |v| && s[1..|v| + 1] == v
  {
    var s := ['"'] + v + ['"'] + rest;
    assert forall k :: 0 <= k < |v| ==> s[1..][k] == v[k];
    assert s[1..][|v|] == '"';
    RunLengthExact(s[1..], |v|, StringChars);
    assert s[1..|v| + 1] == v;
  }

  lemma SpelledRun(v: string, rest: string, run: Run)
    requires forall k :: 0 <= k < |v| ==> InRun(run, v[k])
    requires |rest| > 0 && !InRun(run, rest[0])
    ensures var s := v + rest; |v| <= |s| && RunLength(s, run) == |v| && s[..|v|] == v
  {
    var s := v + rest;
    assert forall k :: 0 <= k < |v| ==> s[k] == v[k];
    assert s[|v|] == rest[0];
    RunLengthExact(s, |v|, run);
    assert s[..|v|] == v;
  }

  /** A token spelled out and followed by a space is scanned as itself, then the rest. */
  lemma ScanSpelled(t: Token, rest: string)
    requires WellFormed(t)
    ensures Scan(Spell(t) + " " + rest) == Cons(t, Scan(rest))
  {
    var w := Spell(t);
    AppendAssoc(w, " ", rest);
    StepSpelled(t, " " + rest);
    ScanEmit(w + (" " + rest), t, |w|);
    assert (w + (" " + rest))[|w|..] == " " + rest;
    WhitespaceIgnored(" ", rest);
  }

  lemma ScanEmit(s: string, t: Token, n: nat)
    requires |s| > 0 && Step(s) == Emit(t, n)
    ensures Scan(s) == Cons(t, Scan(s[n..]))
  {
  }

  /** Spelling well-formed tokens out and scanning the text gives the tokens back,
      followed by EOF. */
  lemma ScanRender(ts: seq<Token>)
    requires forall k :: 0 <= k < |ts| ==> WellFormed(ts[k])
    ensures Scan(Render(ts)) == Ok(ts + [EofToken])
  {
    RescannedAll(ts);
  }

  /** The scan of the spelled-out tokens, a name the induction below unfolds only when
      told to. */
  ghost function Rescanned(ts: seq<Token>): Result<seq<Token>, LexError> {
    Scan(Render(ts))
  }

  lemma RescannedCons(ts: seq<Token>)
    requires |ts| > 0 && WellFormed(ts[0])
    ensures Rescanned(ts) == Cons(ts[0], Rescanned(ts[1..]))
  {
    ScanSpelled(ts[0], Render(ts[1..]));
  }

  lemma {:induction false} RescannedAll(ts: seq<Token>)
    requires forall k :: 0 <= k < |ts| ==> WellFormed(ts[k])
    ensures Rescanned(ts) == Ok(ts + [EofToken])
    decreases |ts|
  {
    if ts != [] {
      RescannedCons(ts);
      assert forall k :: 0 <= k < |ts[1..]| ==> ts[1..][k] == ts[k + 1];
      RescannedAll(ts[1..]);
      ConsAppend(ts, EofToken);
    } else {
      assert ts + [EofToken] == [EofToken];
    }
  }

  /** The tokens before the sentinel of a scan result, and the sentinel put back. */
  lemma BeforeSentinel(ts: seq<Token>, front: seq<Token>)
    requires EofTerminated(ts) && WellFormedBeforeLast(ts) && front == ts[..|ts| - 1]
    ensures forall k :: 0 <= k < |front| ==> WellFormed(front[k])
    ensures front + [EofToken] == ts
  {
  }

  /** Scanning the spelled-out tokens of a successful scan gives the same tokens again. */
  lemma RescanIsStable(s: string)
    requires Scan(s).Ok?
    ensures var ts := Scan(s).value;
      |ts| > 0 && Scan(Render(ts[..|ts| - 1])) == Scan(s)
  {
    var ts := Scan(s).value;
    ScanShape(s);
    BeforeSentinel(ts, ts[..|ts| - 1]);
    ScanRender(ts[..|ts| - 1]);
  }
}
