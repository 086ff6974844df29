/** Properties of the parser's specification: where each loop stops, how a list ends,
    and what an unclosed list or a stray ")" does. */
module ParserFacts {
  import opened Results
  import opened Seqs
  import opened Tokens
  import opened Trees
  import opened Parsing

  /** The atom kinds are exactly the twenty-two token kinds the atom parser lists. */
  lemma AtomKindsListed(k: TokenType)
    ensures IsAtomKind(k) <==> k in {INT, STRING, BOOLEAN, IDENT, PLUS, MINUS, MUL, DIV, EQ, LT, GT,
      PRINT, STR, IF, DO, DEF, DEFN, LET, LIST, HEAD, TAIL, NTH}
  {
  }

  /** The program loop keeps the trees already done and stops only on EOF. */
  lemma ProgramItemsEnd(ts: seq<Token>, done: seq<Tree>, k: nat)
    ensures ProgramItems(ts, done, k).Ok? ==>
      var (cs, m) := ProgramItems(ts, done, k).value;
      done <= cs && First(ts[m - k..]).kind == EOF
  {
    ProgramRemainsEnd(ts, done, k);
  }

  lemma {:induction false} ProgramRemainsEnd(ts: seq<Token>, done: seq<Tree>, k: nat)
    ensures var r := ProgramRemains(ts, done, k);
      r.Ok? ==> (k <= r.value.1 <= k + |ts| && done <= r.value.0
        && First(ts[r.value.1 - k..]).kind == EOF)
    decreases |ts|
  {
    if First(ts).kind != EOF {
      match ExprAt(ts)
      case Err(_) =>
      case Ok((c, n)) =>
        ProgramItemsStep(ts, done, k, c, n, ts[n..]);
        ProgramRemainsEnd(ts[n..], done + [c], k + n);
        var r := ProgramRemains(ts[n..], done + [c], k + n);
        if r.Ok? {
          DropDrop(ts, n, r.value.1 - k);
        }
    }
  }

  /** The list loop keeps the trees already done and stops only on ")" or EOF. */
  lemma ListItemsEnd(ts: seq<Token>, done: seq<Tree>, k: nat)
    ensures ListItems(ts, done, k).Ok? ==>
      var (cs, m) := ListItems(ts, done, k).value;
      done <= cs && (First(ts[m - k..]).kind == RPAREN || First(ts[m - k..]).kind == EOF)
  {
    ListRemainsEnd(ts, done, k);
  }

  lemma {:induction false} ListRemainsEnd(ts: seq<Token>, done: seq<Tree>, k: nat)
    ensures var r := ListRemains(ts, done, k);
      r.Ok? ==> (k <= r.value.1 <= k + |ts| && done <= r.value.0
        && (First(ts[r.value.1 - k..]).kind == RPAREN || First(ts[r.value.1 - k..]).kind == EOF))
    decreases |ts|
  {
    var t := First(ts);
    if t.kind != RPAREN && t.kind != EOF {
      match ExprAt(ts)
      case Err(_) =>
      case Ok((c, n)) =>
        ListItemsStep(ts, done, k, c, n, ts[n..]);
        ListRemainsEnd(ts[n..], done + [c], k + n);
        var r := ListRemains(ts[n..], done + [c], k + n);
        if r.Ok? {
          DropDrop(ts, n, r.value.1 - k);
        }
    }
  }

  /** A parsed program ends exactly at an EOF token (or at the end of the tokens). */
  lemma ProgramStopsAtEof(ts: seq<Token>)
    ensures ProgramAt(ts).Ok? ==> First(ts[ProgramAt(ts).value.1..]).kind == EOF
  {
    ProgramItemsEnd(ts, [], 0);
  }

  /** Once the list body is read, the list is closed by ")" or fails on EOF with the
      expect error. */
  lemma ListBodyVerdict(ts: seq<Token>)
    ensures ListItems(ts, [], 0).Ok? ==>
      var (cs, m) := ListItems(ts, [], 0).value;
      (First(ts[m..]).kind == RPAREN && ListBody(ts) == Ok((Tree("List", cs), m + 1)))
      || (First(ts[m..]).kind == EOF && ListBody(ts) == Err(Expected(RPAREN, EOF)))
  {
    ListItemsEnd(ts, [], 0);
  }

  /** A list is "(", a body that reads up to a ")", and that ")". */
  lemma ListAtClosed(ts: seq<Token>, cs: seq<Tree>, m: nat)
    requires First(ts).kind == LPAREN && ListItems(ts[1..], [], 0) == Ok((cs, m))
    requires First(ts[1..][m..]).kind == RPAREN
    ensures ListAt(ts) == Ok((Tree("List", cs), m + 2))
  {
  }

  /** An accepted list starts with "(", its body reads up to a ")", and it ends with that
      ")". */
  lemma ListAtParts(ts: seq<Token>)
    requires ListAt(ts).Ok?
    ensures First(ts).kind == LPAREN && ListItems(ts[1..], [], 0).Ok?
    ensures var (cs, m) := ListItems(ts[1..], [], 0).value;
      1 + m < |ts| && ts[1 + m].kind == RPAREN && ListAt(ts).value == (Tree("List", cs), m + 2)
  {
    var (cs, m) := ListItems(ts[1..], [], 0).value;
    assert First(ts[1..][m..]).kind == RPAREN;
  }

  /** A token list with no ")" at all. */
  predicate NoClose(ts: seq<Token>) {
    forall i :: 0 <= i < |ts| ==> ts[i].kind != RPAREN
  }

  lemma NoCloseSuffix(ts: seq<Token>, n: nat)
    requires NoClose(ts) && n <= |ts|
    ensures NoClose(ts[n..])
  {
    assert forall i :: 0 <= i < |ts| - n ==> ts[n..][i] == ts[n + i];
  }

  /** A list that is never closed fails with "expected RPAREN but found EOF". */
  lemma {:induction false} UnclosedListFails(ts: seq<Token>)
    requires First(ts).kind == LPAREN && NoClose(ts)
    ensures ListAt(ts) == Err(Expected(RPAREN, EOF))
    decreases |ts|, 0
  {
    NoCloseSuffix(ts, 1);
    UnclosedItems(ts[1..], [], 0);
    ListItemsEnd(ts[1..], [], 0);
  }

  /** Without any ")", an expression either fails as an unclosed list or is an atom. */
  lemma {:induction false} UnclosedExpr(ts: seq<Token>)
    requires First(ts).kind != EOF && NoClose(ts)
    ensures First(ts).kind == LPAREN ==> ExprAt(ts) == Err(Expected(RPAREN, EOF))
    ensures First(ts).kind != LPAREN ==> ExprAt(ts).Ok?
    decreases |ts|, 1
  {
    if First(ts).kind == LPAREN {
      UnclosedListFails(ts);
    }
  }

  /** Without any ")", the list loop either meets an unclosed list or runs to EOF. */
  lemma {:induction false} UnclosedItems(ts: seq<Token>, done: seq<Tree>, k: nat)
    requires NoClose(ts)
    ensures ListItems(ts, done, k) == Err(Expected(RPAREN, EOF)) || ListItems(ts, done, k).Ok?
    decreases |ts|, 2
  {
    var t := First(ts);
    if t.kind != RPAREN && t.kind != EOF {
      UnclosedExpr(ts);
      match ExprAt(ts)
      case Err(_) =>
      case Ok((c, n)) =>
        NoCloseSuffix(ts, n);
        UnclosedItems(ts[n..], done + [c], k + n);
    }
  }

  /** A ")" where an expression should start is an unexpected token, inside a list body
      as well as at the top level. */
  lemma StrayCloseFails(ts: seq<Token>)
    requires First(ts).kind == RPAREN
    ensures ExprAt(ts) == Err(UnexpectedToken(RPAREN))
    ensures ProgramAt(ts) == Err(UnexpectedToken(RPAREN))
  {
    assert ProgramItems(ts, [], 0) == Err(UnexpectedToken(RPAREN));
  }
}
