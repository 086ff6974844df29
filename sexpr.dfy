/** S-expressions as the token lists they are spelled with: the parser reads back
    exactly the s-expressions, and lexing their spelled-out text and parsing the tokens
    yields their trees. */
module SExprs {
  import opened Seqs
  import opened Results
  import opened Tokens
  import opened Trees
  import opened Lexing
  import opened LexerFacts
  import opened Parsing
  import opened ParserFacts

  /** An atom token, or a group of s-expressions between an opening and a closing
      token. */
  datatype SExpr =
    | Atom(tok: Token)
    | Group(open: Token, items: seq<SExpr>, close: Token)

  /** The tokens an s-expression is written with. */
  function Flatten(e: SExpr): (ts: seq<Token>)
    ensures |ts| > 0
    decreases e, 1
  {
    match e
    case Atom(t) => [t]
    case Group(o, items, c) => [o] + FlattenAll(items) + [c]
  }

  function FlattenAll(es: seq<SExpr>): (ts: seq<Token>)
    ensures es == [] <==> ts == []
    decreases es, 0
  {
    if es == [] then [] else Flatten(es[0]) + FlattenAll(es[1..])
  }

  /** The parse tree of an s-expression: a leaf with the atom's text, or a "List" node. */
  function ToTree(e: SExpr): Tree
    decreases e, 1
  {
    match e
    case Atom(t) => Tree(t.value, [])
    case Group(_, items, _) => Tree("List", ToTrees(items))
  }

  function ToTrees(es: seq<SExpr>): (r: seq<Tree>)
    ensures |r| == |es|
    decreases es, 0
  {
    if es == [] then [] else [ToTree(es[0])] + ToTrees(es[1..])
  }

  /** An s-expression the parser accepts: atoms of atom kind, groups between "(" and ")". */
  predicate Parsable(e: SExpr)
    decreases e, 1
  {
    match e
    case Atom(t) => IsAtomKind(t.kind)
    case Group(o, items, c) => o.kind == LPAREN && c.kind == RPAREN && AllParsable(items)
  }

  predicate AllParsable(es: seq<SExpr>)
    decreases es, 0
  {
    forall i :: 0 <= i < |es| ==> Parsable(es[i])
  }

  lemma AllParsableTail(es: seq<SExpr>)
    requires es != [] && AllParsable(es)
    ensures Parsable(es[0]) && AllParsable(es[1..])
  {
    assert forall i :: 0 <= i < |es| - 1 ==> es[1..][i] == es[i + 1];
  }

  lemma AllParsableCons(e: SExpr, es: seq<SExpr>)
    requires Parsable(e) && AllParsable(es)
    ensures AllParsable([e] + es)
  {
    assert forall i :: 1 <= i < |es| + 1 ==> ([e] + es)[i] == es[i - 1];
  }

  /** The first token of a parsable s-expression is "(" or an atom, and so never ")" or
      EOF. */
  lemma FirstOfParsable(e: SExpr, rest: seq<Token>)
    requires Parsable(e)
    ensures First(Flatten(e) + rest) == Flatten(e)[0]
    ensures First(Flatten(e) + rest).kind == LPAREN || IsAtomKind(First(Flatten(e) + rest).kind)
  {
  }

  /** The first s-expression of a non-empty sequence, and what follows it. */
  lemma FlattenFront(es: seq<SExpr>, tail: seq<Token>)
    requires es != [] && Parsable(es[0])
    ensures var ts, after := FlattenAll(es) + tail, FlattenAll(es[1..]) + tail;
      var n := |Flatten(es[0])|;
      ts == Flatten(es[0]) + after && ts[n..] == after
      && First(ts) == Flatten(es[0])[0]
      && (First(ts).kind == LPAREN || IsAtomKind(First(ts).kind))
      && |FlattenAll(es)| == n + |FlattenAll(es[1..])|
      && ToTrees(es) == [ToTree(es[0])] + ToTrees(es[1..])
  {
    var ts, after := FlattenAll(es) + tail, FlattenAll(es[1..]) + tail;
    AppendAssoc(Flatten(es[0]), FlattenAll(es[1..]), tail);
    FirstOfParsable(es[0], after);
    assert ts[|Flatten(es[0])|..] == after;
  }

  // Completeness: the parser reads every parsable s-expression back.

  /** An expression parses as its tree and consumes exactly its tokens, whatever
      follows. */
  lemma {:induction false} ExprComplete(e: SExpr, rest: seq<Token>)
    requires Parsable(e)
    ensures ExprAt(Flatten(e) + rest) == Ok((ToTree(e), |Flatten(e)|))
    decreases e, 2
  {
    match e
    case Atom(t) =>
      assert (Flatten(e) + rest)[0] == t;
    case Group(o, items, c) =>
      var ts := Flatten(e) + rest;
      var body := FlattenAll(items);
      var tail := [c] + rest;
      assert ts[1..] == body + tail;
      ItemsComplete(items, tail, [], 0);
      assert [] + ToTrees(items) == ToTrees(items);
      assert ts[1..][|body|..] == tail;
      ListAtClosed(ts, ToTrees(items), |body|);
  }

  /** The list loop reads parsable s-expressions one after another up to a closing token
      or EOF. */
  lemma ItemsComplete(es: seq<SExpr>, tail: seq<Token>, done: seq<Tree>, k: nat)
    requires AllParsable(es)
    requires First(tail).kind == RPAREN || First(tail).kind == EOF
    ensures ListItems(FlattenAll(es) + tail, done, k) == Ok((done + ToTrees(es), k + |FlattenAll(es)|))
    decreases es, 1
  {
    ItemsRemain(es, tail, done, k);
  }

  lemma {:induction false} ItemsRemain(es: seq<SExpr>, tail: seq<Token>, done: seq<Tree>, k: nat)
    requires AllParsable(es)
    requires First(tail).kind == RPAREN || First(tail).kind == EOF
    ensures ListRemains(FlattenAll(es) + tail, done, k) == Ok((done + ToTrees(es), k + |FlattenAll(es)|))
    decreases es, 0
  {
    if es == [] {
      assert FlattenAll(es) + tail == tail;
      assert done + ToTrees(es) == done;
    } else {
      AllParsableTail(es);
      var e, more := es[0], es[1..];
      var ts, after := FlattenAll(es) + tail, FlattenAll(more) + tail;
      var n := |Flatten(e)|;
      FlattenFront(es, tail);
      ExprComplete(e, after);
      ItemsRemain(more, tail, done + [ToTree(e)], k + n);
      ListItemsStep(ts, done, k, ToTree(e), n, after);
      AppendAssoc(done, [ToTree(e)], ToTrees(more));
    }
  }

  /** The program loop reads parsable s-expressions one after another up to EOF. */
  lemma {:induction false} ProgramItemsComplete(es: seq<SExpr>, tail: seq<Token>, done: seq<Tree>, k: nat)
    requires AllParsable(es) && First(tail).kind == EOF
    ensures ProgramRemains(FlattenAll(es) + tail, done, k) == Ok((done + ToTrees(es), k + |FlattenAll(es)|))
    decreases es
  {
    if es == [] {
      assert FlattenAll(es) + tail == tail;
      assert done + ToTrees(es) == done;
    } else {
      AllParsableTail(es);
      var e, more := es[0], es[1..];
      var ts, after := FlattenAll(es) + tail, FlattenAll(more) + tail;
      var n := |Flatten(e)|;
      FlattenFront(es, tail);
      ExprComplete(e, after);
      ProgramItemsComplete(more, tail, done + [ToTree(e)], k + n);
      ProgramItemsStep(ts, done, k, ToTree(e), n, after);
      AppendAssoc(done, [ToTree(e)], ToTrees(more));
    }
  }

  /** A program of parsable s-expressions followed by EOF parses as a "Program" node over
      their trees. */
  lemma ProgramComplete(es: seq<SExpr>, tail: seq<Token>)
    requires AllParsable(es) && First(tail).kind == EOF
    ensures ProgramAt(FlattenAll(es) + tail) == Ok((Tree("Program", ToTrees(es)), |FlattenAll(es)|))
  {
    ProgramItemsComplete(es, tail, [], 0);
    assert [] + ToTrees(es) == ToTrees(es);
  }

  // Soundness: whatever the parser accepts is the spelling of s-expressions.

  /** An accepted expression is a parsable s-expression spelled by the tokens consumed,
      and the tree is its tree. */
  lemma {:induction false} ExprSound(ts: seq<Token>) returns (e: SExpr)
    requires ExprAt(ts).Ok?
    ensures Parsable(e)
    ensures Flatten(e) == ts[..ExprAt(ts).value.1] && ToTree(e) == ExprAt(ts).value.0
    decreases |ts|, 1
  {
    if First(ts).kind == LPAREN {
      e := GroupSound(ts);
    } else {
      e := Atom(ts[0]);
      assert ts[..1] == [ts[0]];
    }
  }

  /** An accepted list is a group between the "(" and the ")" that the parser consumed. */
  lemma {:induction false} GroupSound(ts: seq<Token>) returns (e: SExpr)
    requires ListAt(ts).Ok?
    ensures Parsable(e) && e.Group?
    ensures Flatten(e) == ts[..ListAt(ts).value.1] && ToTree(e) == ListAt(ts).value.0
    decreases |ts|, 0
  {
    var body := ts[1..];
    ListAtParts(ts);
    var (cs, m) := ListItems(body, [], 0).value;
    var items := ItemsSound(body, [], 0);
    assert [] + ToTrees(items) == ToTrees(items);
    e := Group(ts[0], items, ts[1 + m]);
    Bracketed(ts, m);
  }

  /** What the list loop accepts is a sequence of parsable s-expressions spelled by the
      tokens consumed, whose trees follow the trees done. */
  lemma {:induction false} ItemsSound(ts: seq<Token>, done: seq<Tree>, k: nat) returns (es: seq<SExpr>)
    requires ListRemains(ts, done, k).Ok?
    ensures var (cs, m) := ListRemains(ts, done, k).value;
      k <= m <= k + |ts| && AllParsable(es) && FlattenAll(es) == ts[..m - k] && cs == done + ToTrees(es)
    decreases |ts|, 2
  {
    var t := First(ts);
    if t.kind == RPAREN || t.kind == EOF {
      es := [];
      assert done + ToTrees(es) == done;
    } else {
      var (c, n) := ExprAt(ts).value;
      var e := ExprSound(ts);
      ListItemsStep(ts, done, k, c, n, ts[n..]);
      var more := ItemsSound(ts[n..], done + [c], k + n);
      es := [e] + more;
      SoundStep(ts, ListRemains(ts, done, k).value.1 - k, n, e, more);
      AllParsableCons(e, more);
      AppendAssoc(done, [c], ToTrees(more));
    }
  }

  /** What the program loop accepts is a sequence of parsable s-expressions spelled by
      the tokens consumed, whose trees follow the trees done. */
  lemma ProgramItemsSound(ts: seq<Token>, done: seq<Tree>, k: nat) returns (es: seq<SExpr>)
    requires ProgramItems(ts, done, k).Ok?
    ensures var (cs, m) := ProgramItems(ts, done, k).value;
      AllParsable(es) && FlattenAll(es) == ts[..m - k] && cs == done + ToTrees(es)
  {
    es := ProgramRemainsSound(ts, done, k);
  }

  lemma {:induction false} ProgramRemainsSound(ts: seq<Token>, done: seq<Tree>, k: nat) returns (es: seq<SExpr>)
    requires ProgramRemains(ts, done, k).Ok?
    ensures var (cs, m) := ProgramRemains(ts, done, k).value;
      k <= m <= k + |ts| && AllParsable(es) && FlattenAll(es) == ts[..m - k] && cs == done + ToTrees(es)
    decreases |ts|
  {
    if First(ts).kind == EOF {
      es := [];
      assert done + ToTrees(es) == done;
    } else {
      var (c, n) := ExprAt(ts).value;
      var e := ExprSound(ts);
      ProgramItemsStep(ts, done, k, c, n, ts[n..]);
      var more := ProgramRemainsSound(ts[n..], done + [c], k + n);
      es := [e] + more;
      SoundStep(ts, ProgramRemains(ts, done, k).value.1 - k, n, e, more);
      AllParsableCons(e, more);
      AppendAssoc(done, [c], ToTrees(more));
    }
  }

  /** Spelling and trees of one more s-expression in front. */
  lemma SoundStep(ts: seq<Token>, m: nat, n: nat, e: SExpr, more: seq<SExpr>)
    requires n <= m <= |ts| && Flatten(e) == ts[..n] && FlattenAll(more) == ts[n..][..m - n]
    ensures FlattenAll([e] + more) == ts[..m]
    ensures ToTrees([e] + more) == [ToTree(e)] + ToTrees(more)
  {
    var es := [e] + more;
    assert es[0] == e && es[1..] == more;
    assert ts[..m] == ts[..n] + ts[n..][..m - n];
  }

  /** Every program the parser accepts is the spelling of parsable s-expressions, up to
      the EOF it stops at, and its tree is theirs. */
  lemma ProgramSound(ts: seq<Token>) returns (es: seq<SExpr>)
    requires ProgramAt(ts).Ok?
    ensures var (t, n) := ProgramAt(ts).value;
      AllParsable(es) && FlattenAll(es) == ts[..n] && t == Tree("Program", ToTrees(es))
  {
    es := ProgramItemsSound(ts, [], 0);
  }

  // The whole front end.

  /** Spelling out parsable s-expressions made of well-formed tokens, lexing the text and
      parsing the tokens gives back the trees of the s-expressions. */
  lemma FrontEndRoundTrip(es: seq<SExpr>)
    requires AllParsable(es)
    requires forall i :: 0 <= i < |FlattenAll(es)| ==> WellFormed(FlattenAll(es)[i])
    ensures Scan(Render(FlattenAll(es))) == Ok(FlattenAll(es) + [EofToken])
    ensures ProgramAt(FlattenAll(es) + [EofToken]) == Ok((Tree("Program", ToTrees(es)), |FlattenAll(es)|))
  {
    ScanRender(FlattenAll(es));
    ProgramComplete(es, [EofToken]);
  }
}
