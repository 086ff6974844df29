/** Properties of the pretty printer's output: the line layout it produces, with the depth
    of every line, the line count, how block texts concatenate, and how expressions render. */
module PrinterFacts {
  import opened Seqs
  import opened Printing

  /** One output line: its indentation depth and its text without indentation or newline. */
  datatype Line = Line(depth: nat, text: string)

  /** A line as printed: four spaces per depth, the text, a newline. */
  function RenderLine(l: Line): string {
    Spaces(l.depth) + l.text + "\n"
  }

  /** Lines printed one after another. */
  function Join(ls: seq<Line>): string {
    if ls == [] then "" else RenderLine(ls[0]) + Join(ls[1..])
  }

  /** The lines a statement prints at `level`. An expression statement is not indented, a
      variable is; a block puts its marker lines at `level` and its body one deeper. */
  function Layout(s: Stmt, level: nat): seq<Line>
    decreases s
  {
    match s
    case ExprStmt(e) => [Line(0, VisitExpr(e))]
    case VarStmt(name) => [Line(level, name)]
    case While(cond, body) => WhileLayout(level, VisitExpr(cond), BlockLayout(body, level + 1))
    case IfElse(cond, t, e) =>
      IfElseLayout(level, VisitExpr(cond), Layout(t, level + 1), Layout(e, level + 1))
  }

  /** A while loop's lines around a condition's text and its body's lines. */
  function WhileLayout(level: nat, cond: string, body: seq<Line>): seq<Line> {
    [Line(level, "while " + cond + " do")] + body + [Line(level, "end")]
  }

  /** An if-else's lines around a condition's text and its branches' lines. */
  function IfElseLayout(level: nat, cond: string, thenLines: seq<Line>, elseLines: seq<Line>): seq<Line> {
    [Line(level, "if " + cond + " do")] + thenLines + [Line(level, "else do")] + elseLines
    + [Line(level, "end")]
  }

  function BlockLayout(ss: seq<Stmt>, level: nat): seq<Line>
    decreases ss
  {
    if ss == [] then [] else BlockLayout(ss[..|ss| - 1], level) + Layout(ss[|ss| - 1], level)
  }

  lemma {:induction false} JoinAppend(a: seq<Line>, b: seq<Line>)
    ensures Join(a + b) == Join(a) + Join(b)
    decreases |a|
  {
    if a == [] {
      assert a + b == b;
    } else {
      assert (a + b)[1..] == a[1..] + b;
      JoinAppend(a[1..], b);
    }
  }

  lemma JoinOne(l: Line)
    ensures Join([l]) == RenderLine(l)
  {
    assert [l][1..] == [];
  }

  lemma JoinThree(a: Line, m: seq<Line>, z: Line)
    ensures Join([a] + m + [z]) == RenderLine(a) + Join(m) + RenderLine(z)
  {
    JoinAppend([a] + m, [z]);
    JoinAppend([a], m);
    JoinOne(a);
    JoinOne(z);
  }

  lemma JoinFive(a: Line, m: seq<Line>, b: Line, n: seq<Line>, z: Line)
    ensures Join([a] + m + [b] + n + [z])
      == RenderLine(a) + Join(m) + RenderLine(b) + Join(n) + RenderLine(z)
  {
    JoinAppend([a] + m + [b] + n, [z]);
    JoinAppend([a] + m + [b], n);
    JoinThree(a, m, b);
    JoinOne(z);
  }

  /** A line printed after a text: the text, the indentation, then the line's text and
      newline. */
  lemma AppendLine(before: string, level: nat, text: string)
    ensures before + RenderLine(Line(level, text)) == before + Spaces(level) + (text + "\n")
  {
  }

  /** How an opening marker line prints. */
  lemma MarkerLine(level: nat, keyword: string, cond: string)
    ensures RenderLine(Line(level, keyword + cond + " do")) == Spaces(level) + keyword + cond + " do\n"
  {
    assert " do" + "\n" == " do\n";
  }

  lemma Newlined()
    ensures "end" + "\n" == "end\n" && "else do" + "\n" == "else do\n"
  {
  }

  /** A while's lines print as its text, once its body's lines print as the body's text. */
  lemma WhileLayoutJoin(level: nat, cond: string, body: seq<Line>)
    ensures Join(WhileLayout(level, cond, body)) == WhileText(level, cond, Join(body))
  {
    JoinThree(Line(level, "while " + cond + " do"), body, Line(level, "end"));
    MarkerLine(level, "while ", cond);
    var before := RenderLine(Line(level, "while " + cond + " do")) + Join(body);
    AppendLine(before, level, "end");
    Newlined();
  }

  /** An if-else's lines print as its text, once its branches' lines print as their texts. */
  lemma IfElseLayoutJoin(level: nat, cond: string, thenLines: seq<Line>, elseLines: seq<Line>)
    ensures Join(IfElseLayout(level, cond, thenLines, elseLines))
      == IfElseText(level, cond, Join(thenLines), Join(elseLines))
  {
    JoinFive(Line(level, "if " + cond + " do"), thenLines, Line(level, "else do"), elseLines,
      Line(level, "end"));
    MarkerLine(level, "if ", cond);
    var upToThen := RenderLine(Line(level, "if " + cond + " do")) + Join(thenLines);
    AppendLine(upToThen, level, "else do");
    var upToElse := upToThen + RenderLine(Line(level, "else do")) + Join(elseLines);
    AppendLine(upToElse, level, "end");
    Newlined();
  }

  /** What a statement prints is exactly its layout, line by line. */
  lemma StmtTextIsLayout(s: Stmt, level: nat)
    ensures StmtText(s, level) == Join(Layout(s, level))
  {
    PrintedIsLaidOut(s, level);
  }

  /** A block prints exactly its statements' layouts. */
  lemma BlockTextIsLayout(ss: seq<Stmt>, level: nat)
    ensures BlockText(ss, level) == Join(BlockLayout(ss, level))
  {
    BlockPrintedIsLaidOut(ss, level);
  }

  // The induction behind the two lemmas above runs on these names for the two sides, so
  // that each step sees one level of the definitions only.

  ghost function Printed(s: Stmt, level: nat): string {
    StmtText(s, level)
  }

  ghost function LaidOut(s: Stmt, level: nat): string {
    Join(Layout(s, level))
  }

  ghost function BlockPrinted(ss: seq<Stmt>, level: nat): string {
    BlockText(ss, level)
  }

  ghost function BlockLaidOut(ss: seq<Stmt>, level: nat): string {
    Join(BlockLayout(ss, level))
  }

  lemma WhilePrinted(cond: Expr, body: seq<Stmt>, level: nat)
    ensures Printed(While(cond, body), level)
      == WhileText(level, VisitExpr(cond), BlockPrinted(body, level + 1))
  {
  }

  lemma WhileLaidOut(cond: Expr, body: seq<Stmt>, level: nat)
    ensures LaidOut(While(cond, body), level)
      == WhileText(level, VisitExpr(cond), BlockLaidOut(body, level + 1))
  {
    WhileLayoutJoin(level, VisitExpr(cond), BlockLayout(body, level + 1));
  }

  lemma IfElsePrinted(cond: Expr, t: Stmt, e: Stmt, level: nat)
    ensures Printed(IfElse(cond, t, e), level)
      == IfElseText(level, VisitExpr(cond), Printed(t, level + 1), Printed(e, level + 1))
  {
  }

  lemma IfElseLaidOut(cond: Expr, t: Stmt, e: Stmt, level: nat)
    ensures LaidOut(IfElse(cond, t, e), level)
      == IfElseText(level, VisitExpr(cond), LaidOut(t, level + 1), LaidOut(e, level + 1))
  {
    IfElseLayoutJoin(level, VisitExpr(cond), Layout(t, level + 1), Layout(e, level + 1));
  }

  lemma BlockUnfold(ss: seq<Stmt>, level: nat)
    requires ss != []
    ensures BlockPrinted(ss, level)
      == BlockPrinted(ss[..|ss| - 1], level) + Printed(ss[|ss| - 1], level)
    ensures BlockLaidOut(ss, level)
      == BlockLaidOut(ss[..|ss| - 1], level) + LaidOut(ss[|ss| - 1], level)
  {
    JoinAppend(BlockLayout(ss[..|ss| - 1], level), Layout(ss[|ss| - 1], level));
  }

  lemma LineStmtLaidOut(s: Stmt, level: nat)
    requires s.ExprStmt? || s.VarStmt?
    ensures Printed(s, level) == LaidOut(s, level)
  {
    match s
    case ExprStmt(e) => JoinOne(Line(0, VisitExpr(e)));
    case VarStmt(name) => JoinOne(Line(level, name));
  }

  lemma {:induction false} PrintedIsLaidOut(s: Stmt, level: nat)
    ensures Printed(s, level) == LaidOut(s, level)
    decreases s, 2
  {
    if s.While? {
      WhilePrintedIsLaidOut(s.cond, s.body, level);
    } else if s.IfElse? {
      IfElsePrintedIsLaidOut(s.cond, s.thenStmt, s.elseStmt, level);
    } else {
      LineStmtLaidOut(s, level);
    }
  }

  lemma {:induction false} WhilePrintedIsLaidOut(cond: Expr, body: seq<Stmt>, level: nat)
    ensures Printed(While(cond, body), level) == LaidOut(While(cond, body), level)
    decreases While(cond, body), 1
  {
    BlockPrintedIsLaidOut(body, level + 1);
    WhilePrinted(cond, body, level);
    WhileLaidOut(cond, body, level);
  }

  lemma {:induction false} IfElsePrintedIsLaidOut(cond: Expr, t: Stmt, e: Stmt, level: nat)
    ensures Printed(IfElse(cond, t, e), level) == LaidOut(IfElse(cond, t, e), level)
    decreases IfElse(cond, t, e), 1
  {
    PrintedIsLaidOut(t, level + 1);
    PrintedIsLaidOut(e, level + 1);
    IfElsePrinted(cond, t, e, level);
    IfElseLaidOut(cond, t, e, level);
  }

  lemma {:induction false} BlockPrintedIsLaidOut(ss: seq<Stmt>, level: nat)
    ensures BlockPrinted(ss, level) == BlockLaidOut(ss, level)
    decreases ss, 0
  {
    if ss != [] {
      BlockPrintedIsLaidOut(ss[..|ss| - 1], level);
      PrintedIsLaidOut(ss[|ss| - 1], level);
      BlockUnfold(ss, level);
    }
  }

  /** Every line sits at the statement's level or deeper, except expression lines, which
      are never indented. */
  lemma {:induction false} LayoutDepths(s: Stmt, level: nat)
    ensures forall l :: l in Layout(s, level) ==> l.depth == 0 || l.depth >= level
    ensures !s.ExprStmt? ==> |Layout(s, level)| > 0 && Layout(s, level)[0].depth == level
    decreases s, 1
  {
    match s
    case ExprStmt(_) =>
    case VarStmt(_) =>
    case While(cond, body) =>
      BlockLayoutDepths(body, level + 1);
    case IfElse(cond, t, e) =>
      LayoutDepths(t, level + 1);
      LayoutDepths(e, level + 1);
  }

  lemma {:induction false} BlockLayoutDepths(ss: seq<Stmt>, level: nat)
    ensures forall l :: l in BlockLayout(ss, level) ==> l.depth == 0 || l.depth >= level
    decreases ss, 0
  {
    if ss != [] {
      BlockLayoutDepths(ss[..|ss| - 1], level);
      LayoutDepths(ss[|ss| - 1], level);
    }
  }

  /** A statement with no expression statement anywhere inside it. */
  predicate NoExprStmt(s: Stmt)
    decreases s
  {
    match s
    case ExprStmt(_) => false
    case VarStmt(_) => true
    case While(_, body) => forall i :: 0 <= i < |body| ==> NoExprStmt(body[i])
    case IfElse(_, t, e) => NoExprStmt(t) && NoExprStmt(e)
  }

  /** Only expression statements print unindented lines: without them, every line of a
      statement sits at its level or deeper. */
  lemma {:induction false} IndentedLayout(s: Stmt, level: nat)
    requires NoExprStmt(s)
    ensures forall l :: l in Layout(s, level) ==> l.depth >= level
    decreases s, 1
  {
    match s
    case VarStmt(_) =>
    case While(cond, body) =>
      IndentedBlockLayout(body, level + 1);
    case IfElse(cond, t, e) =>
      IndentedLayout(t, level + 1);
      IndentedLayout(e, level + 1);
  }

  lemma {:induction false} IndentedBlockLayout(ss: seq<Stmt>, level: nat)
    requires forall i :: 0 <= i < |ss| ==> NoExprStmt(ss[i])
    ensures forall l :: l in BlockLayout(ss, level) ==> l.depth >= level
    decreases ss, 0
  {
    if ss != [] {
      IndentedBlockLayout(ss[..|ss| - 1], level);
      IndentedLayout(ss[|ss| - 1], level);
    }
  }

  /** A while statement's first and last lines are its markers at the outer level, and the
      lines in between are its body's, one level deeper. */
  lemma WhileLines(cond: Expr, body: seq<Stmt>, level: nat)
    ensures var ls := Layout(While(cond, body), level);
      |ls| >= 2
      && ls[0] == Line(level, "while " + VisitExpr(cond) + " do")
      && ls[|ls| - 1] == Line(level, "end")
      && ls[1..|ls| - 1] == BlockLayout(body, level + 1)
  {
    ThreeParts(Line(level, "while " + VisitExpr(cond) + " do"), BlockLayout(body, level + 1),
      Line(level, "end"));
  }

  /** An if-else statement's marker lines sit at the outer level, with the then-branch's
      lines between "if" and "else do" and the else-branch's between "else do" and "end". */
  lemma IfElseLines(cond: Expr, t: Stmt, e: Stmt, level: nat)
    ensures var ls := Layout(IfElse(cond, t, e), level);
      var m := |Layout(t, level + 1)|;
      |ls| == m + |Layout(e, level + 1)| + 3
      && ls[0] == Line(level, "if " + VisitExpr(cond) + " do")
      && ls[1..m + 1] == Layout(t, level + 1)
      && ls[m + 1] == Line(level, "else do")
      && ls[m + 2..|ls| - 1] == Layout(e, level + 1)
      && ls[|ls| - 1] == Line(level, "end")
  {
    FiveParts(Line(level, "if " + VisitExpr(cond) + " do"), Layout(t, level + 1),
      Line(level, "else do"), Layout(e, level + 1), Line(level, "end"));
  }

  /** The program text is the statements' texts in order: blocks concatenate. */
  lemma {:induction false} BlockTextAppend(a: seq<Stmt>, b: seq<Stmt>, level: nat)
    ensures BlockText(a + b, level) == BlockText(a, level) + BlockText(b, level)
    decreases |b|
  {
    if b == [] {
      assert a + b == a;
    } else {
      var n := |b| - 1;
      DropLast(a, b);
      BlockTextAppend(a, b[..n], level);
      AppendAssoc(BlockText(a, level), BlockText(b[..n], level), StmtText(b[n], level));
    }
  }

  /** The number of newlines in a text. */
  function Newlines(s: string): nat {
    multiset(s)['\n']
  }

  /** An expression whose atom texts hold no newline. */
  predicate ExprOneLine(e: Expr) {
    match e
    case Assign(_, rhs) => ExprOneLine(rhs)
    case Id(n) => '\n' !in n
    case Number(t) => '\n' !in t
    case Str(t) => '\n' !in t
    case Paren(inner) => ExprOneLine(inner)
    case Binary(l, _, r) => ExprOneLine(l) && ExprOneLine(r)
  }

  /** A statement whose names and atom texts hold no newline. */
  predicate StmtOneLine(s: Stmt) {
    match s
    case ExprStmt(e) => ExprOneLine(e)
    case VarStmt(name) => '\n' !in name
    case While(cond, body) => ExprOneLine(cond) && forall k :: 0 <= k < |body| ==> StmtOneLine(body[k])
    case IfElse(cond, t, e) => ExprOneLine(cond) && StmtOneLine(t) && StmtOneLine(e)
  }

  /** An expression renders on one line. */
  lemma {:induction false} ExprNoNewline(e: Expr)
    requires ExprOneLine(e)
    ensures '\n' !in VisitExpr(e)
  {
    match e
    case Assign(_, rhs) => ExprNoNewline(rhs);
    case Id(_) =>
    case Number(_) =>
    case Str(_) =>
    case Paren(inner) => ExprNoNewline(inner);
    case Binary(l, op, r) =>
      ExprNoNewline(l);
      ExprNoNewline(r);
  }

  /** Lines whose texts hold no newline. */
  predicate LineTextsOneLine(ls: seq<Line>) {
    forall k :: 0 <= k < |ls| ==> '\n' !in ls[k].text
  }

  lemma {:induction false} JoinNewlines(ls: seq<Line>)
    requires LineTextsOneLine(ls)
    ensures Newlines(Join(ls)) == |ls|
    decreases |ls|
  {
    if ls != [] {
      var l := ls[0];
      assert '\n' !in Spaces(l.depth);
      assert LineTextsOneLine(ls[1..]) by {
        forall k | 0 <= k < |ls[1..]| ensures '\n' !in ls[1..][k].text {
          assert ls[1..][k] == ls[k + 1];
        }
      }
      JoinNewlines(ls[1..]);
    }
  }

  lemma OneLineAppend(a: seq<Line>, b: seq<Line>)
    requires LineTextsOneLine(a) && LineTextsOneLine(b)
    ensures LineTextsOneLine(a + b)
  {
    assert forall k :: |a| <= k < |a + b| ==> (a + b)[k] == b[k - |a|];
  }

  lemma MarkerOneLine(cond: Expr, word: string, level: nat)
    requires ExprOneLine(cond) && '\n' !in word
    ensures LineTextsOneLine([Line(level, word + VisitExpr(cond) + " do")])
  {
    ExprNoNewline(cond);
  }

  /** Every line of a one-line statement's layout has a newline-free text. */
  lemma {:induction false} LayoutOneLine(s: Stmt, level: nat)
    requires StmtOneLine(s)
    ensures LineTextsOneLine(Layout(s, level))
    decreases s, 1
  {
    match s
    case ExprStmt(e) =>
      ExprNoNewline(e);
    case VarStmt(_) =>
    case While(cond, body) =>
      MarkerOneLine(cond, "while ", level);
      BlockLayoutOneLine(body, level + 1);
      OneLineAppend([Line(level, "while " + VisitExpr(cond) + " do")], BlockLayout(body, level + 1));
      OneLineAppend([Line(level, "while " + VisitExpr(cond) + " do")] + BlockLayout(body, level + 1),
        [Line(level, "end")]);
    case IfElse(cond, t, e) =>
      MarkerOneLine(cond, "if ", level);
      LayoutOneLine(t, level + 1);
      LayoutOneLine(e, level + 1);
      var a := [Line(level, "if " + VisitExpr(cond) + " do")];
      OneLineAppend(a, Layout(t, level + 1));
      OneLineAppend(a + Layout(t, level + 1), [Line(level, "else do")]);
      OneLineAppend(a + Layout(t, level + 1) + [Line(level, "else do")], Layout(e, level + 1));
      OneLineAppend(a + Layout(t, level + 1) + [Line(level, "else do")] + Layout(e, level + 1),
        [Line(level, "end")]);
  }

  lemma {:induction false} BlockLayoutOneLine(ss: seq<Stmt>, level: nat)
    requires forall k :: 0 <= k < |ss| ==> StmtOneLine(ss[k])
    ensures LineTextsOneLine(BlockLayout(ss, level))
    decreases ss, 0
  {
    if ss != [] {
      var n := |ss| - 1;
      BlockLayoutOneLine(ss[..n], level);
      LayoutOneLine(ss[n], level);
      OneLineAppend(BlockLayout(ss[..n], level), Layout(ss[n], level));
    }
  }

  /** A statement prints exactly as many newlines as its layout has lines: one per
      expression or variable, two more per while, three more per if-else. */
  lemma LineCount(s: Stmt, level: nat)
    requires StmtOneLine(s)
    ensures Newlines(StmtText(s, level)) == |Layout(s, level)|
  {
    StmtTextIsLayout(s, level);
    LayoutOneLine(s, level);
    JoinNewlines(Layout(s, level));
  }

  /** The assignment's target is never printed: an assignment renders like its right-hand
      side in parentheses. */
  lemma AssignRendersAsParen(target: string, rhs: Expr)
    ensures VisitExpr(Assign(target, rhs)) == VisitExpr(Paren(rhs))
    ensures forall other :: VisitExpr(Assign(other, rhs)) == VisitExpr(Assign(target, rhs))
  {
  }

  /** An expression whose atom texts hold no "(". */
  predicate ExprNoOpenParen(e: Expr) {
    match e
    case Assign(_, rhs) => ExprNoOpenParen(rhs)
    case Id(n) => '(' !in n
    case Number(t) => '(' !in t
    case Str(t) => '(' !in t
    case Paren(inner) => ExprNoOpenParen(inner)
    case Binary(l, _, r) => ExprNoOpenParen(l) && ExprNoOpenParen(r)
  }

  /** The parenthesised nodes of an expression: "(" e ")" and, as it renders the same
      way, an assignment. */
  function Bracketings(e: Expr): nat {
    match e
    case Assign(_, rhs) => 1 + Bracketings(rhs)
    case Id(_) => 0
    case Number(_) => 0
    case Str(_) => 0
    case Paren(inner) => 1 + Bracketings(inner)
    case Binary(l, _, r) => Bracketings(l) + Bracketings(r)
  }

  lemma WrapCount(x: string)
    ensures multiset("(" + x + ")")['('] == multiset(x)['('] + 1
  {
  }

  lemma BinOpCount(left: string, op: Op, right: string)
    ensures multiset(BinOp(left, OpText(op), right))['('] == multiset(left)['('] + multiset(right)['(']
  {
    assert BinOp(left, OpText(op), right) == left + " " + OpText(op) + " " + right;
    assert multiset(OpText(op))['('] == 0;
  }

  /** The printer adds no parentheses of its own: every "(" in an expression's text
      comes from a parenthesised node (or an assignment). */
  lemma {:induction false} OpenParenCount(e: Expr)
    requires ExprNoOpenParen(e)
    ensures multiset(VisitExpr(e))['('] == Bracketings(e)
  {
    match e
    case Assign(_, rhs) =>
      OpenParenCount(rhs);
      WrapCount(VisitExpr(rhs));
    case Id(_) =>
    case Number(_) =>
    case Str(_) =>
    case Paren(inner) =>
      OpenParenCount(inner);
      WrapCount(VisitExpr(inner));
    case Binary(l, op, r) =>
      OpenParenCount(l);
      OpenParenCount(r);
      BinOpCount(VisitExpr(l), op, VisitExpr(r));
  }
}
