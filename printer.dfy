/** The indentation pretty printer of the while-language: its parse tree, the text every
    node renders to, and the PrettyPrinter class whose indentLevel field each block
    raises and lowers around its body. */
module Printing {

  /** The binary operators of the grammar, tightest first. */
  datatype Op = Mul | Div | Add | Sub | Eq | Ne | Gt | Lt | Ge | Le

  /** The source text of an operator, as the grammar spells it (note "=<"). */
  function OpText(op: Op): (s: string)
    ensures |s| == 1 <==> op in {Mul, Div, Add, Sub, Gt, Lt}
    ensures |s| == 2 <==> op in {Eq, Ne, Ge, Le}
  {
    match op
    case Mul => "*"
    case Div => "/"
    case Add => "+"
    case Sub => "-"
    case Eq => "=="
    case Ne => "!="
    case Gt => ">"
    case Lt => "<"
    case Ge => ">="
    case Le => "=<"
  }

  /** expr: var ":=" expr | ID | NUMBER | STRING | "(" expr ")" | expr op expr. Atoms carry
      their token text. */
  datatype Expr =
    | Assign(target: string, rhs: Expr)
    | Id(name: string)
    | Number(text: string)
    | Str(text: string)
    | Paren(inner: Expr)
    | Binary(left: Expr, op: Op, right: Expr)

  /** stmt: expr | var | while | ifelse; a while has a body of statements, an if-else one
      statement per branch. */
  datatype Stmt =
    | ExprStmt(expr: Expr)
    | VarStmt(name: string)
    | While(cond: Expr, body: seq<Stmt>)
    | IfElse(cond: Expr, thenStmt: Stmt, elseStmt: Stmt)

  /** Four spaces per indentation level. */
  function Spaces(level: nat): (s: string)
    ensures |s| == 4 * level
    ensures forall i :: 0 <= i < |s| ==> s[i] == ' '
  {
    if level == 0 then "" else "    " + Spaces(level - 1)
  }

  /** Two operands joined by an operator with one space on each side. */
  function BinOp(left: string, op: string, right: string): (s: string)
    ensures |s| == |left| + |op| + |right| + 2
    ensures s[..|left|] == left && s[|s| - |right|..] == right
    ensures s[|left|..|s| - |right|] == [' '] + op + [' ']
  {
    left + " " + op + " " + right
  }

  /** The text of an expression. An assignment has exactly one sub-expression among three
      children, so the parenthesis case claims it first and it renders as "(" rhs ")". */
  function VisitExpr(e: Expr): string
    decreases e
  {
    match e
    case Number(t) => t
    case Str(t) => t
    case Id(n) => n
    case Paren(inner) => "(" + VisitExpr(inner) + ")"
    case Assign(_, rhs) => "(" + VisitExpr(rhs) + ")"
    case Binary(l, op, r) => BinOp(VisitExpr(l), OpText(op), VisitExpr(r))
  }

  /** The text of a statement at indentation level `level`: what visitStmt returns when
      indentLevel is `level`. */
  function StmtText(s: Stmt, level: nat): (t: string)
    ensures |t| > 0 && t[|t| - 1] == '\n'
    decreases s
  {
    match s
    case ExprStmt(e) => VisitExpr(e) + "\n"
    case VarStmt(name) => Spaces(level) + name + "\n"
    case While(cond, body) => WhileText(level, VisitExpr(cond), BlockText(body, level + 1))
    case IfElse(cond, t, e) =>
      IfElseText(level, VisitExpr(cond), StmtText(t, level + 1), StmtText(e, level + 1))
  }

  /** A while loop around a condition's and a body's text: header and "end" at `level`. */
  function WhileText(level: nat, cond: string, body: string): string {
    Spaces(level) + "while " + cond + " do\n" + body + Spaces(level) + "end\n"
  }

  /** An if-else around a condition's and two branches' texts: the "if", "else do" and
      "end" lines at `level`. */
  function IfElseText(level: nat, cond: string, thenText: string, elseText: string): string {
    Spaces(level) + "if " + cond + " do\n" + thenText
    + Spaces(level) + "else do\n" + elseText + Spaces(level) + "end\n"
  }

  /** The statements' texts one after another, all at the same level. */
  function BlockText(ss: seq<Stmt>, level: nat): (t: string)
    ensures ss == [] <==> t == []
    ensures ss != [] ==> t[|t| - 1] == '\n'
    decreases ss
  {
    if ss == [] then "" else BlockText(ss[..|ss| - 1], level) + StmtText(ss[|ss| - 1], level)
  }

  /** One more statement's text extends the text of the statements before it. */
  lemma BlockTextSnoc(ss: seq<Stmt>, i: nat, level: nat)
    requires i < |ss|
    ensures BlockText(ss[..i + 1], level) == BlockText(ss[..i], level) + StmtText(ss[i], level)
  {
    assert ss[..i + 1][..i] == ss[..i];
  }

  /** The printer: the current indentation level. */
  class PrettyPrinter {
    var indentLevel: nat

    constructor ()
      ensures indentLevel == 0
    {
      indentLevel := 0;
    }

    /** The indentation of the current level. */
    function Indent(): (s: string)
      reads this
      ensures |s| == 4 * indentLevel
      ensures forall i :: 0 <= i < |s| ==> s[i] == ' '
    {
      Spaces(indentLevel)
    }

    /** A variable statement's text, without its newline: the current indentation, then
        the name. */
    function VisitVar(name: string): (s: string)
      reads this
      ensures |s| == 4 * indentLevel + |name|
      ensures forall i :: 0 <= i < 4 * indentLevel ==> s[i] == ' '
      ensures s[4 * indentLevel..] == name
    {
      Indent() + name
    }

    /** Renders one statement; indentLevel is the same afterwards. */
    method VisitStmt(s: Stmt) returns (out: string)
      modifies this
      ensures out == StmtText(s, old(indentLevel))
      ensures indentLevel == old(indentLevel)
      decreases s, 1
    {
      match s
      case ExprStmt(e) =>
        out := VisitExpr(e) + "\n";
      case VarStmt(name) =>
        out := VisitVar(name) + "\n";
      case While(cond, body) =>
        out := VisitWhile(cond, body);
      case IfElse(cond, t, e) =>
        out := VisitIfelse(cond, t, e);
    }

    /** Renders a while loop: the header at the current level, the body one level
        deeper, then "end" at the current level again. */
    method VisitWhile(cond: Expr, body: seq<Stmt>) returns (out: string)
      modifies this
      ensures out == StmtText(While(cond, body), old(indentLevel))
      ensures indentLevel == old(indentLevel)
      decreases While(cond, body), 0
    {
      var sb := Indent() + "while " + VisitExpr(cond) + " do\n";
      var b := VisitBody(body);
      sb := sb + b;
      out := sb + Indent() + "end\n";
    }

    /** Renders a loop body one level deeper, its statements in order: raises indentLevel
        around the loop over them. */
    method VisitBody(body: seq<Stmt>) returns (out: string)
      modifies this
      ensures out == BlockText(body, old(indentLevel) + 1)
      ensures indentLevel == old(indentLevel)
      decreases body, 2
    {
      var sb := "";
      indentLevel := indentLevel + 1;
      var i := 0;
      while i < |body|
        invariant 0 <= i <= |body|
        invariant indentLevel == old(indentLevel) + 1
        invariant sb == BlockText(body[..i], indentLevel)
      {
        var text := VisitStmt(body[i]);
        BlockTextSnoc(body, i, indentLevel);
        sb := sb + text;
        i := i + 1;
      }
      assert body[..|body|] == body;
      indentLevel := indentLevel - 1;
      out := sb;
    }

    /** Renders an if-else: the "if" and "else do" lines and "end" at the current level,
        each branch one level deeper. */
    method VisitIfelse(cond: Expr, thenStmt: Stmt, elseStmt: Stmt) returns (out: string)
      modifies this
      ensures out == StmtText(IfElse(cond, thenStmt, elseStmt), old(indentLevel))
      ensures indentLevel == old(indentLevel)
      decreases IfElse(cond, thenStmt, elseStmt), 0
    {
      var sb := Indent() + "if " + VisitExpr(cond) + " do\n";
      var t := VisitNested(thenStmt);
      sb := sb + t;
      sb := sb + Indent() + "else do\n";
      var e := VisitNested(elseStmt);
      sb := sb + e;
      out := sb + Indent() + "end\n";
    }

    /** Renders a branch of an if-else one level deeper: raises indentLevel around it. */
    method VisitNested(s: Stmt) returns (out: string)
      modifies this
      ensures out == StmtText(s, old(indentLevel) + 1)
      ensures indentLevel == old(indentLevel)
      decreases s, 2
    {
      indentLevel := indentLevel + 1;
      out := VisitStmt(s);
      indentLevel := indentLevel - 1;
    }

    /** Renders a whole program: its statements in order at the current level. */
    method VisitStart(stmts: seq<Stmt>) returns (out: string)
      modifies this
      ensures out == BlockText(stmts, old(indentLevel))
      ensures indentLevel == old(indentLevel)
    {
      var sb := "";
      var i := 0;
      while i < |stmts|
        invariant 0 <= i <= |stmts|
        invariant indentLevel == old(indentLevel)
        invariant sb == BlockText(stmts[..i], indentLevel)
      {
        var text := VisitStmt(stmts[i]);
        BlockTextSnoc(stmts, i, indentLevel);
        sb := sb + text;
        i := i + 1;
      }
      assert stmts[..|stmts|] == stmts;
      out := sb;
    }
  }
}
