/** The recursive-descent parser: a specification of what parsing the remaining tokens
    yields, and the Parser class proved against it. */
module Parsing {
  import opened Results
  import opened Tokens
  import opened Trees

  /** The two ways parsing can fail: a required token kind that is missing, and a token
      that cannot start an atom. */
  datatype ParseError =
    | Expected(expected: TokenType, found: TokenType)
    | UnexpectedToken(found: TokenType)

  /** The first remaining token, or a synthetic EOF once the tokens run out. */
  function First(ts: seq<Token>): (t: Token)
    ensures ts == [] ==> t == EofToken
    ensures ts != [] ==> t == ts[0]
  {
    if ts == [] then EofToken else ts[0]
  }

  /** The tokens after the first one; nothing moves once the tokens run out. */
  function Consumed(ts: seq<Token>): (n: nat)
    ensures n <= |ts| && (n == 1 <==> ts != [])
  {
    if ts == [] then 0 else 1
  }

  /** The token kinds that make a leaf node. */
  predicate IsAtomKind(k: TokenType) {
    k != LPAREN && k != RPAREN && k != EOF
  }

  /** A parse of a prefix of the tokens: the tree and how many tokens it consumed. */
  type Parsed<T> = Result<(T, nat), ParseError>

  /** An atom: a childless node carrying the token's value. */
  function AtomAt(ts: seq<Token>): (r: Parsed<Tree>)
    ensures r.Ok? <==> IsAtomKind(First(ts).kind)
    ensures r.Ok? ==> r.value == (Tree(ts[0].value, []), 1)
    ensures r.Err? ==> r.error == UnexpectedToken(First(ts).kind)
  {
    var t := First(ts);
    if IsAtomKind(t.kind) then Ok((Tree(t.value, []), Consumed(ts)))
    else Err(UnexpectedToken(t.kind))
  }

  /** An expression: a list when the next token is "(", otherwise an atom. */
  function ExprAt(ts: seq<Token>): (r: Parsed<Tree>)
    ensures r.Ok? ==> 0 < r.value.1 <= |ts|
    decreases |ts|, 1
  {
    if First(ts).kind == LPAREN then ListAt(ts) else AtomAt(ts)
  }

  /** A list: "(", then its body. */
  function ListAt(ts: seq<Token>): (r: Parsed<Tree>)
    ensures r.Ok? ==> 2 <= r.value.1 <= |ts|
    decreases |ts|, 0
  {
    var open := First(ts);
    if open.kind != LPAREN then Err(Expected(LPAREN, open.kind))
    else
      match ListBody(ts[1..])
      case Err(e) => Err(e)
      case Ok((t, m)) => Ok((t, m + 1))
  }

  /** The rest of a list after its "(": the expressions up to the closing token under a
      "List" node, then ")". */
  function ListBody(ts: seq<Token>): (r: Parsed<Tree>)
    ensures r.Ok? ==> 1 <= r.value.1 <= |ts|
    decreases |ts|, 3
  {
    match ListItems(ts, [], 0)
    case Err(e) => Err(e)
    case Ok((cs, m)) =>
      var close := First(ts[m..]);
      if close.kind != RPAREN then Err(Expected(RPAREN, close.kind))
      else Ok((Tree("List", cs), m + 1))
  }

  /** The loop of a list body: after the trees done, which took k tokens, parses
      expressions one after another until ")" or EOF. */
  function ListItems(ts: seq<Token>, done: seq<Tree>, k: nat): (r: Parsed<seq<Tree>>)
    ensures r.Ok? ==> k <= r.value.1 <= k + |ts|
    decreases |ts|, 2
  {
    var t := First(ts);
    if t.kind == RPAREN || t.kind == EOF then Ok((done, k))
    else
      match ExprAt(ts)
      case Err(e) => Err(e)
      case Ok((c, n)) => ListItems(ts[n..], done + [c], k + n)
  }

  /** The loop of a program: after the trees done, which took k tokens, parses
      expressions one after another until EOF. */
  function ProgramItems(ts: seq<Token>, done: seq<Tree>, k: nat): (r: Parsed<seq<Tree>>)
    ensures r.Ok? ==> k <= r.value.1 <= k + |ts|
    decreases |ts|
  {
    if First(ts).kind == EOF then Ok((done, k))
    else
      match ExprAt(ts)
      case Err(e) => Err(e)
      case Ok((c, n)) => ProgramItems(ts[n..], done + [c], k + n)
  }

  /** The result the list loop ends with when it resumes at ts, after the trees done
      that took k tokens. */
  ghost function ListRemains(ts: seq<Token>, done: seq<Tree>, k: nat): Parsed<seq<Tree>> {
    ListItems(ts, done, k)
  }

  /** The result the program loop ends with when it resumes at ts, after the trees done
      that took k tokens. */
  ghost function ProgramRemains(ts: seq<Token>, done: seq<Tree>, k: nat): Parsed<seq<Tree>> {
    ProgramItems(ts, done, k)
  }

  /** One iteration of the list loop: an expression read moves the loop on past it. */
  lemma ListItemsStep(ts: seq<Token>, done: seq<Tree>, k: nat, c: Tree, n: nat, next: seq<Token>)
    requires First(ts).kind != EOF && First(ts).kind != RPAREN && ExprAt(ts) == Ok((c, n))
    requires next == ts[n..]
    ensures ListRemains(ts, done, k) == ListRemains(next, done + [c], k + n)
  {
  }

  /** One iteration of the program loop: an expression read moves the loop on past it. */
  lemma ProgramItemsStep(ts: seq<Token>, done: seq<Tree>, k: nat, c: Tree, n: nat, next: seq<Token>)
    requires First(ts).kind != EOF && ExprAt(ts) == Ok((c, n))
    requires next == ts[n..]
    ensures ProgramRemains(ts, done, k) == ProgramRemains(next, done + [c], k + n)
  {
  }

  /** A program: a "Program" node over the top-level expressions. */
  function ProgramAt(ts: seq<Token>): (r: Parsed<Tree>)
    ensures r.Ok? ==> r.value.0.value == "Program" && r.value.1 <= |ts|
    ensures r.Ok? <==> ProgramItems(ts, [], 0).Ok?
  {
    match ProgramItems(ts, [], 0)
    case Err(e) => Err(e)
    case Ok((cs, n)) => Ok((Tree("Program", cs), n))
  }

  /** The parser: the token list and a cursor that never passes its end. */
  class Parser {
    const tokens: seq<Token>
    var pos: nat

    ghost predicate Valid()
      reads this
    {
      pos <= |tokens|
    }

    /** The tokens from the cursor on. */
    ghost function Rest(): seq<Token>
      reads this
      requires Valid()
    {
      tokens[pos..]
    }

    constructor (tokens: seq<Token>)
      ensures Valid() && this.tokens == tokens && pos == 0
    {
      this.tokens := tokens;
      pos := 0;
    }

    /** The token under the cursor, or a synthetic EOF past the end. */
    function Peek(): (t: Token)
      reads this
      requires Valid()
      ensures pos < |tokens| ==> t == tokens[pos]
      ensures pos == |tokens| ==> t == EofToken
    {
      if pos < |tokens| then tokens[pos] else EofToken
    }

    /** Returns the token under the cursor and moves past it; past the end it returns a
        synthetic EOF and the cursor stays. */
    method Next() returns (t: Token)
      requires Valid()
      modifies this
      ensures Valid() && t == old(Peek())
      ensures pos == if old(pos) < |tokens| then old(pos) + 1 else old(pos)
    {
      if pos < |tokens| {
        t := tokens[pos];
        pos := pos + 1;
      } else {
        t := EofToken;
      }
    }

    /** Whether the token under the cursor has the given kind. */
    function Check(kind: TokenType): (b: bool)
      reads this
      requires Valid()
      ensures b <==> First(Rest()).kind == kind
    {
      Peek().kind == kind
    }

    /** Consumes a token of the given kind, or fails naming the kind found instead. */
    method Expect(kind: TokenType) returns (r: Result<(), ParseError>)
      requires Valid()
      modifies this
      ensures Valid()
      ensures var found := old(Peek()).kind;
              if found == kind then r.Ok? && pos == old(pos) + Consumed(old(Rest()))
              else r == Err(Expected(kind, found)) && pos == old(pos)
    {
      if Peek().kind != kind {
        return Err(Expected(kind, Peek().kind));
      }
      var t := Next();
      return Ok(());
    }

    /** Parses every top-level expression up to EOF under a "Program" node. */
    method ParseProgram() returns (r: Result<Node, ParseError>)
      requires Valid()
      modifies this
      ensures Valid()
      ensures match ProgramAt(old(Rest()))
              case Ok((t, n)) =>
                r.Ok? && pos == old(pos) + n
                && r.value.Valid() && fresh(r.value.Repr) && r.value.model == t
              case Err(e) => r == Err(e)
    {
      ghost var total := ProgramItems(tokens[pos..], [], 0);
      ghost var acc: seq<Tree>, k: nat := [], 0;
      var program := new Node("Program");
      while !Check(EOF)
        invariant Valid() && pos == old(pos) + k
        invariant ProgramRemains(tokens[pos..], acc, k) == total
        invariant program.Valid() && fresh(program.Repr) && program.value == "Program"
        invariant program.model.children == acc
        decreases |tokens| - pos
      {
        ghost var rest := tokens[pos..];
        var added, c, n := ParseChild(program);
        if added.Err? {
          return Err(added.error);
        }
        ProgramItemsStep(rest, acc, k, c, n, tokens[pos..]);
        acc, k := acc + [c], k + n;
      }
      return Ok(program);
    }

    /** The body of the loops of parseProgram and parseList: parses the next expression
        and appends it to parent. */
    method ParseChild(parent: Node) returns (r: Result<(), ParseError>, ghost t: Tree, ghost n: nat)
      requires Valid() && parent.Valid()
      modifies this, parent
      ensures Valid() && parent.Valid()
      ensures fresh(parent.Repr - old(parent.Repr))
      ensures r.Ok? ==> ExprAt(old(tokens[pos..])) == Ok((t, n)) && pos == old(pos) + n
                        && parent.model == Tree(parent.value, old(parent.model.children) + [t])
      ensures r.Err? ==> ExprAt(old(tokens[pos..])) == Err(r.error)
      decreases |tokens| - pos, 2
    {
      var e := ParseExpression();
      if e.Err? {
        return Err(e.error), Tree("", []), 0;
      }
      parent.AddChild(e.value);
      t, n := ExprAt(old(tokens[pos..])).value.0, ExprAt(old(tokens[pos..])).value.1;
      return Ok(()), t, n;
    }

    /** Parses a list when the next token is "(", otherwise an atom. */
    method ParseExpression() returns (r: Result<Node, ParseError>)
      requires Valid()
      modifies this
      ensures Valid()
      ensures match ExprAt(old(Rest()))
              case Ok((t, n)) =>
                r.Ok? && pos == old(pos) + n
                && r.value.Valid() && fresh(r.value.Repr) && r.value.model == t
              case Err(e) => r == Err(e)
      decreases |tokens| - pos, 1
    {
      if Check(LPAREN) {
        r := ParseList();
        return;
      }
      r := ParseAtom();
    }

    /** Parses "(", the expressions up to ")" or EOF, and the closing ")". */
    method ParseList() returns (r: Result<Node, ParseError>)
      requires Valid()
      modifies this
      ensures Valid()
      ensures match ListAt(old(Rest()))
              case Ok((t, n)) =>
                r.Ok? && pos == old(pos) + n
                && r.value.Valid() && fresh(r.value.Repr) && r.value.model == t
              case Err(e) => r == Err(e)
      decreases |tokens| - pos, 0
    {
      ghost var ts := tokens[pos..];
      var open := Expect(LPAREN);
      if open.Err? {
        return Err(open.error);
      }
      assert ts[1..] == tokens[pos..];
      r := ParseListBody();
    }

    /** The part of parseList after "(": a "List" node over the expressions up to ")" or
        EOF, then the closing ")". */
    method ParseListBody() returns (r: Result<Node, ParseError>)
      requires Valid()
      modifies this
      ensures Valid()
      ensures match ListBody(old(tokens[pos..]))
              case Ok((t, n)) =>
                r.Ok? && pos == old(pos) + n
                && r.value.Valid() && fresh(r.value.Repr) && r.value.model == t
              case Err(e) => r == Err(e)
      decreases |tokens| - pos, 4
    {
      ghost var ts := tokens[pos..];
      var list := new Node("List");
      var items, cs, m := ParseItems(list);
      if items.Err? {
        return Err(items.error);
      }
      assert ts[m..] == tokens[pos..];
      var close := Expect(RPAREN);
      if close.Err? {
        return Err(close.error);
      }
      return Ok(list);
    }

    /** The loop of parseList: appends the expressions up to ")" or EOF to a node that
        has no children yet. */
    method ParseItems(list: Node) returns (r: Result<(), ParseError>, ghost cs: seq<Tree>, ghost m: nat)
      requires Valid() && list.Valid() && list.children == []
      modifies this, list
      ensures Valid() && list.Valid() && fresh(list.Repr - old(list.Repr))
      ensures r.Ok? ==> ListItems(old(tokens[pos..]), [], 0) == Ok((cs, m)) && pos == old(pos) + m
                        && list.model == Tree(list.value, cs)
      ensures r.Err? ==> ListItems(old(tokens[pos..]), [], 0) == Err(r.error)
      decreases |tokens| - pos, 3
    {
      ghost var total := ListItems(tokens[pos..], [], 0);
      ghost var acc: seq<Tree>, k: nat := [], 0;
      while !Check(RPAREN) && !Check(EOF)
        invariant Valid() && pos == old(pos) + k
        invariant ListRemains(tokens[pos..], acc, k) == total
        invariant list.Valid() && fresh(list.Repr - old(list.Repr)) && list.model.children == acc
        decreases |tokens| - pos
      {
        ghost var rest := tokens[pos..];
        var added, c, n := ParseChild(list);
        if added.Err? {
          return Err(added.error), [], 0;
        }
        ListItemsStep(rest, acc, k, c, n, tokens[pos..]);
        acc, k := acc + [c], k + n;
      }
      return Ok(()), acc, k;
    }

    /** Consumes one token and makes a leaf of it, unless it cannot start an atom. */
    method ParseAtom() returns (r: Result<Node, ParseError>)
      requires Valid()
      modifies this
      ensures Valid()
      ensures match AtomAt(old(Rest()))
              case Ok((t, n)) =>
                r.Ok? && pos == old(pos) + n
                && r.value.Valid() && fresh(r.value.Repr) && r.value.model == t
              case Err(e) => r == Err(e)
    {
      var t := Next();
      if IsAtomKind(t.kind) {
        var leaf := new Node(t.value);
        return Ok(leaf);
      }
      return Err(UnexpectedToken(t.kind));
    }
  }

  /** Runs a fresh parser over a whole token list. */
  method Parse(tokens: seq<Token>) returns (r: Result<Node, ParseError>)
    ensures match ProgramAt(tokens)
            case Ok((t, _)) => r.Ok? && r.value.Valid() && r.value.model == t
            case Err(e) => r == Err(e)
  {
    var parser := new Parser(tokens);
    assert parser.Rest() == tokens;
    r := parser.ParseProgram();
  }
}
