/** Syntax-tree node shapes (parser/NodeTypes.go) and their source
    positions.  Every start and end position is a pure function of the
    node's children and tokens: it is the position of the first, respectively
    last, token the node records, in source order. */
module NodeTypes {
  import opened Types

  /** lexer.Token: its kind, its text and its position in the source. */
  datatype Token = Token(tokenType: string, value: string, position: int)

  /** The Expr node kinds. */
  datatype Expr =
    | Literal(token: Token, litType: string, text: string)
    | BinaryExpr(left: Expr, operator: Token, right: Expr)
    | UnaryExpr(operator: Token, operand: Expr)
    | ParenExpr(lparen: Token, inner: Expr, rparen: Token)

  /** The Node kinds a program's operations are made of.  `init` is None
      for a declaration written without an initializer (a nil Expr). */
  datatype Node =
    | ExprNode(expr: Expr)
    | PrintStmt(keyword: Token, lparen: Token, rparen: Token, expr: Expr)
    | TypeStmt(keyword: Token, lparen: Token, rparen: Token, expr: Expr)
    | VariableDecl(varToken: Token, name: string, declType: string, init: Option<Expr>)
    | VariableAssignStmt(varToken: Token, name: string, value: Expr)
    | VariableIncrementStmt(varToken: Token, name: string, opToken: Token)
    | VariableDecrementStmt(varToken: Token, name: string, opToken: Token)

  function StartPos(e: Expr): int {
    match e
    case Literal(t, _, _) => t.position
    case BinaryExpr(l, _, _) => StartPos(l)
    case UnaryExpr(op, _) => op.position
    case ParenExpr(lp, _, _) => lp.position
  }

  function EndPos(e: Expr): int {
    match e
    case Literal(t, _, _) => t.position
    case BinaryExpr(_, _, r) => EndPos(r)
    case UnaryExpr(_, x) => EndPos(x)
    case ParenExpr(_, _, rp) => rp.position
  }

  /** precedence(): a literal's, binary's or unary's is that of its token
      (TokenPrecedence, passed in); a parenthesised expression always has
      HighestPrecedence. */
  function Precedence(e: Expr, tokenPrecedence: Token -> int, highest: int): (p: int)
    ensures e.ParenExpr? ==> p == highest
    ensures e.BinaryExpr? || e.UnaryExpr? ==> p == tokenPrecedence(e.operator)
    ensures e.Literal? ==> p == tokenPrecedence(e.token)
  {
    match e
    case Literal(t, _, _) => tokenPrecedence(t)
    case BinaryExpr(_, op, _) => tokenPrecedence(op)
    case UnaryExpr(op, _) => tokenPrecedence(op)
    case ParenExpr(_, _, _) => highest
  }

  function NodeStartPos(n: Node): int {
    match n
    case ExprNode(e) => StartPos(e)
    case PrintStmt(kw, _, _, _) => kw.position
    case TypeStmt(kw, _, _, _) => kw.position
    case VariableDecl(vt, _, _, _) => vt.position
    case VariableAssignStmt(vt, _, _) => vt.position
    case VariableIncrementStmt(vt, _, _) => vt.position
    case VariableDecrementStmt(vt, _, _) => vt.position
  }

  /** EndPos of a declaration calls Value.EndPos(), a nil dereference when
      the declaration has no initializer: None stands for that panic. */
  function NodeEndPos(n: Node): Option<int> {
    match n
    case ExprNode(e) => Some(EndPos(e))
    case PrintStmt(_, _, rp, _) => Some(rp.position)
    case TypeStmt(_, _, rp, _) => Some(rp.position)
    case VariableDecl(_, _, _, init) => if init.Some? then Some(EndPos(init.value)) else None
    case VariableAssignStmt(_, _, v) => Some(EndPos(v))
    case VariableIncrementStmt(_, _, op) => Some(op.position)
    case VariableDecrementStmt(_, _, op) => Some(op.position)
  }

  // ---------------------------------------------------------------------
  // Reference definition: the tokens a node records, in source order.

  function Tokens(e: Expr): (ts: seq<Token>)
    ensures |ts| > 0
  {
    match e
    case Literal(t, _, _) => [t]
    case BinaryExpr(l, op, r) => Tokens(l) + [op] + Tokens(r)
    case UnaryExpr(op, x) => [op] + Tokens(x)
    case ParenExpr(lp, x, rp) => [lp] + Tokens(x) + [rp]
  }

  function NodeTokens(n: Node): (ts: seq<Token>)
    ensures |ts| > 0
  {
    match n
    case ExprNode(e) => Tokens(e)
    case PrintStmt(kw, lp, rp, e) => [kw, lp] + Tokens(e) + [rp]
    case TypeStmt(kw, lp, rp, e) => [kw, lp] + Tokens(e) + [rp]
    case VariableDecl(vt, _, _, init) => if init.Some? then [vt] + Tokens(init.value) else [vt]
    case VariableAssignStmt(vt, _, v) => [vt] + Tokens(v)
    case VariableIncrementStmt(vt, _, op) => [vt, op]
    case VariableDecrementStmt(vt, _, op) => [vt, op]
  }

  function Last<T>(s: seq<T>): T
    requires |s| > 0
  {
    s[|s| - 1]
  }

  /** An expression spans from its first token to its last. */
  lemma {:induction false} ExprSpan(e: Expr)
    ensures StartPos(e) == Tokens(e)[0].position
    ensures EndPos(e) == Last(Tokens(e)).position
  {
    match e
    case Literal(_, _, _) =>
    case BinaryExpr(l, op, r) =>
      ExprSpan(l);
      ExprSpan(r);
      assert Tokens(e) == Tokens(l) + ([op] + Tokens(r));
    case UnaryExpr(op, x) =>
      ExprSpan(x);
    case ParenExpr(_, _, _) =>
  }

  /** A node spans from its first token to its last; only a declaration
      without an initializer has no end position. */
  lemma NodeSpan(n: Node)
    ensures NodeStartPos(n) == NodeTokens(n)[0].position
    ensures NodeEndPos(n).None? <==> n.VariableDecl? && n.init.None?
    ensures NodeEndPos(n).Some? ==> NodeEndPos(n).value == Last(NodeTokens(n)).position
  {
    match n
    case ExprNode(e) => ExprSpan(e);
    case VariableDecl(_, _, _, init) => if init.Some? { ExprSpan(init.value); }
    case VariableAssignStmt(_, _, v) => ExprSpan(v);
    case _ =>
  }
}
