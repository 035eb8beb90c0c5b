/** The tree-walking evaluator (interpreter/exec.go).

    Expressions are evaluated by the pure function `Eval`, which reads the
    scope and yields a result together with the text it wrote to standard
    output.  Statements are specified by the pure function `Exec`, which also
    yields the new scope; the methods RunTree, RunVariableDecl, RunPrintStmt,
    RunTypeStmt and Run carry out the same steps on an `Env` object.  A Go
    panic ends the run: every result carries it as `Panicked`, and nothing after
    it is evaluated. */
module Exec {
  import opened Types
  import opened NodeTypes
  import Operators
  import Floats
  import Vars
  import Scopes
  import Environment

  /** Token kinds of the lexer (their spelling is the lexer's; only their
      distinctness matters here).  "VAR" is spelled out in exec.go itself. */
  const INT := "INT"
  const STRING := "STRING"
  const BOOL := "BOOL"
  const FLOAT := "FLOAT"
  const VAR := "VAR"
  const ADD := "ADD"
  const SUB := "SUB"
  const MULT := "MULT"
  const DIV := "DIV"
  const MOD := "MOD"
  const QOT := "QOT"

  /** The message of a Go nil dereference. */
  const NilDeref := "runtime error: invalid memory address or nil pointer dereference"

  /** What RunTree returns: a value, Go's nil, or a panic in progress. */
  datatype Res = Val(v: Value) | Nil | Panicked(msg: string)

  /** An evaluated expression and what it printed. */
  datatype Outcome = Outcome(res: Res, out: string)

  /** An executed node: the scope afterwards, what it printed, its result. */
  datatype Step = Step(sc: Scopes.Scope, out: string, res: Res)

  /** A constructor's result as RunTree sees it: a returned error or a panic
      both end the run. */
  function FromResult(r: Result<Value>): (res: Res)
    ensures res.Val? <==> r.Ok?
    ensures res.Val? ==> res.v == r.value
    ensures !res.Nil?
  {
    if r.Ok? then Val(r.value) else Panicked(r.msg)
  }

  /** New: the value a literal of the given token kind denotes.  A variable
      reference yields the binding the scope resolves the name to, or nil
      when the name is not bound. */
  function New(rt: Builtins, kind: string, text: string, sc: Scopes.Scope): (res: Res)
    ensures kind == INT ==> res == FromResult(NewInt(rt, text))
    ensures kind == STRING ==> res == Val(String(rt.newString(text)))
    ensures kind == BOOL ==> res == FromResult(NewBool(rt, text))
    ensures kind == FLOAT ==> res == FromResult(NewFloat(rt, text))
    ensures kind == VAR ==> (res.Val? <==> Scopes.Get(sc, text).Some?)
    ensures kind == VAR && res.Val? ==> res.v == VarRef(Scopes.Get(sc, text).value)
    ensures kind !in {INT, STRING, BOOL, FLOAT, VAR} ==> res == Panicked("Unknown type")
  {
    if kind == INT then FromResult(NewInt(rt, text))
    else if kind == STRING then Val(String(rt.newString(text)))
    else if kind == BOOL then FromResult(NewBool(rt, text))
    else if kind == FLOAT then FromResult(NewFloat(rt, text))
    else if kind == VAR then
      (match Scopes.Get(sc, text)
       case Some(b) => Val(VarRef(b))
       case None => Nil)
    else Panicked("Unknown type")
  }

  /** The operator method a binary operator token selects. */
  function OperatorOf(tokenType: string): Option<BinOp> {
    if tokenType == ADD then Some(Add)
    else if tokenType == SUB then Some(Sub)
    else if tokenType == MULT then Some(Mul)
    else if tokenType == DIV then Some(Div)
    else if tokenType == MOD then Some(Mod)
    else if tokenType == QOT then Some(DivEc)
    else None
  }

  /** The operator step of RunBinaryExpr once both operands are evaluated:
      its result and what it printed.  An unknown operator yields nil; a nil
      operand is dereferenced and panics; an operator error panics.  The Add
      case prints its result (or <nil> alongside an error) before checking it. */
  function Combine(rt: Builtins, tokenType: string, left: Res, right: Res): (r: (Res, string))
    requires !left.Panicked? && !right.Panicked?
    ensures r.1 != "" ==> tokenType == ADD
    ensures r.0.Val? ==> OperatorOf(tokenType).Some? && left.Val? && right.Val?
    ensures OperatorOf(tokenType).None? ==> r == (Nil, "")
  {
    match OperatorOf(tokenType)
    case None => (Nil, "")
    case Some(op) =>
      if left.Nil? || right.Nil? then (Panicked(NilDeref), "")
      else
        var r := Operators.Apply(rt, op, left.v, right.v);
        var shown := if op == Add && !r.Panic? then (if r.Ok? then Format(rt, r.value) else "<nil>") + "\n" else "";
        (FromResult(r), shown)
  }

  /** Unary minus: Int(0).Sub(x). */
  function Negate(rt: Builtins, x: Res): (r: Res)
    requires !x.Panicked?
    ensures !r.Nil?
    ensures r.Val? ==> x.Val? && Operators.Apply(rt, Sub, Int(0), x.v) == Ok(r.v)
  {
    if x.Nil? then Panicked(NilDeref) else FromResult(Operators.Apply(rt, Sub, Int(0), x.v))
  }

  /** No binary ADD anywhere in the expression: only that branch prints. */
  predicate NoAddition(e: Expr) {
    match e
    case Literal(_, _, _) => true
    case ParenExpr(_, inner, _) => NoAddition(inner)
    case UnaryExpr(_, x) => NoAddition(x)
    case BinaryExpr(l, op, r) => op.tokenType != ADD && NoAddition(l) && NoAddition(r)
  }

  /** RunTree on an expression (RunBinaryExpr, RunUnaryExpr, New, and the
      parenthesis pass-through). */
  function Eval(rt: Builtins, e: Expr, sc: Scopes.Scope): (r: Outcome)
    ensures NoAddition(e) ==> r.out == ""
    decreases e
  {
    match e
    case Literal(_, kind, text) => Outcome(New(rt, kind, text, sc), "")
    case ParenExpr(_, inner, _) => Eval(rt, inner, sc)
    case UnaryExpr(op, x) =>
      if op.tokenType == SUB then
        var o := Eval(rt, x, sc);
        if o.res.Panicked? then o else Outcome(Negate(rt, o.res), o.out)
      else if op.tokenType == ADD then Eval(rt, x, sc)
      else Outcome(Nil, "")
    case BinaryExpr(l, op, r) =>
      var lo := Eval(rt, l, sc);
      if lo.res.Panicked? then lo
      else
        var ro := Eval(rt, r, sc);
        if ro.res.Panicked? then Outcome(ro.res, lo.out + ro.out)
        else
          var (res, shown) := Combine(rt, op.tokenType, lo.res, ro.res);
          Outcome(res, lo.out + ro.out + shown)
  }

  /** The zero value a declaration without initializer starts from, for the
      four types that have one. */
  function Zero(rt: Builtins, typ: string): Option<Result<Value>> {
    if typ == IntType then Some(NewInt(rt, "0"))
    else if typ == StringType then Some(Ok(String(rt.newString(""))))
    else if typ == BoolType then Some(NewBool(rt, "false"))
    else if typ == FloatType then Some(NewFloat(rt, "0.0"))
    else None
  }

  /** NewVar(name, typ, value) followed by SetVar; an error panics. */
  function Declare(rt: Builtins, sc: Scopes.Scope, name: string, typ: string, value: Value, out: string): Step {
    var d := Vars.NewVar(rt, name, typ, value);
    if d.Ok? then Step(Scopes.Set(sc, name, d.value), out, Nil) else Step(sc, out, Panicked(d.msg))
  }

  /** RunTree on any node. */
  function Exec(rt: Builtins, n: Node, sc: Scopes.Scope): (r: Step)
    ensures !n.VariableDecl? ==> r.sc == sc
    ensures !n.ExprNode? ==> !r.res.Val?
  {
    match n
    case ExprNode(e) =>
      var o := Eval(rt, e, sc);
      Step(sc, o.out, o.res)
    case PrintStmt(_, _, _, e) =>
      var o := Eval(rt, e, sc);
      (match o.res
       case Val(v) => Step(sc, o.out + Format(rt, String(GetString(rt, v))), Nil)
       case Nil => Step(sc, o.out, Panicked(NilDeref))
       case Panicked(m) => Step(sc, o.out, Panicked(m)))
    case TypeStmt(_, _, _, e) =>
      var o := Eval(rt, e, sc);
      (match o.res
       case Val(v) => Step(sc, o.out + TypeOf(v) + "\n", Nil)
       case Nil => Step(sc, o.out, Panicked(NilDeref))
       case Panicked(m) => Step(sc, o.out, Panicked(m)))
    case VariableDecl(_, name, typ, init) =>
      if init.None? then
        (match Zero(rt, typ)
         case None => Step(sc, "", Nil)
         case Some(z) => if z.Ok? then Declare(rt, sc, name, typ, z.value, "") else Step(sc, "", Panicked(z.msg)))
      else
        var o := Eval(rt, init.value, sc);
        (match o.res
         case Val(v) => Declare(rt, sc, name, typ, v, o.out)
         case Nil => Step(sc, o.out, Panicked(NilDeref))
         case Panicked(m) => Step(sc, o.out, Panicked(m)))
    case VariableAssignStmt(_, _, _) => Step(sc, "", Nil)
    case VariableIncrementStmt(_, _, _) => Step(sc, "", Nil)
    case VariableDecrementStmt(_, _, _) => Step(sc, "", Nil)
  }

  /** Run: every operation in order, until the first panic. */
  function RunAll(rt: Builtins, ops: seq<Node>, sc: Scopes.Scope): (r: Step)
    ensures !r.res.Val?
    decreases |ops|
  {
    if ops == [] then Step(sc, "", Nil)
    else
      var s := Exec(rt, ops[0], sc);
      if s.res.Panicked? then s
      else After(s.out, RunAll(rt, ops[1..], s.sc))
  }

  /** A step whose output is preceded by what was printed before it. */
  function After(printed: string, s: Step): Step {
    Step(s.sc, printed + s.out, s.res)
  }

  // ---------------------------------------------------------------------
  // Properties of the evaluator.

  /** Both operands are evaluated, left before right, with no short
      circuit: the left operand's output comes first, then the right's. */
  lemma BinaryEvaluatesBothOperands(rt: Builtins, l: Expr, op: Token, r: Expr, sc: Scopes.Scope)
    ensures var lo := Eval(rt, l, sc);
            var ro := Eval(rt, r, sc);
            var o := Eval(rt, BinaryExpr(l, op, r), sc);
      && (lo.res.Panicked? ==> o == lo)
      && (!lo.res.Panicked? ==> o.out[..|lo.out + ro.out|] == lo.out + ro.out)
      && (!lo.res.Panicked? && ro.res.Panicked? ==> o.res == ro.res)
  {
  }

  /** A recognised operator applied to two values gives the operator
      method's value, and its error (returned or raised) as a panic. */
  lemma BinaryAppliesOperator(rt: Builtins, l: Expr, op: Token, r: Expr, sc: Scopes.Scope, bop: BinOp)
    requires OperatorOf(op.tokenType) == Some(bop)
    requires Eval(rt, l, sc).res.Val? && Eval(rt, r, sc).res.Val?
    ensures var x := Operators.Apply(rt, bop, Eval(rt, l, sc).res.v, Eval(rt, r, sc).res.v);
            var o := Eval(rt, BinaryExpr(l, op, r), sc);
      && (x.Ok? <==> o.res.Val?)
      && (x.Ok? ==> o.res.v == x.value)
      && (x.Failed() ==> o.res == Panicked(x.msg))
  {
  }

  /** An operator token the evaluator does not know yields nil after both
      operands are evaluated, and prints nothing of its own. */
  lemma UnknownOperatorIsNil(rt: Builtins, l: Expr, op: Token, r: Expr, sc: Scopes.Scope)
    requires op.tokenType !in {ADD, SUB, MULT, DIV, MOD, QOT}
    requires !Eval(rt, l, sc).res.Panicked? && !Eval(rt, r, sc).res.Panicked?
    ensures Eval(rt, BinaryExpr(l, op, r), sc) == Outcome(Nil, Eval(rt, l, sc).out + Eval(rt, r, sc).out)
  {
  }

  /** A float on the left of -, * or / with an Int, Char or Float on the
      right gives the float operation on the widened operands; on the left
      of % it always panics. */
  lemma FloatArithmetic(rt: Builtins, l: Expr, op: Token, r: Expr, sc: Scopes.Scope, bop: BinOp)
    requires bop == Sub || bop == Mul || bop == Div
    requires OperatorOf(op.tokenType) == Some(bop)
    requires Eval(rt, l, sc).res.Val? && Eval(rt, r, sc).res.Val?
    requires Stripped(Eval(rt, l, sc).res.v).Float?
    requires Floats.IsNumeric(Floats.Resolve(Eval(rt, r, sc).res.v))
    ensures Eval(rt, BinaryExpr(l, op, r), sc).res ==
            Val(Float(rt.floatArith(bop, Stripped(Eval(rt, l, sc).res.v).f,
                                    Floats.Widen(rt, Floats.Resolve(Eval(rt, r, sc).res.v)))))
  {
    var lv, rv := Eval(rt, l, sc).res.v, Eval(rt, r, sc).res.v;
    Operators.FloatReceiver(rt, bop, lv, rv);
    Floats.BinaryMeetsContract(rt, bop, Stripped(lv).f, rv);
  }

  /** Unary minus is subtraction from the integer literal 0, and unary plus
      and parentheses are transparent. */
  lemma UnaryOperators(rt: Builtins, minus: Token, plus: Token, zero: Token, x: Expr, lp: Token, rp: Token, sc: Scopes.Scope)
    requires CanonicalLiterals(rt)
    requires minus.tokenType == SUB && plus.tokenType == ADD
    ensures Eval(rt, UnaryExpr(minus, x), sc) == Eval(rt, BinaryExpr(Literal(zero, INT, "0"), minus, x), sc)
    ensures Eval(rt, UnaryExpr(plus, x), sc) == Eval(rt, x, sc)
    ensures Eval(rt, ParenExpr(lp, x, rp), sc) == Eval(rt, x, sc)
  {
    var zo := Eval(rt, Literal(zero, INT, "0"), sc);
    assert zo == Outcome(Val(Int(0)), "");
    assert "" + Eval(rt, x, sc).out == Eval(rt, x, sc).out;
    assert Eval(rt, x, sc).out + "" == Eval(rt, x, sc).out;
  }

  /** Expressions never change the scope, and assignment, increment and
      decrement statements are not executed: they change nothing. */
  lemma StatementsWithoutEffect(rt: Builtins, n: Node, sc: Scopes.Scope)
    requires n.ExprNode? || n.VariableAssignStmt? || n.VariableIncrementStmt? || n.VariableDecrementStmt?
    ensures Exec(rt, n, sc).sc == sc
    ensures !n.ExprNode? ==> Exec(rt, n, sc) == Step(sc, "", Nil)
    ensures n.ExprNode? ==> Exec(rt, n, sc).res == Eval(rt, n.expr, sc).res
  {
  }

  /** print writes the String that GetString returns, through that String's
      own String method as fmt.Print does; type writes the type tag and a
      newline; a variable argument shows its content. */
  lemma PrintAndTypeOfVariable(rt: Builtins, kw: Token, lp: Token, rp: Token, tok: Token, name: string, sc: Scopes.Scope)
    requires Scopes.Get(sc, name).Some?
    ensures var b := Scopes.Get(sc, name).value;
      && Exec(rt, PrintStmt(kw, lp, rp, Literal(tok, VAR, name)), sc) == Step(sc, Format(rt, String(GetString(rt, b.value))), Nil)
      && Exec(rt, TypeStmt(kw, lp, rp, Literal(tok, VAR, name)), sc) == Step(sc, TypeOf(b.value) + "\n", Nil)
  {
  }

  /** print and type of an unbound name dereference nil and panic. */
  lemma PrintUnboundPanics(rt: Builtins, kw: Token, lp: Token, rp: Token, tok: Token, name: string, sc: Scopes.Scope)
    requires Scopes.Get(sc, name).None?
    ensures Exec(rt, PrintStmt(kw, lp, rp, Literal(tok, VAR, name)), sc) == Step(sc, "", Panicked(NilDeref))
    ensures Exec(rt, TypeStmt(kw, lp, rp, Literal(tok, VAR, name)), sc) == Step(sc, "", Panicked(NilDeref))
  {
  }

  /** A declaration without initializer of type int, string, bool or float
      binds the name to that type's zero value; other types bind nothing. */
  lemma ZeroDeclarations(rt: Builtins, vt: Token, name: string, typ: string, sc: Scopes.Scope, other: string)
    requires CanonicalLiterals(rt) && Scopes.Valid(sc)
    ensures var s := Exec(rt, VariableDecl(vt, name, typ, None), sc);
      && s.out == "" && s.res == Nil
      && (typ == IntType ==> Scopes.Get(s.sc, name) == Some(Binding(name, Int(0))))
      && (typ == BoolType ==> Scopes.Get(s.sc, name) == Some(Binding(name, Bool(false))))
      && (typ == StringType ==> Scopes.Get(s.sc, name) == Some(Binding(name, String(GetString(rt, String(rt.newString("")))))))
      && (typ == FloatType ==> Scopes.Get(s.sc, name) == Some(Binding(name, Float(rt.parseFloat("0.0").value))))
      && (typ !in {IntType, BoolType, StringType, FloatType} ==> s.sc == sc)
      && (other != name ==> Scopes.Get(s.sc, other) == Scopes.Get(sc, other))
  {
    Scopes.SetThenGet(sc, name, Binding(name, Int(0)), other);
    Scopes.SetThenGet(sc, name, Binding(name, Bool(false)), other);
    Scopes.SetThenGet(sc, name, Binding(name, String(GetString(rt, String(rt.newString(""))))), other);
    Scopes.SetThenGet(sc, name, Binding(name, Float(rt.parseFloat("0.0").value)), other);
  }

  /** A declaration with an initializer that completes binds the name to a
      value of the declared type, and leaves every other name alone; one
      whose value has another non-null type panics and binds nothing. */
  lemma InitializedDeclaration(rt: Builtins, vt: Token, name: string, typ: string, e: Expr, sc: Scopes.Scope, other: string)
    requires Scopes.Valid(sc)
    ensures var s := Exec(rt, VariableDecl(vt, name, typ, Some(e)), sc);
            var o := Eval(rt, e, sc);
      && s.out == o.out
      && (s.res.Nil? <==> o.res.Val? && (typ == StringType || TypeOf(o.res.v) == typ || IsNull(o.res.v)))
      && (s.res.Nil? ==> Scopes.Get(s.sc, name) == Some(Vars.NewVar(rt, name, typ, o.res.v).value))
      && (s.res.Nil? ==> Scopes.Get(s.sc, name).Some?
                         && Scopes.Get(s.sc, name).value.name == name
                         && TypeOf(Scopes.Get(s.sc, name).value.value) == typ)
      && (other != name ==> Scopes.Get(s.sc, other) == Scopes.Get(sc, other))
      && (s.res.Panicked? ==> s.sc == sc)
  {
    var o := Eval(rt, e, sc);
    if o.res.Val? {
      var d := Vars.NewVar(rt, name, typ, o.res.v);
      if d.Ok? {
        Scopes.SetThenGet(sc, name, d.value, other);
      }
    }
  }

  /** Running a concatenation runs the first part, and the second part only
      when the first did not panic, from the scope the first left. */
  lemma {:induction false} RunAllAppend(rt: Builtins, a: seq<Node>, b: seq<Node>, sc: Scopes.Scope)
    ensures var first := RunAll(rt, a, sc);
      RunAll(rt, a + b, sc) == if first.res.Panicked? then first else After(first.out, RunAll(rt, b, first.sc))
    decreases |a|
  {
    if a == [] {
      assert a + b == b;
      assert "" + RunAll(rt, b, sc).out == RunAll(rt, b, sc).out;
    } else {
      assert (a + b)[0] == a[0] && (a + b)[1..] == a[1..] + b;
      var s := Exec(rt, a[0], sc);
      if !s.res.Panicked? {
        RunAllAppend(rt, a[1..], b, s.sc);
        var rest := RunAll(rt, a[1..], s.sc);
        if !rest.res.Panicked? {
          var tail := RunAll(rt, b, rest.sc);
          assert s.out + (rest.out + tail.out) == (s.out + rest.out) + tail.out;
        }
      }
    }
  }

  /** The first operation that panics ends the run with its panic and the
      scope it found; nothing after it is executed. */
  lemma {:induction false} RunStopsAtFirstPanic(rt: Builtins, ops: seq<Node>, sc: Scopes.Scope, i: nat)
    requires i < |ops| && Exec(rt, ops[i], RunAll(rt, ops[..i], sc).sc).res.Panicked?
    requires !RunAll(rt, ops[..i], sc).res.Panicked?
    ensures RunAll(rt, ops, sc).res == Exec(rt, ops[i], RunAll(rt, ops[..i], sc).sc).res
    ensures RunAll(rt, ops, sc).sc == RunAll(rt, ops[..i], sc).sc
  {
    assert ops == ops[..i] + ([ops[i]] + ops[i + 1..]);
    RunAllAppend(rt, ops[..i], [ops[i]] + ops[i + 1..], sc);
    var mid := RunAll(rt, ops[..i], sc).sc;
    assert ([ops[i]] + ops[i + 1..])[0] == ops[i];
  }

  // ---------------------------------------------------------------------
  // The statement runners, on the environment object.

  /** RunPrintStmt: evaluates the argument and prints its string form. */
  method RunPrintStmt(rt: Builtins, n: Node, env: Environment.Env) returns (res: Res, printed: string)
    requires n.PrintStmt?
    ensures Exec(rt, n, env.vars) == Step(env.vars, printed, res)
  {
    var o := Eval(rt, n.expr, env.vars);
    printed := o.out;
    match o.res
    case Val(v) => printed := printed + Format(rt, String(GetString(rt, v))); res := Nil;
    case Nil => res := Panicked(NilDeref);
    case Panicked(m) => res := Panicked(m);
  }

  /** RunTypeStmt: evaluates the argument and prints its type tag. */
  method RunTypeStmt(rt: Builtins, n: Node, env: Environment.Env) returns (res: Res, printed: string)
    requires n.TypeStmt?
    ensures Exec(rt, n, env.vars) == Step(env.vars, printed, res)
  {
    var o := Eval(rt, n.expr, env.vars);
    printed := o.out;
    match o.res
    case Val(v) => printed := printed + TypeOf(v) + "\n"; res := Nil;
    case Nil => res := Panicked(NilDeref);
    case Panicked(m) => res := Panicked(m);
  }

  /** RunVariableDecl: builds the variable with NewVar and installs it with
      SetVar; a NewVar error panics. */
  method RunVariableDecl(rt: Builtins, n: Node, env: Environment.Env) returns (res: Res, printed: string)
    requires n.VariableDecl?
    modifies env`vars
    ensures Exec(rt, n, old(env.vars)) == Step(env.vars, printed, res)
  {
    var value: Value;
    printed := "";
    if n.init.None? {
      var z := Zero(rt, n.declType);
      if z.None? {
        return Nil, "";
      }
      if !z.value.Ok? {
        return Panicked(z.value.msg), "";
      }
      value := z.value.value;
    } else {
      var o := Eval(rt, n.init.value, env.vars);
      printed := o.out;
      match o.res
      case Nil => return Panicked(NilDeref), printed;
      case Panicked(m) => return Panicked(m), printed;
      case Val(v) => value := v;
    }
    var d := Vars.NewVar(rt, n.name, n.declType, value);
    if !d.Ok? {
      return Panicked(d.msg), printed;
    }
    env.SetVar(n.name, d.value);
    res := Nil;
  }

  /** RunTree: dispatches on the node kind. */
  method RunTree(rt: Builtins, n: Node, env: Environment.Env) returns (res: Res, printed: string)
    modifies env`vars
    ensures Exec(rt, n, old(env.vars)) == Step(env.vars, printed, res)
  {
    match n
    case ExprNode(e) =>
      var o := Eval(rt, e, env.vars);
      res, printed := o.res, o.out;
    case PrintStmt(_, _, _, _) => res, printed := RunPrintStmt(rt, n, env);
    case TypeStmt(_, _, _, _) => res, printed := RunTypeStmt(rt, n, env);
    case VariableDecl(_, _, _, _) => res, printed := RunVariableDecl(rt, n, env);
    case VariableAssignStmt(_, _, _) => res, printed := Nil, "";
    case VariableIncrementStmt(_, _, _) => res, printed := Nil, "";
    case VariableDecrementStmt(_, _, _) => res, printed := Nil, "";
  }

  /** Run: every top-level operation of the syntax tree in order; the first
      panic ends the run. */
  method Run(rt: Builtins, env: Environment.Env) returns (res: Res, printed: string)
    requires env.syntaxTree != null
    modifies env`vars
    ensures RunAll(rt, env.syntaxTree.parseTree.operations, old(env.vars)) == Step(env.vars, printed, res)
  {
    var ops := env.syntaxTree.parseTree.operations;
    var i := 0;
    printed := "";
    while i < |ops|
      invariant 0 <= i <= |ops|
      invariant ops == env.syntaxTree.parseTree.operations
      invariant RunAll(rt, ops, old(env.vars)) == After(printed, RunAll(rt, ops[i..], env.vars))
    {
      assert ops[i..][0] == ops[i] && ops[i..][1..] == ops[i + 1..];
      var before := env.vars;
      var r, p := RunTree(rt, ops[i], env);
      if r.Panicked? {
        return r, printed + p;
      }
      assert printed + (p + RunAll(rt, ops[i + 1..], env.vars).out)
          == (printed + p) + RunAll(rt, ops[i + 1..], env.vars).out;
      printed := printed + p;
      i := i + 1;
    }
    res := Nil;
  }
}
