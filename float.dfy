/** The Float variant (eclaType/float.go): every binary operator is a type
    switch on the right operand.  A `*Var` operand is first replaced by its
    content, an `*Any` operand restarts the operator on its content, Int and
    Char widen to Float, Add with a String concatenates string forms, and
    Mod, DivEc, And, Or, Not, Xor and Append never succeed. */
module Floats {
  import opened Types

  /** The first type switch of each operator: a *Var becomes its content. */
  function UnwrapVar(other: Value): (o: Value)
    ensures o == other || (other.VarRef? && o == other.binding.value)
  {
    if other.VarRef? then other.binding.value else other
  }

  /** The error text of the default branch, per operator. */
  function Mismatch(op: BinOp, text: string): string {
    match op
    case Add => "cannot add " + text + " to float"
    case Sub => "cannot subtract " + text + " from float"
    case Mul => "cannot multiply " + text + " by float"
    case Div => "cannot divide " + text + " by float"
    case _ => "cannot compare float to " + text
  }

  /** An arithmetic operator yields a Float, a comparison a Bool. */
  function Numeric(rt: Builtins, op: BinOp, f: Float32, g: Float32): Value {
    if op.IsComparison() then Bool(rt.floatCompare(op, f, g))
    else Float(rt.floatArith(op, f, g))
  }

  /** Float.Add, Sub, Mul, Div, Mod, DivEc, Eq, NotEq, Gt, GtEq, Lw, LwEq,
      And, Or and Append with receiver f and argument other. */
  function Binary(rt: Builtins, op: BinOp, f: Float32, other: Value): (r: Result<Value>)
    ensures !r.Panic?
    ensures r.Ok? ==> Supported(op)
    ensures r.Ok? && op.IsComparison() ==> r.value.Bool?
    ensures r.Ok? && op.IsArithmetic() && op != Add ==> r.value.Float?
    ensures r.Ok? && op == Add ==> r.value.Float? || r.value.String?
    decreases other
  {
    match op
    case DivEc => Err("cannot divide ec by float")
    case And => Err("cannot and float")
    case Or => Err("cannot or float")
    case Append => Err("cannot append float")
    case Mod =>
      // Mod's single switch unwraps a *Var, recurses on an *Any, then fails
      if other.AnyRef? then Binary(rt, Mod, f, other.binding.value)
      else Err("cannot mod float")
    case _ =>
      var o := UnwrapVar(other);
      match o
      case Int(i) => Ok(Numeric(rt, op, f, rt.intToFloat(i)))
      case Char(c) => Ok(Numeric(rt, op, f, rt.intToFloat(c)))
      case Float(g) => Ok(Numeric(rt, op, f, g))
      case AnyRef(b) => Binary(rt, op, f, b.value)
      case String(_) =>
        if op == Add then Ok(String(rt.floatFormat(f) + GetString(rt, o)))
        else Err(Mismatch(op, GetString(rt, o)))
      case _ => Err(Mismatch(op, GetString(rt, o)))
  }

  /** Float.Not and Float.Xor fail whatever the operand. */
  function Not(f: Float32): Result<Value> {
    Err("cannot opposite float")
  }

  function Xor(f: Float32, other: Value): Result<Value> {
    Err("cannot xor float")
  }

  /** Float.GetIndex and Float.SetValue always report an error. */
  function GetIndex(f: Float32, index: Value): Result<Value> {
    Err("cannot get index from float")
  }

  function SetValue(f: Float32, x: Value): Option<string> {
    Some("cannot set value to Float")
  }

  // ---------------------------------------------------------------------
  // Reference definition: the operand the switch finally dispatches on.

  /** Unwrap one *Var, then follow *Any contents, as the operators do. */
  function Resolve(other: Value): (o: Value)
    ensures !o.AnyRef?
    decreases other
  {
    var u := UnwrapVar(other);
    if u.AnyRef? then Resolve(u.binding.value) else u
  }

  /** The operand classes the arithmetic and comparison operators accept. */
  predicate IsNumeric(o: Value) {
    o.Int? || o.Char? || o.Float?
  }

  /** The float an accepted operand widens to. */
  function Widen(rt: Builtins, o: Value): Float32
    requires IsNumeric(o)
  {
    match o
    case Int(i) => rt.intToFloat(i)
    case Char(c) => rt.intToFloat(c)
    case Float(g) => g
  }

  /** Which operators are defined for Float at all. */
  predicate Supported(op: BinOp) {
    op.IsArithmetic() || op.IsComparison()
  }

  /** The whole contract of a supported operator, in terms of Resolve. */
  function Expected(rt: Builtins, op: BinOp, f: Float32, other: Value): Result<Value>
    requires Supported(op)
  {
    var o := Resolve(other);
    if IsNumeric(o) then Ok(Numeric(rt, op, f, Widen(rt, o)))
    else if op == Add && o.String? then Ok(String(rt.floatFormat(f) + GetString(rt, o)))
    else Err(Mismatch(op, GetString(rt, o)))
  }

  /** Every supported operator behaves as its contract says, through any
      number of wrapper layers. */
  lemma {:induction false} BinaryMeetsContract(rt: Builtins, op: BinOp, f: Float32, other: Value)
    requires Supported(op)
    ensures Binary(rt, op, f, other) == Expected(rt, op, f, other)
    decreases other
  {
    var u := UnwrapVar(other);
    if u.AnyRef? {
      BinaryMeetsContract(rt, op, f, u.binding.value);
    }
  }

  /** Add succeeds exactly for Int, Float, Char and String operands; with a
      String it concatenates both string forms, otherwise it yields a Float. */
  lemma AddCases(rt: Builtins, f: Float32, other: Value)
    ensures var r := Binary(rt, Add, f, other); var o := Resolve(other);
      && (r.Ok? <==> IsNumeric(o) || o.String?)
      && (r.Failed() ==> r.Err?)
      && (IsNumeric(o) ==> r == Ok(Float(rt.floatArith(Add, f, Widen(rt, o)))))
      && (o.String? ==> r == Ok(String(rt.floatFormat(f) + GetString(rt, o))))
  {
    BinaryMeetsContract(rt, Add, f, other);
  }

  /** Sub, Mul and Div succeed exactly for Int, Char and Float operands and
      then yield the widened Float result; a String operand fails. */
  lemma ArithmeticCases(rt: Builtins, op: BinOp, f: Float32, other: Value)
    requires op == Sub || op == Mul || op == Div
    ensures var r := Binary(rt, op, f, other); var o := Resolve(other);
      && (r.Ok? <==> IsNumeric(o))
      && (r.Failed() ==> r.Err?)
      && (IsNumeric(o) ==> r == Ok(Float(rt.floatArith(op, f, Widen(rt, o)))))
  {
    BinaryMeetsContract(rt, op, f, other);
  }

  /** Comparisons return a Bool value exactly for Int, Char and Float
      operands and an error otherwise. */
  lemma ComparisonCases(rt: Builtins, op: BinOp, f: Float32, other: Value)
    requires op.IsComparison()
    ensures var r := Binary(rt, op, f, other); var o := Resolve(other);
      && (r.Ok? <==> IsNumeric(o))
      && (r.Failed() ==> r.Err?)
      && (r.Ok? ==> r.value == Bool(rt.floatCompare(op, f, Widen(rt, o))))
  {
    BinaryMeetsContract(rt, op, f, other);
  }

  /** Mod, DivEc, And, Or and Append never succeed, whatever the operand;
      Mod still follows *Any contents before failing. */
  lemma {:induction false} UnsupportedAlwaysFail(rt: Builtins, op: BinOp, f: Float32, other: Value)
    requires !Supported(op)
    ensures Binary(rt, op, f, other).Err?
    ensures op == Mod ==> Binary(rt, op, f, other) == Err("cannot mod float")
    decreases other
  {
    if op == Mod && other.AnyRef? {
      UnsupportedAlwaysFail(rt, op, f, other.binding.value);
    }
  }

  /** Wrapper identity never changes the outcome: an *Any operand behaves
      as its content, and so does a *Var whose content is not a *Var. */
  lemma WrappersAreTransparent(rt: Builtins, op: BinOp, f: Float32, b: Binding)
    ensures Binary(rt, op, f, AnyRef(b)) == Binary(rt, op, f, b.value)
    ensures !b.value.VarRef? ==> Binary(rt, op, f, VarRef(b)) == Binary(rt, op, f, b.value)
  {
    if Supported(op) {
      BinaryMeetsContract(rt, op, f, VarRef(b));
      BinaryMeetsContract(rt, op, f, b.value);
    } else {
      UnsupportedAlwaysFail(rt, op, f, b.value);
    }
  }

  /** GetType is "float", IsNull is false, and GetIndex, SetValue, Not and
      Xor always fail. */
  lemma ScalarQueries(f: Float32, x: Value)
    ensures TypeOf(Float(f)) == FloatType && !IsNull(Float(f))
    ensures GetIndex(f, x).Err? && SetValue(f, x).Some?
    ensures Not(f).Err? && Xor(f, x).Err?
  {
  }
}
