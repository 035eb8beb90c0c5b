/** Operator dispatch on the left operand.  A Float receiver runs the
    Float methods, a *Var or *Any receiver delegates every operator to its
    content (eclaType/var.go and eclaType/any.go), and the remaining
    variants use their own methods, which are Builtins here. */
module Operators {
  import opened Types
  import Floats

  /** left.<op>(right) for any receiver. */
  function Apply(rt: Builtins, op: BinOp, left: Value, right: Value): (r: Result<Value>)
    ensures Stripped(left).Float? ==> r == Floats.Binary(rt, op, Stripped(left).f, right)
    ensures !Stripped(left).Float? ==> r == rt.scalarBinary(op, Stripped(left), right)
    decreases left
  {
    match left
    case Float(f) => Floats.Binary(rt, op, f, right)
    case VarRef(b) => Apply(rt, op, b.value, right)
    case AnyRef(b) => Apply(rt, op, b.value, right)
    case _ => rt.scalarBinary(op, left, right)
  }

  /** left.Not() for any receiver. */
  function Not(rt: Builtins, v: Value): (r: Result<Value>)
    ensures Stripped(v).Float? ==> r.Err?
    ensures !Stripped(v).Float? ==> r == rt.scalarNot(Stripped(v))
    decreases v
  {
    match v
    case Float(f) => Floats.Not(f)
    case VarRef(b) => Not(rt, b.value)
    case AnyRef(b) => Not(rt, b.value)
    case _ => rt.scalarNot(v)
  }

  /** GetIndex: both wrappers delegate. */
  function GetIndex(rt: Builtins, v: Value, index: Value): (r: Result<Value>)
    ensures Stripped(v).Float? ==> r.Err?
    ensures !Stripped(v).Float? ==> r == rt.scalarIndex(Stripped(v), index)
    decreases v
  {
    match v
    case Float(f) => Floats.GetIndex(f, index)
    case VarRef(b) => GetIndex(rt, b.value, index)
    case AnyRef(b) => GetIndex(rt, b.value, index)
    case _ => rt.scalarIndex(v, index)
  }

  /** SetValue: Var refuses outright, Any delegates to its content. */
  function SetValue(rt: Builtins, v: Value, x: Value): (err: Option<string>)
    ensures v.VarRef? ==> err.Some?
    ensures err.None? ==> !Stripped(v).Float? && err == rt.scalarSetValue(Stripped(v), x)
    decreases v
  {
    match v
    case Float(f) => Floats.SetValue(f, x)
    case VarRef(_) => Some("this should not be called")
    case AnyRef(b) => SetValue(rt, b.value, x)
    case _ => rt.scalarSetValue(v, x)
  }

  /** Wrapper identity never leaks into dispatch: an operator applied to a
      wrapped receiver is the operator applied to the innermost content. */
  lemma {:induction false} ReceiverWrappersDelegate(rt: Builtins, op: BinOp, left: Value, right: Value)
    ensures Apply(rt, op, left, right) == Apply(rt, op, Stripped(left), right)
    ensures Not(rt, left) == Not(rt, Stripped(left))
    ensures forall i :: GetIndex(rt, left, i) == GetIndex(rt, Stripped(left), i)
    decreases left
  {
    match left
    case VarRef(b) => ReceiverWrappersDelegate(rt, op, b.value, right);
    case AnyRef(b) => ReceiverWrappersDelegate(rt, op, b.value, right);
    case _ =>
  }

  /** A Float receiver, however wrapped, follows the Float contract. */
  lemma FloatReceiver(rt: Builtins, op: BinOp, left: Value, right: Value)
    requires Stripped(left).Float?
    ensures Apply(rt, op, left, right) == Floats.Binary(rt, op, Stripped(left).f, right)
  {
    ReceiverWrappersDelegate(rt, op, left, right);
  }

  /** Increment and Decrement: the content plus or minus NewInt("1"). */
  function Stepped(rt: Builtins, op: BinOp, v: Value): Result<Value> {
    match NewInt(rt, "1")
    case Ok(one) => Apply(rt, op, v, one)
    case Err(m) => Err(m)
    case Panic(m) => Panic(m)
  }

  /** Stepping a float-valued binding keeps it a Float, whatever the
      wrapping, and is the float sum or difference with Int 1 widened. */
  lemma StepKeepsFloat(rt: Builtins, op: BinOp, v: Value)
    requires CanonicalLiterals(rt) && (op == Add || op == Sub)
    requires Stripped(v).Float?
    ensures Stepped(rt, op, v) == Ok(Float(rt.floatArith(op, Stripped(v).f, rt.intToFloat(1))))
  {
    FloatReceiver(rt, op, v, Int(1));
    Floats.BinaryMeetsContract(rt, op, Stripped(v).f, Int(1));
  }
}
