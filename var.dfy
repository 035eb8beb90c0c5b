/** The type-stable binding (eclaType/var.go): a named slot whose content
    keeps its type tag across SetVar, except that null is always accepted
    (as a null of the current tag) and another *Var is copied unchecked. */
module Vars {
  import opened Types
  import Operators

  /** NewVar(name, Type, value). */
  function NewVar(rt: Builtins, name: string, typ: string, value: Value): (r: Result<Binding>)
    ensures !r.Panic?
    ensures typ == StringType ==> r == Ok(Binding(name, String(GetString(rt, value))))
    ensures typ != StringType ==> (r.Ok? <==> TypeOf(value) == typ || IsNull(value))
    ensures r.Ok? ==> r.value.name == name && TypeOf(r.value.value) == typ
    ensures r.Ok? && typ != StringType && IsNull(value) ==> r.value.value == Null(typ)
    ensures r.Ok? && typ != StringType && value.VarRef? && !IsNull(value) ==>
              r.value.value == value.binding.value
    ensures r.Ok? && typ != StringType && !IsNull(value) && !value.VarRef? ==> r.value.value == value
  {
    if typ == StringType then
      Ok(Binding(name, String(GetString(rt, value))))
    else if typ != TypeOf(value) && !IsNull(value) then
      Err("cannot create variable of type " + typ + " with value of type " + TypeOf(value))
    else
      var v := if IsNull(value) then Null(typ) else value;
      Ok(Binding(name, if v.VarRef? then v.binding.value else v))
  }

  /** NewVarEmpty(name, Type): never fails, holds a null of the type. */
  function NewVarEmpty(name: string, typ: string): (r: Result<Binding>)
    ensures r.Ok? && r.value.name == name
    ensures IsNull(r.value.value) && TypeOf(r.value.value) == typ
  {
    Ok(Binding(name, Null(typ)))
  }

  /** What SetVar stores into a binding holding `current`, or its error. */
  function AssignVar(rt: Builtins, current: Binding, value: Value): (r: Result<Value>)
    ensures !r.Panic?
    ensures r.Err? <==> !value.VarRef? && !IsNull(value) && TypeOf(value) != TypeOf(current.value)
  {
    if value.VarRef? then Ok(value.binding.value)
    else if IsNull(value) then Ok(Null(TypeOf(current.value)))
    else if TypeOf(current.value) == TypeOf(value) then Ok(value)
    else Err("cannot set value of " + current.name + " to " + GetString(rt, value) +
             " because it is of type " + TypeOf(value) + " and not " + TypeOf(current.value))
  }

  /** SetVar is type-stable for every argument that is not itself a *Var:
      it succeeds exactly for null or a value of the current tag, a null
      becomes a null of the current tag, and it never panics. */
  lemma AssignVarIsTypeStable(rt: Builtins, current: Binding, value: Value)
    requires !value.VarRef?
    ensures var r := AssignVar(rt, current, value);
      && !r.Panic?
      && (r.Ok? <==> IsNull(value) || TypeOf(value) == TypeOf(current.value))
      && (r.Ok? ==> TypeOf(r.value) == TypeOf(current.value))
      && (IsNull(value) ==> r == Ok(Null(TypeOf(current.value))))
      && (r.Ok? && !IsNull(value) ==> r.value == value)
  {
  }

  /** A *Var argument is copied without any type check: the tag of the
      binding becomes the argument's, whatever it was before. */
  lemma AssignVarCopiesVarUnchecked(rt: Builtins, current: Binding, other: Binding)
    ensures AssignVar(rt, current, VarRef(other)) == Ok(other.value)
    ensures TypeOf(current.value) != TypeOf(other.value) ==>
              TypeOf(AssignVar(rt, current, VarRef(other)).value) != TypeOf(current.value)
  {
  }

  /** A binding made by NewVar keeps its declared tag through any sequence
      of SetVar calls whose arguments are not *Var values. */
  function AssignAll(rt: Builtins, b: Binding, values: seq<Value>): Binding
    decreases |values|
  {
    if values == [] then b
    else
      var r := AssignVar(rt, b, values[0]);
      AssignAll(rt, if r.Ok? then Binding(b.name, r.value) else b, values[1..])
  }

  lemma {:induction false} DeclaredTagIsInvariant(rt: Builtins, b: Binding, values: seq<Value>)
    requires forall i :: 0 <= i < |values| ==> !values[i].VarRef?
    ensures TypeOf(AssignAll(rt, b, values).value) == TypeOf(b.value)
    ensures AssignAll(rt, b, values).name == b.name
    decreases |values|
  {
    if values != [] {
      AssignVarIsTypeStable(rt, b, values[0]);
      var r := AssignVar(rt, b, values[0]);
      DeclaredTagIsInvariant(rt, if r.Ok? then Binding(b.name, r.value) else b, values[1..]);
    }
  }

  /** A *Var: the Go struct, updated in place. */
  class Var {
    var name: string
    var value: Value

    /** &Var{Name: b.name, Value: b.value}, as NewVar and NewVarEmpty build it. */
    constructor (b: Binding)
      ensures name == b.name && value == b.value
    {
      name := b.name;
      value := b.value;
    }

    function Snapshot(): Binding
      reads this
    {
      Binding(name, value)
    }

    /** GetType, GetString and IsNull report the content's. */
    function GetType(): (t: string)
      reads this
      ensures t == TypeOf(VarRef(Snapshot())) && t == TypeOf(value)
    {
      TypeOf(value)
    }

    method SetVar(rt: Builtins, v: Value) returns (err: Option<string>)
      modifies this
      ensures name == old(name)
      ensures match AssignVar(rt, old(Snapshot()), v)
        case Ok(stored) => err == None && value == stored
        case Err(e) => err == Some(e) && value == old(value)
        case Panic(_) => false
    {
      if v.VarRef? {
        value := v.binding.value;
        return None;
      }
      var typ2 := TypeOf(value);
      if IsNull(v) {
        value := Null(typ2);
        return None;
      }
      var typ := TypeOf(v);
      if typ2 == typ {
        value := v;
        return None;
      }
      err := Some("cannot set value of " + name + " to " + GetString(rt, v) +
                  " because it is of type " + typ + " and not " + typ2);
    }

    /** Increment: value := value.Add(NewInt("1")); an error panics.  After
        a panic the content is not modelled (the process stops). */
    method Increment(rt: Builtins) returns (panic: Option<string>)
      modifies this
      ensures name == old(name)
      ensures var r := Operators.Stepped(rt, Add, old(value));
        && (r.Ok? ==> panic == None && value == r.value)
        && (r.Failed() ==> panic == Some(r.msg))
    {
      panic := Step(rt, Add);
    }

    /** Decrement: value := value.Sub(NewInt("1")); an error panics. */
    method Decrement(rt: Builtins) returns (panic: Option<string>)
      modifies this
      ensures name == old(name)
      ensures var r := Operators.Stepped(rt, Sub, old(value));
        && (r.Ok? ==> panic == None && value == r.value)
        && (r.Failed() ==> panic == Some(r.msg))
    {
      panic := Step(rt, Sub);
    }

    method Step(rt: Builtins, op: BinOp) returns (panic: Option<string>)
      modifies this
      ensures name == old(name)
      ensures var r := Operators.Stepped(rt, op, old(value));
        && (r.Ok? ==> panic == None && value == r.value)
        && (r.Failed() ==> panic == Some(r.msg))
    {
      var r := Operators.Stepped(rt, op, value);
      if r.Ok? {
        value := r.value;
        panic := None;
      } else {
        panic := Some(r.msg);
      }
    }
  }
}
