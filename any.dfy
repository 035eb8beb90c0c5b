/** The type-fluid binding (eclaType/any.go): SetAny replaces the content
    outright, so the reported type tag may change; a null becomes a null of
    the current tag. */
module Anys {
  import opened Types
  import Operators
  import Vars

  /** NewAny(name, Type, value).  An empty Type is inferred from the value,
      Type "string" coerces through GetString, and Type "float" with an
      Int-tagged value promotes through NewFloat(value.String()), which
      panics when the text does not parse. */
  function NewAny(rt: Builtins, name: string, typ: string, value: Value): (r: Result<Binding>)
    ensures r.Ok? ==> r.value.name == name
    ensures typ == StringType ==> r == Ok(Binding(name, String(GetString(rt, value))))
    ensures typ == FloatType && TypeOf(value) == IntType ==>
              r == (var p := NewFloat(rt, Format(rt, value));
                    if p.Ok? then Ok(Binding(name, p.value)) else Panic(p.msg))
    ensures r.Panic? ==> typ == FloatType && TypeOf(value) == IntType
    ensures typ == "" ==> r.Ok? && TypeOf(r.value.value) == TypeOf(value)
    ensures typ != "" && typ != StringType && !(typ == FloatType && TypeOf(value) == IntType) ==>
              (r.Ok? <==> TypeOf(value) == typ || IsNull(value))
    ensures r.Ok? && typ != "" ==> TypeOf(r.value.value) == typ
    ensures r.Ok? && IsNull(value) && typ != StringType && !(typ == FloatType && TypeOf(value) == IntType) ==>
              r.value.value == Null(if typ == "" then TypeOf(value) else typ)
    ensures r.Ok? && !IsNull(value) && value.VarRef? && typ != StringType && !(typ == FloatType && TypeOf(value) == IntType) ==>
              r.value.value == value.binding.value
    ensures r.Ok? && !IsNull(value) && !value.VarRef? && typ != StringType && !(typ == FloatType && TypeOf(value) == IntType) ==>
              r.value.value == value
  {
    if typ == StringType then
      Ok(Binding(name, String(GetString(rt, value))))
    else if typ == FloatType && TypeOf(value) == IntType then
      var p := NewFloat(rt, Format(rt, value));
      if p.Ok? then Ok(Binding(name, p.value)) else Panic(p.msg)
    else
      var t := if typ == "" then TypeOf(value) else typ;
      if typ != "" && typ != TypeOf(value) && !IsNull(value) then
        Err("cannot create variable of type " + typ + " with value of type " + TypeOf(value))
      else
        var v := if IsNull(value) then Null(t) else value;
        Ok(Binding(name, if v.VarRef? then v.binding.value else v))
  }

  /** NewAnyEmpty(name, Type): never fails, holds a null of the type. */
  function NewAnyEmpty(name: string, typ: string): (r: Result<Binding>)
    ensures r.Ok? && r.value.name == name
    ensures IsNull(r.value.value) && TypeOf(r.value.value) == typ
  {
    Ok(Binding(name, Null(typ)))
  }

  /** What SetAny, as written, stores into a binding holding `current`.
      The *Var branch asserts value.(*Any) on a *Var, which panics. */
  function AssignAny(current: Value, value: Value): (r: Result<Value>)
    ensures !r.Err?
    ensures r.Panic? <==> value.VarRef?
  {
    if value.VarRef? then Panic("interface conversion: eclaType.Type is *eclaType.Var, not *eclaType.Any")
    else if IsNull(value) then Ok(Null(TypeOf(current)))
    else Ok(value)
  }

  /** As written, SetAny of any *Var panics, whatever the Var holds. */
  lemma SetAnyOfVarPanics(current: Value, b: Binding)
    ensures AssignAny(current, VarRef(b)).Panic?
  {
  }

  /** SetAny as evidently intended: a *Var argument contributes its content
      (value.(*Var).Value), as NewAny and SetVar unwrap it. */
  function AssignAnyIntended(current: Value, value: Value): Result<Value> {
    if value.VarRef? then Ok(value.binding.value)
    else if IsNull(value) then Ok(Null(TypeOf(current)))
    else Ok(value)
  }

  /** The intended SetAny never fails: a non-null argument replaces the
      content outright (its tag becomes the binding's), a null becomes a null
      of the current tag, a *Var gives its content; on every argument but a
      *Var it agrees with SetAny as written. */
  lemma AssignAnyIsTypeFluid(current: Value, value: Value)
    ensures var r := AssignAnyIntended(current, value);
      && r.Ok?
      && (!value.VarRef? ==> r == AssignAny(current, value))
      && (value.VarRef? ==> r.value == value.binding.value)
      && (!value.VarRef? && !IsNull(value) ==> r.value == value && TypeOf(r.value) == TypeOf(value))
      && (!value.VarRef? && IsNull(value) ==> r.value == Null(TypeOf(current)))
  {
  }

  /** With the correction, assigning a non-null *Var stores what declaring a
      fresh Any from it with an inferred type stores. */
  lemma IntendedSetAnyMatchesNewAny(rt: Builtins, current: Value, name: string, b: Binding)
    requires !IsNull(b.value)
    ensures NewAny(rt, name, "", VarRef(b)) == Ok(Binding(name, AssignAnyIntended(current, VarRef(b)).value))
  {
  }

  /** Where Var and Any differ: a non-null value of another tag is stored by
      SetAny (changing the tag) and refused by SetVar. */
  lemma {:induction false} AnyAcceptsWhatVarRefuses(rt: Builtins, current: Binding, value: Value)
    requires !value.VarRef? && !IsNull(value) && TypeOf(value) != TypeOf(current.value)
    ensures AssignAnyIntended(current.value, value) == Ok(value)
    ensures TypeOf(AssignAnyIntended(current.value, value).value) != TypeOf(current.value)
    ensures Vars.AssignVar(rt, current, value).Err?
  {
  }

  /** An *Any: the Go struct, updated in place. */
  class Any {
    var name: string
    var value: Value

    /** &Any{Name: b.name, Value: b.value}, as NewAny and NewAnyEmpty build it. */
    constructor (b: Binding)
      ensures name == b.name && value == b.value
    {
      name := b.name;
      value := b.value;
    }

    /** SetValue delegates to the content's SetValue. */
    function SetValue(rt: Builtins, x: Value): (err: Option<string>)
      reads this
      ensures err == Operators.SetValue(rt, AnyRef(Binding(name, value)), x)
      ensures value.Float? || value.VarRef? ==> err.Some?
    {
      Operators.SetValue(rt, value, x)
    }

    /** SetAny, with the *Var branch corrected: it never reports an error. */
    method SetAny(v: Value) returns (err: Option<string>)
      modifies this
      ensures name == old(name)
      ensures err == None
      ensures value == AssignAnyIntended(old(value), v).value
    {
      if v.VarRef? {
        value := v.binding.value;
        return None;
      }
      var typ2 := TypeOf(value);
      if IsNull(v) {
        value := Null(typ2);
        return None;
      }
      value := v;
      err := None;
    }

    /** Increment: value := value.Add(NewInt("1")); an error panics. */
    method Increment(rt: Builtins) returns (panic: Option<string>)
      modifies this
      ensures name == old(name)
      ensures var r := Operators.Stepped(rt, Add, old(value));
        && (r.Ok? ==> panic == None && value == r.value)
        && (r.Failed() ==> panic == Some(r.msg))
    {
      panic := Step(rt, Add);
    }

    /** Decrement: value := value.Sub(NewInt("1")); an error panics. */
    method Decrement(rt: Builtins) returns (panic: Option<string>)
      modifies this
      ensures name == old(name)
      ensures var r := Operators.Stepped(rt, Sub, old(value));
        && (r.Ok? ==> panic == None && value == r.value)
        && (r.Failed() ==> panic == Some(r.msg))
    {
      panic := Step(rt, Sub);
    }

    method Step(rt: Builtins, op: BinOp) returns (panic: Option<string>)
      modifies this
      ensures name == old(name)
      ensures var r := Operators.Stepped(rt, op, old(value));
        && (r.Ok? ==> panic == None && value == r.value)
        && (r.Failed() ==> panic == Some(r.msg))
    {
      var r := Operators.Stepped(rt, op, value);
      if r.Ok? {
        value := r.value;
        panic := None;
      } else {
        panic := Some(r.msg);
      }
    }
  }
}
