/** Runtime values of the Ecla interpreter (Go package eclaType).

    The closed set of value variants, their type tags, their null test and
    their string forms.  Everything whose Go source is not part of this model
    (float32 arithmetic and formatting, the literal parsers, and the methods
    of the Int, String, Char, Bool and Null variants) is gathered in the
    `Builtins` record that every operation receives as a parameter.  A few
    behaviours of those variants are fixed here instead: their type tags
    (TypeOf), their null test (IsNull) and the panic of NewInt and NewBool
    on a text that does not parse. */
module Types {

  datatype Option<+T> = None | Some(value: T)

  /** The outcome of a Go call: a value, a returned error, or a panic. */
  datatype Result<+T> =
    | Ok(value: T)
    | Err(msg: string)
    | Panic(msg: string)
  {
    predicate Failed() { !Ok? }
  }

  /** A Go float32, known only by its bit pattern. */
  datatype Float32 = Float32(bits: bv32)

  /** A value of the Go interface eclaType.Type.  A `*Var` or `*Any` handed
      around as a value is represented by a snapshot of its name and content. */
  datatype Value =
    | Int(i: int)
    | Float(f: Float32)
    | String(s: string)
    | Char(code: int)
    | Bool(b: bool)
    | Null(typ: string)
    | VarRef(binding: Binding)
    | AnyRef(binding: Binding)

  /** The fields of the Go structs Var and Any. */
  datatype Binding = Binding(name: string, value: Value)

  /** The binary operators of the eclaType.Type interface. */
  datatype BinOp =
    | Add | Sub | Mul | Div | Mod | DivEc
    | Eq | NotEq | Gt | GtEq | Lw | LwEq
    | And | Or | Append
  {
    predicate IsComparison() { Eq? || NotEq? || Gt? || GtEq? || Lw? || LwEq? }
    predicate IsArithmetic() { Add? || Sub? || Mul? || Div? }
  }

  /** Declared type names (the parser's type constants). */
  const IntType := "int"
  const FloatType := "float"
  const StringType := "string"
  const BoolType := "bool"
  const CharType := "char"

  /** The primitives this model does not define. */
  datatype Builtins = Builtins(
    // float32 +, -, *, / of Go (only Add, Sub, Mul, Div are passed)
    floatArith: (BinOp, Float32, Float32) -> Float32,
    // float32 ==, !=, >, >=, <, <= of Go (only comparisons are passed)
    floatCompare: (BinOp, Float32, Float32) -> bool,
    // Go's Float(Int(n)) conversion
    intToFloat: int -> Float32,
    // fmt.Sprintf("%f", f), Float.String; Float.GetString's fmt.Sprint(f)
    // goes through that String method, so both give this text
    floatFormat: Float32 -> string,
    // strconv.ParseFloat(text, 32)
    parseFloat: string -> Option<Float32>,
    // the parsing done by NewInt and NewBool
    parseInt: string -> Option<int>,
    parseBool: string -> Option<bool>,
    // NewString
    newString: string -> string,
    // GetString and String of the Int, String, Char, Bool and Null variants
    scalarText: Value -> string,
    scalarFormat: Value -> string,
    // the binary operators, Not, GetIndex and SetValue of those variants
    scalarBinary: (BinOp, Value, Value) -> Result<Value>,
    scalarNot: Value -> Result<Value>,
    scalarIndex: (Value, Value) -> Result<Value>,
    scalarSetValue: (Value, Value) -> Option<string>
  )

  /** The literal texts the interpreter itself constructs ("0", "1",
      "false", "0.0") parse to the values they denote. */
  predicate CanonicalLiterals(rt: Builtins) {
    && rt.parseInt("0") == Some(0)
    && rt.parseInt("1") == Some(1)
    && rt.parseBool("false") == Some(false)
    && rt.parseFloat("0.0").Some?
  }

  /** GetType: the type tag of a value; wrappers report their content's tag.
      The scalar tags are the parser's type names, and a null reports the
      type it was made for. */
  function TypeOf(v: Value): (t: string)
    ensures Stripped(v).Null? ==> t == Stripped(v).typ
    ensures !Stripped(v).Null? ==> t in {IntType, FloatType, StringType, CharType, BoolType}
    decreases v
  {
    match v
    case Int(_) => IntType
    case Float(_) => FloatType
    case String(_) => StringType
    case Char(_) => CharType
    case Bool(_) => BoolType
    case Null(t) => t
    case VarRef(b) => TypeOf(b.value)
    case AnyRef(b) => TypeOf(b.value)
  }

  /** IsNull: only the typed null placeholder is null; wrappers delegate. */
  predicate IsNull(v: Value)
    ensures IsNull(v) <==> Stripped(v).Null?
    decreases v
  {
    match v
    case Null(_) => true
    case VarRef(b) => IsNull(b.value)
    case AnyRef(b) => IsNull(b.value)
    case _ => false
  }

  /** GetString: the string form of a value; wrappers delegate. */
  function GetString(rt: Builtins, v: Value): (s: string)
    ensures Stripped(v).Float? ==> s == rt.floatFormat(Stripped(v).f)
    ensures !Stripped(v).Float? ==> s == rt.scalarText(Stripped(v))
    decreases v
  {
    match v
    case Float(f) => rt.floatFormat(f)
    case VarRef(b) => GetString(rt, b.value)
    case AnyRef(b) => GetString(rt, b.value)
    case _ => rt.scalarText(v)
  }

  /** The Go String() method, used by fmt.Println and by NewAny.  A Var
      renders as "name = content", an Any as its content's GetString. */
  function Format(rt: Builtins, v: Value): (s: string)
    ensures v.VarRef? ==> s == v.binding.name + " = " + GetString(rt, v)
    ensures v.AnyRef? ==> s == GetString(rt, v)
    ensures v.Float? ==> s == GetString(rt, v)
  {
    match v
    case Float(f) => rt.floatFormat(f)
    case VarRef(b) => b.name + " = " + GetString(rt, b.value)
    case AnyRef(b) => GetString(rt, b.value)
    case _ => rt.scalarFormat(v)
  }

  /** NewInt, NewBool and NewFloat: a literal text that does not parse panics. */
  function NewInt(rt: Builtins, text: string): (r: Result<Value>)
    ensures r.Ok? ==> r.value.Int?
  {
    match rt.parseInt(text)
    case Some(n) => Ok(Int(n))
    case None => Panic("invalid int literal " + text)
  }

  function NewBool(rt: Builtins, text: string): (r: Result<Value>)
    ensures r.Ok? ==> r.value.Bool?
  {
    match rt.parseBool(text)
    case Some(b) => Ok(Bool(b))
    case None => Panic("invalid bool literal " + text)
  }

  function NewFloat(rt: Builtins, text: string): (r: Result<Value>)
    ensures r.Ok? <==> rt.parseFloat(text).Some?
    ensures r.Ok? ==> r.value == Float(rt.parseFloat(text).value)
    ensures !r.Err?
  {
    match rt.parseFloat(text)
    case Some(f) => Ok(Float(f))
    case None => Panic("strconv.ParseFloat: cannot parse " + text)
  }

  /** Stripping every wrapper layer never changes the tag, the null test or
      the string form. */
  function Stripped(v: Value): (r: Value)
    ensures !r.VarRef? && !r.AnyRef?
  {
    match v
    case VarRef(b) => Stripped(b.value)
    case AnyRef(b) => Stripped(b.value)
    case _ => v
  }

  lemma {:induction false} QueriesSeeThroughWrappers(rt: Builtins, v: Value)
    ensures TypeOf(v) == TypeOf(Stripped(v))
    ensures IsNull(v) == IsNull(Stripped(v))
    ensures GetString(rt, v) == GetString(rt, Stripped(v))
  {
    match v
    case VarRef(b) => QueriesSeeThroughWrappers(rt, b.value);
    case AnyRef(b) => QueriesSeeThroughWrappers(rt, b.value);
    case _ =>
  }
}
