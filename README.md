# Ecla runtime core in Dafny

This project models the runtime core of the Ecla scripting language
interpreter (Go): the value variants and the Float operator methods, the
two binding wrappers `Var` (type-stable) and `Any` (type-fluid), the
tree-walking evaluator that runs a parsed file against an environment, the
environment's tables, and the syntax-tree shapes and dependency bookkeeping
of the parser's `File`.

Modules, one per source file:

- `Types` (types.dfy): the closed set of values (`Int`, `Float`, `String`,
  `Char`, `Bool`, a typed `Null`, and `VarRef`/`AnyRef` for a `*Var`/`*Any`
  handed around as a value), type tags, `IsNull`, `GetString`, `String()`,
  and the literal constructors. A Go call's outcome is a `Result`: a value,
  a returned error (`Err`) or a panic (`Panic`). Most of what has no Go
  source in this model (float32 arithmetic, comparison and formatting,
  `strconv.ParseFloat`, the parsing in `NewInt`/`NewBool`, `NewString`, and
  the operators, `Not`, `GetIndex`, `SetValue`, `GetString` and `String` of
  the Int, String, Char, Bool and Null variants) is a field of the
  `Builtins` record that each operation receives. A few behaviours of those
  variants are fixed in the model instead; they are listed under
  "## Left out".
- `Floats` (float.dfy): the Float methods, with a reference contract
  `Expected` (unwrap, widen Int and Char, concatenate for Add with a
  String, fail otherwise) proved equal to the type-switch code.
- `Operators` (operators.dfy): dispatch on the receiver, including the
  `*Var`/`*Any` delegation of every operator, and Increment/Decrement as
  `Add`/`Sub` of `NewInt("1")`.
- `Vars` (var.dfy) and `Anys` (any.dfy): the constructors as functions, the
  assignment rules as functions, and classes `Var` and `Any` whose methods
  update the `value` field in place and are proved against those functions.
- `Scopes` (scope.dfy): a stack of frames standing in for the Scope type,
  whose Go source is not part of this model: `Get` searches innermost to
  outermost, `Set` writes into the innermost frame that declares the name,
  else the innermost frame.
- `Environment` (env.dfy): class `Env` with the scope, the library table and
  the function table.
- `NodeTypes` (node_types.dfy) and `Ast` (ast.dfy): node shapes, start and
  end positions, precedence, and class `File` with `DepChecker` and
  `AddDependency`.
- `Exec` (exec.dfy): the evaluator. `Eval` (expressions) and `Exec` (nodes)
  are pure functions returning the result (a value, Go's nil, or a panic in
  progress), the text written to standard output and the new scope;
  `RunTree`, `RunVariableDecl`, `RunPrintStmt`, `RunTypeStmt` and `Run` are
  methods on an `Env` proved to do what those functions say. `RunAll` is the
  whole program: every operation in source order until the first panic.

Where the code and the language's design description differ, the model
follows the code:

- Increment, decrement and assignment statements do nothing in
  `RunTree`; they do not look up or mutate a binding.
- A declaration without initializer builds its variable with `NewVar` and
  the concrete zero values `NewInt("0")`, `NewString("")`,
  `NewBool("false")`, `NewFloat("0.0")`, not with a typed null; for any
  other declared type it binds nothing.
- An operator error panics with the error; it carries no source position.
- An unbound variable name evaluates to nil, not to an UndefinedVariable
  error; it panics only where the nil is used (an operand, print, type, an
  initializer).
- `New` at exec.go:32 returns the two-result `GetVar` as one value, and
  exec.go:100 indexes `env.Vars` like a map; the model takes the evident
  intent: look the name up, and install the binding with the scope's `Set`.
- `eclaKeyWord.NewVar`, which exec.go calls, is not part of this model; it
  is taken to be `NewVar` of var.go, whose result `env.SetVar` accepts.
- The lexer's token kind names (INT, STRING, BOOL, FLOAT, ADD, SUB, MULT,
  DIV, MOD, QOT) and the parser's type names ("int", "string", "bool",
  "float", "char") are not part of this model; they are taken to be
  distinct strings with those spellings.

## Model

| member | source | states |
|---|---|---|
| Types.TypeOf | interpreter/eclaType/var.go:30-32 | GetType: a wrapper reports its innermost content's tag; a null reports the type it was made for; every other value one of the five scalar tags |
| Types.IsNull | interpreter/eclaType/var.go:167-169 | IsNull: true exactly when the innermost content is a null |
| Types.GetString | interpreter/eclaType/float.go:35-37 | GetString: a Float's is its "%f" text (fmt.Sprint goes through its String method); wrappers give their innermost content's |
| Types.Format | interpreter/eclaType/var.go:13-15 | String(): a Var renders as "name = " followed by its GetString, an Any (any.go:13-15) and a Float as their GetString |
| Types.QueriesSeeThroughWrappers | interpreter/eclaType/var.go:17-32 | GetType, IsNull and GetString of a wrapped value are those of its innermost content |
| Types.NewFloat | interpreter/eclaType/float.go:10-16 | NewFloat yields the parsed Float exactly when ParseFloat accepts the text, and panics (never returns an error) otherwise |
| Floats.Binary | interpreter/eclaType/float.go:50-290 | the Float operators never panic; only arithmetic and comparisons can succeed; a comparison yields a Bool, Sub/Mul/Div a Float, Add a Float or a String |
| Floats.BinaryMeetsContract | interpreter/eclaType/float.go:50-265 | every arithmetic and comparison operator equals the reference contract: unwrap one *Var, follow *Any contents, widen Int/Char to Float, concatenate string forms for Add with a String, else an error |
| Floats.AddCases | interpreter/eclaType/float.go:50-69 | Add succeeds exactly for Int, Float, Char and String operands; a String gives the concatenation of both string forms, a number gives the Float sum; failure is a returned error |
| Floats.ArithmeticCases | interpreter/eclaType/float.go:72-140 | Sub, Mul and Div succeed exactly for Int, Char and Float operands after unwrapping and then yield the Float result; String and others fail with an error |
| Floats.ComparisonCases | interpreter/eclaType/float.go:148-265 | the six comparisons return a Bool (the float comparison of the widened operand) exactly for Int, Char and Float operands, and an error otherwise |
| Floats.UnsupportedAlwaysFail | interpreter/eclaType/float.go:92-100 | Mod fails with "cannot mod float" whatever the operand, after following *Any contents; DivEc, And, Or and Append (float.go:143-145, 268-290) fail for every operand |
| Floats.WrappersAreTransparent | interpreter/eclaType/float.go:51-65 | an *Any operand gives the same outcome as its content, and so does a *Var whose content is not a *Var |
| Floats.ScalarQueries | interpreter/eclaType/float.go:26-47 | GetType is "float", IsNull is false, GetIndex and SetValue always fail; Not and Xor (float.go:278-287) always fail |
| Operators.Apply | interpreter/eclaType/var.go:59-140 | an operator on a *Var or *Any receiver (any.go:54-122) is the operator of its innermost content: the Float method for a Float, the scalar variant's method otherwise |
| Operators.Not | interpreter/eclaType/var.go:142-144 | Not on a wrapper is Not of the innermost content; for a Float it fails |
| Operators.GetIndex | interpreter/eclaType/var.go:34-36 | GetIndex on a wrapper is GetIndex of the innermost content (any.go:33-35); for a Float it fails |
| Operators.SetValue | interpreter/eclaType/var.go:26-28 | SetValue on a *Var always fails; on an *Any (any.go:25-27) it succeeds only through a scalar content's SetValue |
| Operators.ReceiverWrappersDelegate | interpreter/eclaType/var.go:59-144 | every operator, Not and GetIndex on a *Var (or *Any, any.go:54-126) receiver equal the same call on the innermost content |
| Operators.StepKeepsFloat | interpreter/eclaType/var.go:146-160 | stepping a Float-valued binding by Int 1 yields the Float sum or difference with 1 widened, however the Float is wrapped |
| Vars.NewVar | interpreter/eclaType/var.go:184-203 | type string always succeeds with value.GetString(); otherwise success exactly for a matching tag or null; the result has the declared tag; null becomes a null of the declared type; a *Var is unwrapped one level; any other value is stored as given; never panics |
| Vars.NewVarEmpty | interpreter/eclaType/var.go:205-207 | never fails and holds a null of the declared type |
| Vars.AssignVar | interpreter/eclaType/var.go:39-56 | the assignment rule of SetVar never panics, and returns an error exactly for a non-null, non-*Var argument of another tag |
| Vars.AssignVarIsTypeStable | interpreter/eclaType/var.go:45-55 | for a non-*Var argument SetVar succeeds exactly for null or the current tag, stores a null of the current tag for null, the value itself otherwise, and never panics |
| Vars.AssignVarCopiesVarUnchecked | interpreter/eclaType/var.go:40-44 | a *Var argument's content is stored without a type check, so the tag can change |
| Vars.DeclaredTagIsInvariant | interpreter/eclaType/var.go:39-56 | any sequence of SetVar calls with non-*Var arguments keeps the binding's name and type tag |
| Vars.Var.GetType | interpreter/eclaType/var.go:30-32 | a Var reports its content's type tag |
| Vars.Var.SetVar | interpreter/eclaType/var.go:39-56 | the field update and returned error are those of the assignment rule; on error the content is unchanged; the name never changes |
| Vars.Var.Increment | interpreter/eclaType/var.go:154-160 | the content becomes content.Add(NewInt("1")); an operator failure is reported as a panic |
| Vars.Var.Decrement | interpreter/eclaType/var.go:146-152 | the content becomes content.Sub(NewInt("1")); an operator failure is reported as a panic |
| Anys.NewAny | interpreter/eclaType/any.go:165-194 | type string stores value.GetString(); type float with an Int value stores NewFloat(value.String()) or panics; an empty type is inferred and cannot fail; otherwise a mismatched non-null value is an error; null becomes a null of the (inferred) type; a *Var is unwrapped one level; any other value is stored as given |
| Anys.NewAnyEmpty | interpreter/eclaType/any.go:196-198 | never fails and holds a null of the declared type |
| Anys.AssignAny | interpreter/eclaType/any.go:38-51 | SetAny as written never returns an error and panics exactly for a *Var argument |
| Anys.SetAnyOfVarPanics | interpreter/eclaType/any.go:40-42 | as written, SetAny of any *Var argument panics |
| Anys.AssignAnyIsTypeFluid | interpreter/eclaType/any.go:38-51 | the corrected SetAny never fails, replaces the content outright with a non-null argument (its tag becomes the binding's), stores a null of the current tag for null, and agrees with the code on every non-*Var argument |
| Anys.IntendedSetAnyMatchesNewAny | interpreter/eclaType/any.go:189-193 | with the correction, assigning a non-null *Var stores what NewAny with an inferred type stores for it |
| Anys.AnyAcceptsWhatVarRefuses | interpreter/eclaType/any.go:44-50 | a non-null value of another tag is stored by SetAny, changing the tag, and refused with an error by SetVar |
| Anys.Any.SetValue | interpreter/eclaType/any.go:25-27 | SetValue delegates to the content's SetValue; it fails for a Float or *Var content |
| Anys.Any.SetAny | interpreter/eclaType/any.go:38-51 | the field update is that of the corrected assignment rule and no error is returned; the name never changes |
| Anys.Any.Increment | interpreter/eclaType/any.go:136-142 | the content becomes content.Add(NewInt("1")); an operator failure is reported as a panic |
| Anys.Any.Decrement | interpreter/eclaType/any.go:128-134 | the content becomes content.Sub(NewInt("1")); an operator failure is reported as a panic |
| Scopes.SetThenGet | interpreter/env.go:56-64 | after SetVar(name, b), GetVar(name) finds b and every other name resolves as before |
| Scopes.GoDeepThenGoUp | interpreter/env.go:66-72 | entering a scope hides no binding, and leaving it restores the outer scope |
| Environment.Env.constructor | interpreter/env.go:30-39 | NewEnv starts with empty library and function tables and a fresh main scope |
| Environment.Env.SetVar | interpreter/env.go:56-58 | SetVar is the scope's Set with the same name |
| Environment.Env.GetVar | interpreter/env.go:61-64 | GetVar is the scope's Get with the same name |
| Environment.Env.NewScope | interpreter/env.go:66-68 | NewScope is the scope's GoDeep |
| Environment.Env.EndScope | interpreter/env.go:70-72 | EndScope is the scope's GoUp |
| Environment.Env.SetFunction | interpreter/env.go:75-77 | afterwards GetFunction(name) finds f and every other name's lookup is unchanged |
| Environment.Env.GetFunction | interpreter/env.go:80-83 | finds a function exactly for a registered name, and it is the registered one |
| Environment.Env.Import | interpreter/env.go:102-104 | the library for file is stored under key file, replacing any previous entry; no other key appears or disappears, and no other table changes |
| NodeTypes.Precedence | parser/NodeTypes.go:21-85 | a literal's, binary's or unary's precedence is its token's; a parenthesised expression always has the highest |
| NodeTypes.ExprSpan | parser/NodeTypes.go:14-81 | an expression starts at its first recorded token and ends at its last |
| NodeTypes.NodeSpan | parser/NodeTypes.go:96-184 | every node starts at its first token; it ends at its last, except a declaration without initializer, whose EndPos dereferences nil |
| Ast.Contains | parser/AST.go:37-44 | true exactly when the needle occurs in the haystack |
| Ast.UnresolvedMembers | parser/AST.go:19-28 | the unresolved list holds exactly the dependencies that are not imported |
| Ast.UnresolvedAppend | parser/AST.go:19-28 | the unresolved list of a concatenation is the concatenation of the unresolved lists, so dependencies keep their order |
| Ast.UnresolvedEmpty | parser/AST.go:18-29 | the unresolved list is empty exactly when every dependency is imported |
| Ast.File.DepChecker | parser/AST.go:18-29 | returns true exactly when every dependency is imported, and the unresolved dependencies in order; changes nothing |
| Ast.File.AddDependency | parser/AST.go:31-35 | appends dep only when absent, so a duplicate-free list stays duplicate-free |
| Exec.New | interpreter/exec.go:21-35 | INT, STRING, BOOL and FLOAT literals go to NewInt, NewString, NewBool and NewFloat; a VAR literal gives the bound variable or nil; any other kind panics with "Unknown type" |
| Exec.Combine | interpreter/exec.go:123-162 | once both operands are evaluated: a value only from a recognised operator on two values, nil and no output for an unknown token, output only from ADD |
| Exec.Negate | interpreter/exec.go:169-173 | unary minus never yields nil; its value is that of Int(0).Sub(x) |
| Exec.Eval | interpreter/exec.go:118-178 | an expression without ADD writes nothing (only the debug print of ADD writes during evaluation) |
| Exec.Exec | interpreter/exec.go:39-116 | only a declaration changes the scope, and no statement yields a value |
| Exec.RunAll | interpreter/exec.go:12-18 | running the program never yields a value: it ends with nil or with a panic |
| Exec.BinaryEvaluatesBothOperands | interpreter/exec.go:119-122 | the left operand is evaluated first and a panic there stops the expression; otherwise the right one is evaluated too and its output follows the left's |
| Exec.BinaryAppliesOperator | interpreter/exec.go:123-160 | the operator token selects its method; its value is returned and its error or panic becomes a panic, never a value |
| Exec.UnknownOperatorIsNil | interpreter/exec.go:161-162 | any other operator token yields nil after both operands are evaluated |
| Exec.FloatArithmetic | interpreter/exec.go:131-148 | a Float on the left of SUB, MULT or DIV with an Int, Char or Float on the right yields the Float operation on the widened operand |
| Exec.UnaryOperators | interpreter/exec.go:166-177 | unary minus evaluates exactly as the binary expression 0 - x, unary plus is the identity, and parentheses (exec.go:48-49) are transparent |
| Exec.StatementsWithoutEffect | interpreter/exec.go:56-61 | increment, decrement and assign yield nil and change neither scope nor output; expressions never change the scope |
| Exec.PrintAndTypeOfVariable | interpreter/exec.go:106-116 | print of a variable writes its content's GetString, formatted by that String's own String method, type writes its content's tag and a newline; both yield nil |
| Exec.PrintUnboundPanics | interpreter/exec.go:106-116 | print or type of an unbound name panics on the nil value |
| Exec.ZeroDeclarations | interpreter/exec.go:68-94 | a declaration without initializer binds int to 0, bool to false, string to NewString(""), float to the parse of "0.0", other types to nothing; other names keep their bindings |
| Exec.InitializedDeclaration | interpreter/exec.go:95-101 | with an initializer, the name is bound exactly when the value is accepted by NewVar, to NewVar's result, which has the declared tag; otherwise it panics and the scope is unchanged |
| Exec.RunAllAppend | interpreter/exec.go:12-18 | running a concatenation runs the first part and then, unless it panicked, the second from the scope the first left |
| Exec.RunStopsAtFirstPanic | interpreter/exec.go:12-18 | the first operation that panics ends the run with its panic and the scope it left; later operations are not run |
| Exec.Run | interpreter/exec.go:12-18 | the loop runs every top-level operation once, in source order, until a panic, with the scope and output of RunAll |
| Exec.RunTree | interpreter/exec.go:39-64 | dispatch on the node kind; scope, output and result are those of Exec |
| Exec.RunVariableDecl | interpreter/exec.go:67-103 | builds the variable with NewVar and installs it in the scope; scope, output and result are those of Exec |
| Exec.RunPrintStmt | interpreter/exec.go:106-109 | writes the argument's GetString, formatted by that String's own String method; does not change the scope |
| Exec.RunTypeStmt | interpreter/exec.go:112-116 | writes the argument's type tag and a newline; does not change the scope |

## Left out

- Float numerics: float32 rounding, `fmt` formatting and `strconv.ParseFloat` are `Builtins` fields; no numeric value is computed.
- The Int, String, Char, Bool and Null variants, `NewNullType`, `TokenPrecedence` and the Scope type are not part of this model; most of the variants' methods are `Builtins` fields, the Scope is the stand-in stack in `Scopes`.
- Types.TypeOf: the tags of Int, String, Char and Bool are assumed to be "int", "string", "char" and "bool", the parser's type names, and `NewNullType(t).GetType()` is assumed to be `t`; NewVar's type check and the zero-value declarations rely on this.
- Types.IsNull: `IsNull` is assumed false for Int, String, Char and Bool and true for the value `NewNullType` returns.
- Types.NewInt: a literal text that does not parse is assumed to panic, as `NewFloat` does; `NewBool` likewise.
- Exec.New: `NewString` is assumed to return a String value, whose text is the `newString` field.
- Scopes.GoUp: leaving the outermost (main) frame is assumed to keep it; what the Scope type does there is not part of this model.
- `Env.Execute` and `readFile`: file I/O and the lexer and parser, which are not part of this model.
- The error-handler goroutine started by `Execute`: concurrency, and its source is not part of this model.
- `libs.Import` is a foreign call: `Env.Import` receives its result as a parameter.
- interpreter/libs/console.go: a wrapper over an external console package.
- `Env.String`, `SetCode`, `SetFile` and the OS, ARCH, Tokens, File, Code and ErrorHandle fields: plain text fields used only by `Execute`.
- Function and array values and the `Var`/`Any` methods `GetValue`, `IsFunction`, `GetFunction`: not used by the modelled evaluator.
- Aliasing: a `*Var` or `*Any` passed as a value is a snapshot of its name and content; nothing in the modelled evaluator mutates a binding after it is installed.
- Integers are unbounded: Go's `int` width is not modelled.
- Vars.Var.Increment: the content after a panic is not stated, because the process stops.
- Anys.Any.Increment: the content after a panic is not stated, because the process stops.
- Exec.Eval: the message and output of a panic caused by a nil operand (a Float receiver's error text dereferences it) are not modelled; only that it panics.
- Exec.Run: the Go panic is returned as a result instead of unwinding the process.

## Findings

| source | as written | input that shows it | evidently intended | confidence | as-written member | corrected member |
|---|---|---|---|---|---|---|
| interpreter/eclaType/any.go:40-41 | the `*Var` case reads `value.(*Any).Value` | `SetAny` with any `*Var` argument: the type assertion fails and panics | `value.(*Var).Value`, the unwrapping `SetVar` and `NewAny` do | high; not executed | Anys.AssignAny, Anys.SetAnyOfVarPanics | Anys.AssignAnyIntended, Anys.AssignAnyIsTypeFluid |
