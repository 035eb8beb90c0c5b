/** The execution environment (interpreter/env.go): the scope chain, the
    table of imported libraries and the table of declared functions. */
module Environment {
  import opened Types
  import Scopes
  import Ast

  /** What libs.Import returns for a path; its content is not modelled. */
  datatype Library = Library(handle: nat)

  /** A declared function (eclaKeyWord.Function); its content is not modelled. */
  datatype Function = Function(handle: nat)

  class Env {
    var vars: Scopes.Scope
    var libs: map<string, Library>
    var funcs: map<string, Function>
    var syntaxTree: Ast.File?

    /** NewEnv: empty library and function tables and a fresh main scope. */
    constructor ()
      ensures vars == Scopes.NewScopeMain()
      ensures libs == map[] && funcs == map[]
      ensures syntaxTree == null
    {
      vars := Scopes.NewScopeMain();
      libs := map[];
      funcs := map[];
      syntaxTree := null;
    }

    /** SetVar delegates to the scope's Set with the same name. */
    method SetVar(name: string, value: Binding)
      modifies this`vars
      ensures vars == Scopes.Set(old(vars), name, value)
    {
      vars := Scopes.Set(vars, name, value);
    }

    /** GetVar delegates to the scope's Get with the same name. */
    function GetVar(name: string): (r: Option<Binding>)
      reads this
      ensures r == Scopes.Get(vars, name)
    {
      Scopes.Get(vars, name)
    }

    /** NewScope and EndScope delegate to GoDeep and GoUp. */
    method NewScope(kind: Scopes.ScopeType)
      modifies this`vars
      ensures vars == Scopes.GoDeep(old(vars), kind)
    {
      vars := Scopes.GoDeep(vars, kind);
    }

    method EndScope()
      modifies this`vars
      ensures vars == Scopes.GoUp(old(vars))
    {
      vars := Scopes.GoUp(vars);
    }

    /** GetFunction: (f, true) for a registered name, found = false otherwise. */
    function GetFunction(name: string): (r: Option<Function>)
      reads this
      ensures r.Some? <==> name in funcs
      ensures r.Some? ==> r.value == funcs[name]
    {
      if name in funcs then Some(funcs[name]) else None
    }

    /** SetFunction: afterwards GetFunction(name) finds f and every other
        name's lookup is unchanged. */
    method SetFunction(name: string, f: Function)
      modifies this`funcs
      ensures funcs == old(funcs)[name := f]
      ensures GetFunction(name) == Some(f)
      ensures forall n :: n != name ==> GetFunction(n) == old(GetFunction(n))
    {
      funcs := funcs[name := f];
    }

    /** Import: the library the foreign loader returned for `file` is stored
        under key `file`, replacing any previous entry. */
    method Import(file: string, lib: Library)
      modifies this`libs
      ensures libs == old(libs)[file := lib]
      ensures file in libs && libs[file] == lib
      ensures forall k :: k != file ==> (k in libs <==> k in old(libs))
    {
      libs := libs[file := lib];
    }
  }
}
