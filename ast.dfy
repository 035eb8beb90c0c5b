/** The parsed file (parser/AST.go): its operations, its imports and the
    duplicate-free list of dependencies it needs, with the check that every
    dependency has been imported. */
module Ast {
  import opened NodeTypes

  /** AST: the top-level operations in source order. */
  datatype AST = AST(operations: seq<Node>)

  /** contains(needle, haystack): a linear search that stops at the first match. */
  method Contains(needle: string, haystack: seq<string>) returns (found: bool)
    ensures found <==> needle in haystack
  {
    var i := 0;
    while i < |haystack|
      invariant 0 <= i <= |haystack|
      invariant needle !in haystack[..i]
    {
      if haystack[i] == needle {
        return true;
      }
      i := i + 1;
    }
    assert haystack[..i] == haystack;
    return false;
  }

  /** The dependencies not among the imports, in their original order. */
  function Unresolved(deps: seq<string>, imports: seq<string>): seq<string> {
    if deps == [] then []
    else (if deps[0] in imports then [] else [deps[0]]) + Unresolved(deps[1..], imports)
  }

  predicate NoDuplicates(s: seq<string>) {
    forall i, j :: 0 <= i < j < |s| ==> s[i] != s[j]
  }

  /** Membership: exactly the dependencies that are not imported. */
  lemma {:induction false} UnresolvedMembers(deps: seq<string>, imports: seq<string>, x: string)
    ensures x in Unresolved(deps, imports) <==> x in deps && x !in imports
  {
    if deps != [] {
      UnresolvedMembers(deps[1..], imports, x);
      assert deps == [deps[0]] + deps[1..];
    }
  }

  /** Order: the unresolved list of a concatenation is the concatenation of
      the unresolved lists, so dependencies keep their relative order. */
  lemma {:induction false} UnresolvedAppend(a: seq<string>, b: seq<string>, imports: seq<string>)
    ensures Unresolved(a + b, imports) == Unresolved(a, imports) + Unresolved(b, imports)
  {
    if a != [] {
      UnresolvedAppend(a[1..], b, imports);
      assert (a + b)[0] == a[0] && (a + b)[1..] == a[1..] + b;
      var head := if a[0] in imports then [] else [a[0]];
      assert Unresolved(a + b, imports) == head + (Unresolved(a[1..], imports) + Unresolved(b, imports));
    } else {
      assert a + b == b;
    }
  }

  /** The unresolved list is empty exactly when every dependency is imported. */
  lemma UnresolvedEmpty(deps: seq<string>, imports: seq<string>)
    ensures Unresolved(deps, imports) == [] <==> forall d :: d in deps ==> d in imports
  {
    if Unresolved(deps, imports) != [] {
      var x := Unresolved(deps, imports)[0];
      UnresolvedMembers(deps, imports, x);
    } else {
      forall d | d in deps ensures d in imports {
        UnresolvedMembers(deps, imports, d);
      }
    }
  }

  /** File: the parser's result for one source file. */
  class File {
    var parseTree: AST
    var imports: seq<string>
    var dependencies: seq<string>
    var variableDecl: seq<string>
    var functionDecl: seq<string>
    var trace: string

    constructor (tree: AST)
      ensures parseTree == tree
      ensures imports == [] && dependencies == [] && variableDecl == [] && functionDecl == []
      ensures trace == ""
    {
      parseTree := tree;
      imports, dependencies, variableDecl, functionDecl := [], [], [], [];
      trace := "";
    }

    /** DepChecker: (true, []) when every dependency is imported, otherwise
        (false, the unresolved dependencies in order).  It changes nothing. */
    method DepChecker() returns (ok: bool, unresolved: seq<string>)
      ensures unresolved == Unresolved(dependencies, imports)
      ensures ok <==> forall d :: d in dependencies ==> d in imports
      ensures ok <==> unresolved == []
      ensures forall x :: x in unresolved <==> x in dependencies && x !in imports
    {
      unresolved := [];
      var i := 0;
      while i < |dependencies|
        invariant 0 <= i <= |dependencies|
        invariant unresolved == Unresolved(dependencies[..i], imports)
      {
        var found := Contains(dependencies[i], imports);
        UnresolvedAppend(dependencies[..i], [dependencies[i]], imports);
        assert dependencies[..i + 1] == dependencies[..i] + [dependencies[i]];
        if !found {
          unresolved := unresolved + [dependencies[i]];
        }
        i := i + 1;
      }
      assert dependencies[..i] == dependencies;
      UnresolvedEmpty(dependencies, imports);
      forall x ensures x in unresolved <==> x in dependencies && x !in imports {
        UnresolvedMembers(dependencies, imports, x);
      }
      ok := |unresolved| == 0;
    }

    /** AddDependency: append dep unless it is already listed, so the list
        stays duplicate-free. */
    method AddDependency(dep: string)
      modifies this`dependencies
      ensures dependencies == if dep in old(dependencies) then old(dependencies)
                              else old(dependencies) + [dep]
      ensures NoDuplicates(old(dependencies)) ==> NoDuplicates(dependencies)
    {
      var present := Contains(dep, dependencies);
      if !present {
        dependencies := dependencies + [dep];
      }
    }
  }
}
