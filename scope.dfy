/** The scope chain the environment delegates to.  Its Go source
    (NewScopeMain, GoDeep, GoUp, Set, Get) is not part of this model; this
    is a plain stack of frames, innermost last, standing in for it: lookup
    searches from the innermost frame outwards, and Set writes into the
    innermost frame that already declares the name, else the innermost. */
module Scopes {
  import opened Types

  /** The kind a frame is tagged with when it is entered. */
  datatype ScopeType = MainScope | FunctionScope | BlockScope

  datatype Frame = Frame(kind: ScopeType, vars: map<string, Binding>)

  datatype Scope = Scope(frames: seq<Frame>)

  function NewScopeMain(): Scope {
    Scope([Frame(MainScope, map[])])
  }

  function GoDeep(s: Scope, kind: ScopeType): Scope {
    Scope(s.frames + [Frame(kind, map[])])
  }

  /** The main frame is never popped. */
  function GoUp(s: Scope): Scope {
    if |s.frames| <= 1 then s else Scope(s.frames[..|s.frames| - 1])
  }

  function Get(s: Scope, name: string): Option<Binding> {
    Lookup(s.frames, name)
  }

  function Lookup(frames: seq<Frame>, name: string): Option<Binding>
    decreases |frames|
  {
    if frames == [] then None
    else if name in frames[|frames| - 1].vars then Some(frames[|frames| - 1].vars[name])
    else Lookup(frames[..|frames| - 1], name)
  }

  function Set(s: Scope, name: string, b: Binding): Scope {
    Scope(SetIn(s.frames, name, b, |s.frames|))
  }

  /** Write into the innermost of frames[..k] that declares name; when
      none does, into the innermost frame. */
  function SetIn(frames: seq<Frame>, name: string, b: Binding, k: nat): seq<Frame>
    requires k <= |frames|
    decreases k
  {
    if frames == [] then frames
    else if k == 0 then
      var top := frames[|frames| - 1];
      frames[|frames| - 1 := top.(vars := top.vars[name := b])]
    else if name in frames[k - 1].vars then
      frames[k - 1 := frames[k - 1].(vars := frames[k - 1].vars[name := b])]
    else SetIn(frames, name, b, k - 1)
  }

  /** A scope built by NewScopeMain, GoDeep and GoUp always has a frame. */
  predicate Valid(s: Scope) {
    |s.frames| > 0
  }

  lemma ScopeOperationsKeepAFrame(s: Scope, kind: ScopeType, name: string, b: Binding)
    requires Valid(s)
    ensures Valid(NewScopeMain()) && Valid(GoDeep(s, kind)) && Valid(GoUp(s)) && Valid(Set(s, name, b))
  {
    SetInKeepsLength(s.frames, name, b, |s.frames|);
  }

  lemma {:induction false} SetInKeepsLength(frames: seq<Frame>, name: string, b: Binding, k: nat)
    requires k <= |frames|
    ensures |SetIn(frames, name, b, k)| == |frames|
    decreases k
  {
    if frames != [] && k != 0 && name !in frames[k - 1].vars {
      SetInKeepsLength(frames, name, b, k - 1);
    }
  }

  /** Frames above k that do not declare name do not affect its lookup. */
  lemma {:induction false} LookupSkips(frames: seq<Frame>, name: string, k: nat)
    requires k <= |frames|
    requires forall j :: k <= j < |frames| ==> name !in frames[j].vars
    ensures Lookup(frames, name) == Lookup(frames[..k], name)
    decreases |frames|
  {
    if k < |frames| {
      var below := frames[..|frames| - 1];
      assert below[..k] == frames[..k];
      LookupSkips(below, name, k);
    } else {
      assert frames[..k] == frames;
    }
  }

  /** Rebinding one name in one frame leaves every other name's lookup alone. */
  lemma {:induction false} LookupIgnoresOtherNames(frames: seq<Frame>, i: nat, name: string, b: Binding, n: string)
    requires i < |frames| && n != name
    ensures Lookup(frames[i := frames[i].(vars := frames[i].vars[name := b])], n) == Lookup(frames, n)
    decreases |frames|
  {
    var updated := frames[i := frames[i].(vars := frames[i].vars[name := b])];
    var last := |frames| - 1;
    if i == last {
      assert updated[..last] == frames[..last];
    } else {
      assert updated[..last] == frames[..last][i := frames[i].(vars := frames[i].vars[name := b])];
      LookupIgnoresOtherNames(frames[..last], i, name, b, n);
    }
  }

  lemma {:induction false} SetInThenLookup(frames: seq<Frame>, name: string, b: Binding, k: nat, n: string)
    requires 0 < |frames| && k <= |frames|
    requires forall j :: k <= j < |frames| ==> name !in frames[j].vars
    ensures Lookup(SetIn(frames, name, b, k), name) == Some(b)
    ensures n != name ==> Lookup(SetIn(frames, name, b, k), n) == Lookup(frames, n)
    decreases k
  {
    var last := |frames| - 1;
    if k == 0 {
      if n != name {
        LookupIgnoresOtherNames(frames, last, name, b, n);
      }
    } else if name in frames[k - 1].vars {
      var updated := frames[k - 1 := frames[k - 1].(vars := frames[k - 1].vars[name := b])];
      LookupSkips(updated, name, k);
      assert updated[..k][k - 1] == updated[k - 1];
      if n != name {
        LookupIgnoresOtherNames(frames, k - 1, name, b, n);
      }
    } else {
      SetInThenLookup(frames, name, b, k - 1, n);
    }
  }

  /** Set then Get: the name now denotes the new binding and every other
      name keeps its binding. */
  lemma SetThenGet(s: Scope, name: string, b: Binding, n: string)
    requires Valid(s)
    ensures Get(Set(s, name, b), name) == Some(b)
    ensures n != name ==> Get(Set(s, name, b), n) == Get(s, n)
  {
    SetInThenLookup(s.frames, name, b, |s.frames|, n);
  }

  /** Entering a scope hides nothing, and leaving it restores the outer one. */
  lemma GoDeepThenGoUp(s: Scope, kind: ScopeType, n: string)
    requires Valid(s)
    ensures Get(GoDeep(s, kind), n) == Get(s, n)
    ensures GoUp(GoDeep(s, kind)) == s
  {
    var deeper := s.frames + [Frame(kind, map[])];
    assert deeper[..|deeper| - 1] == s.frames;
  }
}
