/** Substitutions of a declaration's parameters. Instance identities keep type and const arguments in two lists, while
    declarations interleave the parameters. */
module Scopes {
  import opened Options
  import opened Types

  /** A substitution: `Self`, type parameters and const parameters. */
  datatype Scope = Scope(self: Option<Ty>, types: map<Sym, Ty>, consts: map<Sym, ConstArg>)

  const EMPTY: Scope := Scope(None, map[], map[])

  datatype Param = Param(name: Sym, isConst: bool)

  /** Splits arguments over interleaved type and const parameters with two cursors; missing arguments stay unbound. */
  function ScopeOf(params: seq<Param>, args: seq<Ty>, consts: seq<ConstArg>): Scope {
    if params == [] then EMPTY else
    var last := params[|params| - 1];
    var rest := params[..|params| - 1];
    var scope := ScopeOf(rest, args, consts);
    if last.isConst then
      var i := |rest| - TypeCount(rest);
      if i < |consts| then scope.(consts := scope.consts[last.name := consts[i]]) else scope
    else
      var i := TypeCount(rest);
      if i < |args| then scope.(types := scope.types[last.name := args[i]]) else scope
  }

  function TypeCount(params: seq<Param>): (n: nat)
    ensures n <= |params|
  {
    if params == [] then 0
    else TypeCount(params[..|params| - 1]) + if params[|params| - 1].isConst then 0 else 1
  }

  ghost function ScopeBefore(params: seq<Param>, i: nat, args: seq<Ty>, consts: seq<ConstArg>): Scope
    requires i <= |params|
  {
    ScopeOf(params[..i], args, consts)
  }

  /** Rebuilds the substitution by walking the parameters with one cursor per kind. */
  method Rebuild(params: seq<Param>, args: seq<Ty>, consts: seq<ConstArg>) returns (scope: Scope)
    ensures scope == ScopeOf(params, args, consts)
  {
    var typeIndex, constIndex := 0, 0;
    var types: map<Sym, Ty>, constants: map<Sym, ConstArg> := map[], map[];
    for i := 0 to |params|
      invariant typeIndex == TypeCount(params[..i]) && constIndex == i - TypeCount(params[..i])
      invariant Scope(None, types, constants) == ScopeBefore(params, i, args, consts)
    {
      assert params[..i + 1][..i] == params[..i];
      if params[i].isConst {
        if constIndex < |consts| {
          constants := constants[params[i].name := consts[constIndex]];
        }
        constIndex := constIndex + 1;
      } else {
        if typeIndex < |args| {
          types := types[params[i].name := args[typeIndex]];
        }
        typeIndex := typeIndex + 1;
      }
    }
    assert params[..|params|] == params;
    scope := Scope(None, types, constants);
  }

  /** The arguments of the type parameters, in declaration order; absent if one is unbound. */
  function ReadTypes(params: seq<Param>, types: map<Sym, Ty>): Option<seq<Ty>> {
    if params == [] then Some([]) else
    var last := params[|params| - 1];
    var front :- ReadTypes(params[..|params| - 1], types);
    if last.isConst then Some(front) else if last.name in types then Some(front + [types[last.name]]) else None
  }

  function ReadConsts(params: seq<Param>, consts: map<Sym, ConstArg>): Option<seq<ConstArg>> {
    if params == [] then Some([]) else
    var last := params[|params| - 1];
    var front :- ReadConsts(params[..|params| - 1], consts);
    if !last.isConst then Some(front) else if last.name in consts then Some(front + [consts[last.name]]) else None
  }

  function Mapped<T, U>(f: T -> U, xs: seq<T>): seq<U> {
    seq(|xs|, i requires 0 <= i < |xs| => f(xs[i]))
  }

  /** What an instance reference gets: the arguments read back, canonicalized. */
  function EffectiveTypes(params: seq<Param>, types: map<Sym, Ty>, canon: Ty -> Ty): Option<seq<Ty>> {
    var read :- ReadTypes(params, types);
    Some(Mapped(canon, read))
  }

  function EffectiveConsts(params: seq<Param>, consts: map<Sym, ConstArg>, canon: ConstArg -> ConstArg)
    : Option<seq<ConstArg>> {
    var read :- ReadConsts(params, consts);
    Some(Mapped(canon, read))
  }

  ghost predicate DistinctNames(params: seq<Param>) {
    forall i, j | 0 <= i < j < |params| :: params[i].name != params[j].name
  }

  lemma {:induction false} OtherNamesDoNotMatter(params: seq<Param>, s: Scope, t: Scope, name: Sym)
    requires forall p | p in params :: p.name != name
    requires forall n: Sym :: n != name ==>
      (n in s.types <==> n in t.types) && (n in s.types ==> s.types[n] == t.types[n])
    requires forall n: Sym :: n != name ==>
      (n in s.consts <==> n in t.consts) && (n in s.consts ==> s.consts[n] == t.consts[n])
    ensures ReadTypes(params, s.types) == ReadTypes(params, t.types)
    ensures ReadConsts(params, s.consts) == ReadConsts(params, t.consts)
    decreases |params|
  {
    if params != [] {
      assert params[|params| - 1] in params;
      OtherNamesDoNotMatter(params[..|params| - 1], s, t, name);
    }
  }

  lemma {:induction false} ReadArguments(params: seq<Param>, args: seq<Ty>, consts: seq<ConstArg>)
    requires DistinctNames(params)
    requires TypeCount(params) <= |args| && |params| - TypeCount(params) <= |consts|
    ensures ReadTypes(params, ScopeOf(params, args, consts).types) == Some(args[..TypeCount(params)])
    ensures ReadConsts(params, ScopeOf(params, args, consts).consts) == Some(consts[..|params| - TypeCount(params)])
    decreases |params|
  {
    if params != [] {
      var rest, last := params[..|params| - 1], params[|params| - 1];
      ReadArguments(rest, args, consts);
      OtherNamesDoNotMatter(rest, ScopeOf(rest, args, consts), ScopeOf(params, args, consts), last.name);
      var n := TypeCount(rest);
      if last.isConst {
        assert consts[..|rest| - n] + [consts[|rest| - n]] == consts[..|rest| - n + 1];
      } else {
        assert args[..n] + [args[n]] == args[..n + 1];
      }
    }
  }

  /** Rebuilding a substitution and reading it back returns the canonical form of each argument, in order, however the
      parameters are interleaved; arguments in canonical form come back as they were. */
  lemma {:induction false} ReadBack(
    params: seq<Param>, args: seq<Ty>, consts: seq<ConstArg>, canonTy: Ty -> Ty, canonConst: ConstArg -> ConstArg)
    requires DistinctNames(params) && TypeCount(params) == |args| && |params| == |args| + |consts|
    ensures var scope := ScopeOf(params, args, consts);
      && EffectiveTypes(params, scope.types, canonTy) == Some(Mapped(canonTy, args))
      && EffectiveConsts(params, scope.consts, canonConst) == Some(Mapped(canonConst, consts))
    ensures (forall t | t in args :: canonTy(t) == t) ==> Mapped(canonTy, args) == args
    ensures (forall c | c in consts :: canonConst(c) == c) ==> Mapped(canonConst, consts) == consts
  {
    ReadArguments(params, args, consts);
    assert args[..|args|] == args && consts[..|consts|] == consts;
  }
}
