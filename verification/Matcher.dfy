/** Pattern matching in place: one substitution grown by every step, a `used` array marked and unmarked by the search
    over bindings. */
module Matcher {
  import opened Types
  import opened Substitution
  import opened Matching

  class PatternMatcher {
    const g: Program
    var subst: Subst

    constructor (g: Program, subst: Subst)
      ensures this.g == g && this.subst == subst
    {
      this.g := g;
      this.subst := subst;
    }

    method MatchType(p: Ty, actual: Ty) returns (ok: bool)
      modifies this
      ensures Outcome(ok, subst) == Match(g, p, actual, old(subst))
      decreases p, 0
    {
      var a := Settle(g, actual);
      if HasGeneric(p) && Bound(p, subst.Keys) {
        return TypesMatch(g, Apply(g, false, subst, p), a);
      }
      match p
      case Generic(name) =>
        if name in subst {
          return TypesMatch(g, subst[name], a);
        }
        subst := subst[name := a];
        ok := true;
      case Pointer(readonly, elem) =>
        if !(a.Pointer? && a.readonly == readonly) {
          return false;
        }
        ok := MatchType(elem, a.elem);
      case Array(len, elem) =>
        if !a.Array? {
          return false;
        }
        var before := subst;
        ok := MatchLength(len, a.len);
        if ok {
          ok := MatchType(elem, a.elem);
        }
        if !ok {
          subst := before;
        }
      case Form(tag, args, consts, bindings) =>
        if !(&& a.Form? && a.tag == tag && |a.args| == |args| && ConstPatternsMatch(g, consts, a.consts)
             && |a.bindings| == |bindings|) {
          return false;
        }
        ok := MatchTypes(args, a.args);
        if ok {
          var used := new bool[|a.bindings|](_ => false);
          ghost var none: seq<bool> := seq(|a.bindings|, _ => false);
          assert used[..] == none;
          ok := MatchAllBindings(bindings, a.bindings, 0, used);
          assert bindings[0..] == bindings;
        }
      case Projection(self, owner, args, consts, name) =>
        if !(&& a.Projection? && a.owner == owner && a.name == name && |a.args| == |args|
             && ConstPatternsMatch(g, consts, a.consts)) {
          return false;
        }
        ok := MatchType(self, a.self);
        if ok {
          ok := MatchTypes(args, a.args);
        }
      case _ => ok := TypesMatch(g, p, a);
    }

    method MatchLength(p: Len, a: Len) returns (ok: bool)
      modifies this
      ensures Outcome(ok, subst) == MatchLen(g, p, a, old(subst))
      decreases p, 0
    {
      if p.LenBuiltin? && a.LenBuiltin? && p.op == a.op {
        ok := MatchType(p.operand, a.operand);
      } else {
        ok := LenValuesMatch(g, p, a);
      }
    }

    method MatchTypes(p: seq<Ty>, a: seq<Ty>) returns (ok: bool)
      requires |p| == |a|
      modifies this
      ensures Outcome(ok, subst) == MatchTys(g, p, a, old(subst))
      decreases p, 1
    {
      for i := 0 to |p|
        invariant MatchTys(g, p[i..], a[i..], subst) == MatchTys(g, p, a, old(subst))
      {
        assert p[i..][1..] == p[i + 1..] && a[i..][1..] == a[i + 1..];
        ok := MatchType(p[i], a[i]);
        if !ok {
          return;
        }
      }
      ok := true;
    }

    /** A binding matches as a whole or leaves the substitution alone. */
    method MatchOneBinding(p: Binding, a: Binding) returns (ok: bool)
      modifies this
      ensures Outcome(ok, subst) == MatchBinding(g, p, a, old(subst))
      decreases p, 1
    {
      if p.name != a.name || p.owner != a.owner || |p.args| != |a.args| || !ConstPatternsMatch(g, p.consts, a.consts) {
        return false;
      }
      var before := subst;
      ok := MatchTypes(p.args, a.args);
      if ok {
        ok := MatchType(p.ty, a.ty);
      }
      if !ok {
        subst := before;
      }
    }

    /** Pairs the pattern bindings from `index` on with unused actual ones, trying them in order. */
    method MatchAllBindings(p: seq<Binding>, a: seq<Binding>, index: nat, used: array<bool>) returns (ok: bool)
      requires index <= |p| && used.Length == |a|
      modifies this, used
      ensures used[..] == old(used[..])
      ensures Outcome(ok, subst) == MatchBindings(g, p[index..], a, old(used[..]), old(subst))
      decreases p, 2, |p| - index
    {
      if index == |p| {
        return true;
      }
      ghost var rest, marks := p[index..], used[..];
      assert rest[0] == p[index] && rest[1..] == p[index + 1..];
      for j := 0 to |a|
        invariant subst == old(subst) && used[..] == marks
        invariant MatchBindings(g, rest, a, marks, subst) == TryFrom(g, rest, a, marks, j, subst)
      {
        assert used[j] == marks[j];
        if !used[j] {
          var before := subst;
          ok := MatchOneBinding(p[index], a[j]);
          if ok {
            used[j] := true;
            assert used[..] == marks[j := true];
            ok := MatchAllBindings(p, a, index + 1, used);
            used[j] := false;
            assert used[..] == marks;
            if ok {
              return;
            }
          }
          subst := before;
        }
      }
      ok := false;
    }
  }
}
