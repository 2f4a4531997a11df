/** Patterns with their open const values chosen: a const argument whose value is a parameter can stand for any value,
    at each place for its own. */
module Fillings {
  import opened Types
  import opened Substitution

  /** `q` is `p` with a value chosen for every const argument whose value is a parameter. */
  ghost predicate Fills(p: Ty, q: Ty)
    decreases p, 0
  {
    match p
    case Pointer(readonly, elem) => q.Pointer? && q.readonly == readonly && Fills(elem, q.elem)
    case Array(len, elem) => q.Array? && FillsLen(len, q.len) && Fills(elem, q.elem)
    case Form(tag, args, consts, bindings) =>
      q.Form? && q.tag == tag && FillsTys(args, q.args) && FillsConsts(consts, q.consts)
      && FillsBindings(bindings, q.bindings)
    case Projection(self, owner, args, consts, name) =>
      q.Projection? && q.owner == owner && q.name == name && Fills(self, q.self) && FillsTys(args, q.args)
      && FillsConsts(consts, q.consts)
    case _ => q == p
  }

  ghost predicate FillsLen(p: Len, q: Len)
    decreases p, 0
  {
    if p.LenBuiltin? then q.LenBuiltin? && q.op == p.op && Fills(p.operand, q.operand) else q == p
  }

  ghost predicate FillsTys(p: seq<Ty>, q: seq<Ty>)
    decreases p, 0
  {
    |p| == |q| && forall i | 0 <= i < |p| :: Fills(p[i], q[i])
  }

  ghost predicate FillsConst(p: ConstArg, q: ConstArg) {
    q.ty == p.ty && (p.value.CParam? || q.value == p.value)
  }

  ghost predicate FillsConsts(p: seq<ConstArg>, q: seq<ConstArg>) {
    |p| == |q| && forall i | 0 <= i < |p| :: FillsConst(p[i], q[i])
  }

  ghost predicate FillsBinding(p: Binding, q: Binding)
    decreases p, 0
  {
    q.owner == p.owner && q.name == p.name && FillsTys(p.args, q.args) && FillsConsts(p.consts, q.consts)
    && Fills(p.ty, q.ty)
  }

  ghost predicate FillsBindings(p: seq<Binding>, q: seq<Binding>)
    decreases p, 0
  {
    |p| == |q| && forall i | 0 <= i < |p| :: FillsBinding(p[i], q[i])
  }

  // ---- A pattern is a filling of itself.

  lemma {:induction false} FillsSelf(p: Ty)
    ensures Fills(p, p)
    decreases p, 0
  {
    match p
    case Pointer(_, elem) => FillsSelf(elem);
    case Array(len, elem) =>
      FillsSelf(elem);
      FillsSelfLen(len);
    case Form(_, args, _, bindings) =>
      FillsSelfTys(args);
      FillsSelfBindings(bindings);
    case Projection(self, _, args, _, _) =>
      FillsSelf(self);
      FillsSelfTys(args);
    case _ =>
  }

  lemma {:induction false} FillsSelfLen(p: Len)
    ensures FillsLen(p, p)
    decreases p, 0
  {
    if p.LenBuiltin? {
      FillsSelf(p.operand);
    }
  }

  lemma {:induction false} FillsSelfTys(p: seq<Ty>)
    ensures FillsTys(p, p)
    decreases p, 0
  {
    forall i | 0 <= i < |p| ensures Fills(p[i], p[i]) {
      FillsSelf(p[i]);
    }
  }

  lemma {:induction false} FillsSelfBinding(p: Binding)
    ensures FillsBinding(p, p)
    decreases p, 0
  {
    FillsSelfTys(p.args);
    FillsSelf(p.ty);
  }

  lemma {:induction false} FillsSelfBindings(p: seq<Binding>)
    ensures FillsBindings(p, p)
    decreases p, 0
  {
    forall i | 0 <= i < |p| ensures FillsBinding(p[i], p[i]) {
      FillsSelfBinding(p[i]);
    }
  }

  // ---- Without open values it is the only one.

  /** No const argument has a parameter as its value. */
  predicate Closed(p: Ty)
    decreases p, 0
  {
    match p
    case Pointer(_, elem) => Closed(elem)
    case Array(len, elem) => Closed(elem) && (len.LenBuiltin? ==> Closed(len.operand))
    case Form(_, args, consts, bindings) => ClosedTys(args) && ClosedConsts(consts) && ClosedBindings(bindings)
    case Projection(self, _, args, consts, _) => Closed(self) && ClosedTys(args) && ClosedConsts(consts)
    case _ => true
  }

  predicate ClosedTys(p: seq<Ty>)
    decreases p, 0
  {
    forall i | 0 <= i < |p| :: Closed(p[i])
  }

  predicate ClosedConsts(p: seq<ConstArg>) {
    forall i | 0 <= i < |p| :: !p[i].value.CParam?
  }

  predicate ClosedBinding(p: Binding)
    decreases p, 0
  {
    ClosedTys(p.args) && ClosedConsts(p.consts) && Closed(p.ty)
  }

  predicate ClosedBindings(p: seq<Binding>)
    decreases p, 0
  {
    forall i | 0 <= i < |p| :: ClosedBinding(p[i])
  }

  lemma {:induction false} ClosedIsFilled(p: Ty, q: Ty)
    requires Closed(p) && Fills(p, q)
    ensures q == p
    decreases p, 0
  {
    match p
    case Pointer(_, elem) => ClosedIsFilled(elem, q.elem);
    case Array(len, elem) =>
      ClosedIsFilled(elem, q.elem);
      if len.LenBuiltin? {
        ClosedIsFilled(len.operand, q.len.operand);
      }
    case Form(_, args, consts, bindings) =>
      ClosedTysAreFilled(args, q.args);
      ClosedConstsAreFilled(consts, q.consts);
      ClosedBindingsAreFilled(bindings, q.bindings);
    case Projection(self, _, args, consts, _) =>
      ClosedIsFilled(self, q.self);
      ClosedTysAreFilled(args, q.args);
      ClosedConstsAreFilled(consts, q.consts);
    case _ =>
  }

  lemma {:induction false} ClosedTysAreFilled(p: seq<Ty>, q: seq<Ty>)
    requires ClosedTys(p) && FillsTys(p, q)
    ensures q == p
    decreases p, 0
  {
    forall i | 0 <= i < |p| ensures q[i] == p[i] {
      ClosedIsFilled(p[i], q[i]);
    }
  }

  lemma {:induction false} ClosedConstsAreFilled(p: seq<ConstArg>, q: seq<ConstArg>)
    requires ClosedConsts(p) && FillsConsts(p, q)
    ensures q == p
  {
    forall i | 0 <= i < |p| ensures q[i] == p[i] {
      assert FillsConst(p[i], q[i]);
    }
  }

  lemma {:induction false} ClosedBindingIsFilled(p: Binding, q: Binding)
    requires ClosedBinding(p) && FillsBinding(p, q)
    ensures q == p
    decreases p, 0
  {
    ClosedTysAreFilled(p.args, q.args);
    ClosedConstsAreFilled(p.consts, q.consts);
    ClosedIsFilled(p.ty, q.ty);
  }

  lemma {:induction false} ClosedBindingsAreFilled(p: seq<Binding>, q: seq<Binding>)
    requires ClosedBindings(p) && FillsBindings(p, q)
    ensures q == p
    decreases p, 0
  {
    forall i | 0 <= i < |p| ensures q[i] == p[i] {
      ClosedBindingIsFilled(p[i], q[i]);
    }
  }

  // ---- A filling has the generics of the pattern.

  lemma {:induction false} FilledGenerics(p: Ty, q: Ty)
    requires Fills(p, q)
    ensures HasGeneric(q) <==> HasGeneric(p)
    ensures Generics(q) == Generics(p)
    decreases p, 0
  {
    match p
    case Pointer(_, elem) => FilledGenerics(elem, q.elem);
    case Array(len, elem) =>
      FilledGenerics(elem, q.elem);
      if len.LenBuiltin? {
        FilledGenerics(len.operand, q.len.operand);
      }
    case Form(_, args, consts, bindings) =>
      FilledGenericsTys(args, q.args);
      FilledGenericsConsts(consts, q.consts);
      FilledGenericsBindings(bindings, q.bindings);
    case Projection(self, _, args, consts, _) =>
      FilledGenerics(self, q.self);
      FilledGenericsTys(args, q.args);
      FilledGenericsConsts(consts, q.consts);
    case _ =>
  }

  lemma {:induction false} FilledGenericsTys(p: seq<Ty>, q: seq<Ty>)
    requires FillsTys(p, q)
    ensures AnyGeneric(q) <==> AnyGeneric(p)
    ensures GenericsTys(q) == GenericsTys(p)
    decreases p, 0
  {
    forall i | 0 <= i < |p|
      ensures HasGeneric(q[i]) <==> HasGeneric(p[i])
      ensures Generics(q[i]) == Generics(p[i])
    {
      FilledGenerics(p[i], q[i]);
    }
  }

  lemma {:induction false} FilledGenericsConsts(p: seq<ConstArg>, q: seq<ConstArg>)
    requires FillsConsts(p, q)
    ensures AnyConst(q) <==> AnyConst(p)
    ensures GenericsConsts(q) == GenericsConsts(p)
  {
    forall i | 0 <= i < |p|
      ensures ConstGeneric(q[i]) <==> ConstGeneric(p[i])
      ensures GenericsConst(q[i]) == GenericsConst(p[i])
    {
      assert FillsConst(p[i], q[i]);
    }
  }

  lemma {:induction false} FilledGenericsBinding(p: Binding, q: Binding)
    requires FillsBinding(p, q)
    ensures BindingGeneric(q) <==> BindingGeneric(p)
    ensures GenericsBinding(q) == GenericsBinding(p)
    decreases p, 0
  {
    FilledGenericsTys(p.args, q.args);
    FilledGenericsConsts(p.consts, q.consts);
    FilledGenerics(p.ty, q.ty);
  }

  lemma {:induction false} FilledGenericsBindings(p: seq<Binding>, q: seq<Binding>)
    requires FillsBindings(p, q)
    ensures AnyBinding(q) <==> AnyBinding(p)
    ensures GenericsBindings(q) == GenericsBindings(p)
    decreases p, 0
  {
    forall i | 0 <= i < |p|
      ensures BindingGeneric(q[i]) <==> BindingGeneric(p[i])
      ensures GenericsBinding(q[i]) == GenericsBinding(p[i])
    {
      FilledGenericsBinding(p[i], q[i]);
    }
  }

  // ---- Choosing the values of the actual const arguments.

  /** Each open value is that of the actual argument in its place. */
  function FilledConsts(p: seq<ConstArg>, a: seq<ConstArg>): seq<ConstArg>
    requires |p| == |a|
  {
    seq(|p|, i requires 0 <= i < |p| => ConstArg(p[i].ty, if p[i].value.CParam? then a[i].value else p[i].value))
  }

  lemma {:induction false} FilledConstsFill(p: seq<ConstArg>, a: seq<ConstArg>)
    requires |p| == |a|
    ensures FillsConsts(p, FilledConsts(p, a))
  {
  }
}
