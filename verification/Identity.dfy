/** Type identities are equal exactly when the types are equal as declarations. */
module Identity {
  import opened Options
  import opened T = Terms
  import opened Syntax

  // ---------------------------------------------------------------------------------------------------------------
  // Keywords are words, and length, first and last letter tell those of one sort apart.

  function TypeTagBy(length: nat, first: char, last: char): TypeTag {
    match length
    case 3 => if first == 'p' then TPtr else TFun
    case 4 => if first == 'p' then TPath else if first == 's' then TSelf else TNone
    case 5 =>
      if first == 'e' then TError else if first == 's' then TSlice else if first == 'a' then TArray
      else if first == 't' then TTuple else if first == 'r' then TRange else if first == 'n' then TNever else TInfer
    case 6 => if first == 'f' then TFnVar else TOpaque
    case 7 => TMutPtr
    case 8 => if first == 'c' then TCallable else TOptional
    case 9 => if first == 'm' then TMutSlice else if first == 'r' then TRangeInc else TExternFn
    case 10 => TProjection
    case 11 => TErrorUnion
    case 12 => TVolatilePtr
    case 13 => if first == 's' then TSlicePointee else TExternFnVar
    case _ => TVolatileMutPtr
  }

  function ExprTagBy(length: nat, first: char, last: char): ExprTag {
    match length
    case 1 => EUnderscore
    case 2 => EOk
    case 3 => if first == 'i' then EInt else if first == 'r' then ERaw else if first == 'e' then EErr else ETry
    case 4 =>
      if first == 't' then ETrue else if first == 'n' then ENull else if first == 's' then ESome
      else if last == 'r' then EChar else if last == 't' then ECast else ECall
    case 5 =>
      if first == 'e' then EError else if first == 'b' then EBytes else if first == 'i' then EIdent
      else if first == 't' then ETuple else if first == 'u' then EUnary
      else if last == 't' then EFloat else if last == 'e' then EFalse else EField
    case 6 => if first == 's' then EString else EBinary
    case 9 => if first == 'b' then EByteChar else if first == 'p' then EPathRoot else EQualified
    case 10 => ESelf
    case 11 => ETypeTarget
    case _ => ETraitTarget
  }

  lemma {:induction false} TypeWords(tag: TypeTag)
    ensures var w := TypeWord(tag); w != "" && TypeTagBy(|w|, w[0], w[|w| - 1]) == tag
  {
  }

  lemma {:induction false} ShortTypeWords(tag: TypeTag)
    requires |TypeWord(tag)| <= 8
    ensures Token(TypeWord(tag))
  {
  }

  lemma {:induction false} LongTypeWords(tag: TypeTag)
    requires |TypeWord(tag)| > 8
    ensures Token(TypeWord(tag))
  {
  }

  lemma {:induction false} TypeWordsAreWords(tag: TypeTag)
    ensures Token(TypeWord(tag))
  {
    if |TypeWord(tag)| <= 8 {
      ShortTypeWords(tag);
    } else {
      LongTypeWords(tag);
    }
  }

  lemma {:induction false} ExprWords(tag: ExprTag)
    ensures var w := ExprWord(tag); w != "" && ExprTagBy(|w|, w[0], w[|w| - 1]) == tag
  {
  }

  lemma {:induction false} ShortExprWords(tag: ExprTag)
    requires |ExprWord(tag)| <= 5
    ensures Token(ExprWord(tag))
  {
  }

  lemma {:induction false} LongExprWords(tag: ExprTag)
    requires |ExprWord(tag)| > 5
    ensures Token(ExprWord(tag))
  {
  }

  lemma {:induction false} ExprWordsAreWords(tag: ExprTag)
    ensures Token(ExprWord(tag))
  {
    if |ExprWord(tag)| <= 5 {
      ShortExprWords(tag);
    } else {
      LongExprWords(tag);
    }
  }

  lemma {:induction false} SameTypeWord(a: TypeTag, b: TypeTag)
    ensures TypeWord(a) == TypeWord(b) <==> a == b
  {
    TypeWords(a);
    TypeWords(b);
  }

  lemma {:induction false} SameExprWord(a: ExprTag, b: ExprTag)
    ensures ExprWord(a) == ExprWord(b) <==> a == b
  {
    ExprWords(a);
    ExprWords(b);
  }

  lemma {:induction false} UnaryWords(a: UnaryOp, b: UnaryOp)
    ensures Token(UnaryWord(a)) && (UnaryWord(a) == UnaryWord(b) <==> a == b)
  {
    var v, w := UnaryWord(a), UnaryWord(b);
    assert v == w ==> v[1] == w[1] && v[|v| - 1] == w[|w| - 1];
  }

  lemma {:induction false} BinaryWordsAreWords(op: BinaryOp)
    ensures Token(BinaryWord(op))
  {
  }

  function BinaryOpBy(length: nat, first: char, second: char, last: char): BinaryOp {
    match length
    case 2 =>
      if first == 'l' then if last == 't' then Lt else Le
      else if first == 'g' then if last == 't' then Gt else Ge
      else if first == 'e' then Eq else if first == 'n' then Ne else Or
    case 3 =>
      if first == 'm' then Mul else if first == 'd' then Div else if first == 'r' then Rem
      else if first == 'a' then if second == 'd' then Add else And
      else if second == 'u' then Sub else if last == 'l' then Shl else Shr
    case 6 => BitOr
    case _ => if last == 'd' then BitAnd else BitXor
  }

  lemma {:induction false} BinaryWords(op: BinaryOp)
    ensures var w := BinaryWord(op); |w| > 1 && BinaryOpBy(|w|, w[0], w[1], w[|w| - 1]) == op
  {
  }

  lemma {:induction false} SameBinaryWord(a: BinaryOp, b: BinaryOp)
    ensures BinaryWord(a) == BinaryWord(b) <==> a == b
  {
    BinaryWords(a);
    BinaryWords(b);
  }

  lemma {:induction false} MarkerWords(a: SegmentKind, b: SegmentKind)
    ensures Token(MarkerWord(a))
    ensures Syntax.Base(a) == Syntax.Base(b) <==> a == b
    ensures BaseTerm(a) == BaseTerm(b) <==> a == b
  {
    var v, w := MarkerWord(a), MarkerWord(b);
    assert v == w ==> v[0] == w[0] && |v| == |w|;
  }

  // ---------------------------------------------------------------------------------------------------------------
  // Terms of types and expressions are well-formed.

  lemma {:induction false} TypeIsWellFormed(t: TypeRef)
    ensures WellFormed(TypeTerm(t))
    decreases t, 0
  {
    KindIsWellFormed(t.kind);
  }

  lemma {:induction false} KindIsWellFormed(kind: TypeKind)
    ensures WellFormed(KindTerm(kind))
    decreases kind, 1
  {
    TypeWordsAreWords(TypeTagOf(kind));
    SameTypeWord(TypeTagOf(kind), TPath);
    if kind.Path? {
      forall i | 0 <= i < |kind.segments| ensures WellFormedSegment(SegmentTerm(kind.segments[i])) {
        SegmentIsWellFormed(kind.segments[i]);
      }
    } else {
      PartsAreWellFormed(kind);
    }
  }

  ghost predicate WellFormedParts(parts: seq<Part>) {
    forall i | 0 <= i < |parts| :: WellFormedPart(parts[i])
  }

  lemma {:induction false} PartsAreWellFormed(kind: TypeKind)
    ensures WellFormedParts(KindParts(kind))
    decreases kind, 0
  {
    match kind
    case Projection(ty, traitRef, _) =>
      TypeIsWellFormed(ty);
      TypeIsWellFormed(traitRef);
    case Pointer(_, elem) => TypeIsWellFormed(elem);
    case VolatilePointer(_, elem) => TypeIsWellFormed(elem);
    case Slice(_, elem) => TypeIsWellFormed(elem);
    case SlicePointee(elem) => TypeIsWellFormed(elem);
    case Array(len, elem) =>
      LenIsWellFormed(len);
      TypeIsWellFormed(elem);
    case Tuple(elems) => TypesAreWellFormed(elems);
    case Range(start, end, _) =>
      OptionIsWellFormed(start);
      OptionIsWellFormed(end);
    case FunctionPointer(params, ret, _, _) =>
      TypesAreWellFormed(params);
      OptionIsWellFormed(ret);
    case Callable(params, ret) =>
      TypesAreWellFormed(params);
      OptionIsWellFormed(ret);
    case Optional(elem) => TypeIsWellFormed(elem);
    case ErrorUnion(error, value) =>
      TypeIsWellFormed(error);
      TypeIsWellFormed(value);
    case _ =>
  }

  lemma {:induction false} TypesAreWellFormed(ts: seq<TypeRef>)
    ensures WellFormedPart(Part(TypeTerms(ts)))
    decreases ts, 1
  {
    forall i | 0 <= i < |ts| ensures WellFormed(TypeTerm(ts[i])) {
      TypeIsWellFormed(ts[i]);
    }
  }

  lemma {:induction false} OptionIsWellFormed(t: Option<TypeRef>)
    ensures WellFormed(OptionTerm(t))
    decreases t, 1
  {
    match t
    case None => TypeWordsAreWords(TNone);
    case Some(ty) => TypeIsWellFormed(ty);
  }

  lemma {:induction false} LenIsWellFormed(len: ArrayLen)
    ensures WellFormed(LenTerm(len))
    decreases len, 1
  {
    match len
    case InferLen => TypeWordsAreWords(TInfer);
    case ExprLen(expr) => ExprIsWellFormed(expr);
  }

  lemma {:induction false} SegmentIsWellFormed(segment: PathSegment)
    ensures WellFormedSegment(SegmentTerm(segment))
    decreases segment, 1
  {
    MarkerWords(segment.kind, segment.kind);
    forall i | 0 <= i < |segment.args| ensures WellFormedArg(ArgTerm(segment.args[i])) {
      ArgIsWellFormed(segment.args[i]);
    }
  }

  lemma {:induction false} ArgIsWellFormed(arg: GenericArg)
    ensures WellFormedArg(ArgTerm(arg))
    decreases arg, 1
  {
    match arg
    case GType(ty) => TypeIsWellFormed(ty);
    case GConst(expr) => ExprIsWellFormed(expr);
    case GTypeOrConst(ty, expr) =>
      TypeIsWellFormed(ty);
      ExprIsWellFormed(expr);
    case GAssoc(key, ty) =>
      KeyIsWellFormed(key);
      TypeIsWellFormed(ty);
  }

  lemma {:induction false} KeyIsWellFormed(key: AssocKey)
    ensures WellFormed(KeyTerm(key))
    decreases key, 1
  {
    if key.KProjection? {
      TypeIsWellFormed(key.ty);
    }
  }

  lemma {:induction false} ExprTermShape(e: Expr)
    ensures ExprTerm(e).Word? || ExprTerm(e).Group?
    ensures ExprTerm(e).Word? ==> ExprTerm(e).word == ExprWord(ExprTagOf(e))
    ensures ExprTerm(e).Group? ==> ExprTerm(e) == Group(ExprWord(ExprTagOf(e)), ExprParts(e))
    ensures ExprTerm(e).Word? <==> e.ErrorExpr? || e.Bool? || e.Null? || e.SelfExpr? || e.Underscore?
  {
  }

  lemma {:induction false} ShapeIsWellFormed(t: Term, word: string, parts: seq<Part>)
    requires t == Word(word) || (t == Group(word, parts) && parts != [] && word != "path" && WellFormedParts(parts))
    requires Token(word)
    ensures WellFormed(t)
  {
  }

  lemma {:induction false} NotPath(tag: ExprTag)
    ensures ExprWord(tag) != "path"
  {
    ExprWords(tag);
    assert |"path"| == 4 && "path"[0] == 'p';
  }

  lemma {:induction false} HasParts(e: Expr)
    ensures ExprTerm(e).Group? ==> ExprParts(e) != []
  {
  }

  lemma {:induction false} ExprIsWellFormed(e: Expr)
    ensures WellFormed(ExprTerm(e))
    decreases e, 1
  {
    ExprTermShape(e);
    HasParts(e);
    ExprWordsAreWords(ExprTagOf(e));
    NotPath(ExprTagOf(e));
    ExprPartsAreWellFormed(e);
    ShapeIsWellFormed(ExprTerm(e), ExprWord(ExprTagOf(e)), ExprParts(e));
  }

  lemma {:induction false} ExprPartsAreWellFormed(e: Expr)
    ensures WellFormedParts(ExprParts(e))
    decreases e, 0
  {
    match e
    case PathRoot(segment) => MarkerWords(segment, segment);
    case TypeTarget(ty) => TypeIsWellFormed(ty);
    case TraitTarget(ty, traitRef) =>
      TypeIsWellFormed(ty);
      TypeIsWellFormed(traitRef);
    case TupleExpr(elems) => ExprsAreWellFormed(elems);
    case Unary(op, operand) =>
      UnaryWords(op, op);
      ExprIsWellFormed(operand);
    case Wrap(_, operand) => ExprIsWellFormed(operand);
    case Binary(lhs, op, rhs) =>
      BinaryWordsAreWords(op);
      ExprIsWellFormed(lhs);
      ExprIsWellFormed(rhs);
    case Cast(operand, ty) =>
      ExprIsWellFormed(operand);
      TypeIsWellFormed(ty);
    case Call(callee, args) =>
      ExprIsWellFormed(callee);
      ExprsAreWellFormed(args);
    case Qualified(target, _) => ExprIsWellFormed(target);
    case Field(target, _) => ExprIsWellFormed(target);
    case _ =>
  }

  lemma {:induction false} ExprsAreWellFormed(es: seq<Expr>)
    ensures WellFormedPart(Part(ExprTerms(es)))
    decreases es, 1
  {
    forall i | 0 <= i < |es| ensures WellFormed(ExprTerm(es[i])) {
      ExprIsWellFormed(es[i]);
    }
  }

  // ---------------------------------------------------------------------------------------------------------------
  // Equal terms are equal declarations.

  lemma {:induction false} SameOne(x: Term, y: Term)
    ensures [Part([x])] == [Part([y])] <==> x == y
  {
    assert [Part([x])] == [Part([y])] ==> [Part([x])][0].terms[0] == [Part([y])][0].terms[0];
  }

  lemma {:induction false} SameTwo(a: seq<Term>, b: seq<Term>, c: seq<Term>, d: seq<Term>)
    ensures [Part(a), Part(b)] == [Part(c), Part(d)] <==> a == c && b == d
  {
    var p, q := [Part(a), Part(b)], [Part(c), Part(d)];
    assert p == q ==> p[0] == q[0] && p[1] == q[1];
  }

  lemma {:induction false} SameThree(a: Term, b: Term, c: Term, x: Term, y: Term, z: Term)
    ensures [Part([a]), Part([b]), Part([c])] == [Part([x]), Part([y]), Part([z])] <==> a == x && b == y && c == z
  {
    var p, q := [Part([a]), Part([b]), Part([c])], [Part([x]), Part([y]), Part([z])];
    assert p == q ==>
      p[0].terms[0] == q[0].terms[0] && p[1].terms[0] == q[1].terms[0] && p[2].terms[0] == q[2].terms[0];
  }

  lemma {:induction false} SameSingle(x: Term, y: Term)
    ensures [x] == [y] <==> x == y
  {
    assert [x] == [y] ==> [x][0] == [y][0];
  }

  /** A term tells the tag of its type. */
  lemma {:induction false} SameTag(a: TypeKind, b: TypeKind)
    requires KindTerm(a) == KindTerm(b)
    ensures TypeTagOf(a) == TypeTagOf(b)
  {
    KindTermShape(a);
    KindTermShape(b);
    SameTypeWord(TypeTagOf(a), TypeTagOf(b));
  }

  lemma {:induction false} KindTermShape(kind: TypeKind)
    ensures kind.Path? <==> KindTerm(kind).Path?
    ensures !KindTerm(kind).Sym? && !KindTerm(kind).Text?
    ensures KindTerm(kind).Word? ==> KindTerm(kind).word == TypeWord(TypeTagOf(kind))
    ensures KindTerm(kind).Group? ==> KindTerm(kind) == Group(TypeWord(TypeTagOf(kind)), KindParts(kind))
    ensures KindTerm(kind).Word? <==> kind.Error? || kind.SelfType? || kind.Opaque? || kind.Never? || kind.Infer?
  {
  }

  lemma {:induction false} SameDeclTag(a: TypeKind, b: TypeKind)
    requires KindDeclEq(a, b)
    ensures TypeTagOf(a) == TypeTagOf(b)
  {
    if Element(a).Some? {
      SameElementTag(a, b);
    }
  }

  lemma {:induction false} SameElementTag(a: TypeKind, b: TypeKind)
    requires KindDeclEq(a, b) && Element(a).Some?
    ensures TypeTagOf(a) == TypeTagOf(b)
  {
  }

  lemma {:induction false} TypeIffDeclEq(a: TypeRef, b: TypeRef)
    ensures TypeTerm(a) == TypeTerm(b) <==> TypeRefDeclEq(a, b)
    decreases a, 0
  {
    KindIffDeclEq(a.kind, b.kind);
  }

  lemma {:induction false} KindIffDeclEq(a: TypeKind, b: TypeKind)
    ensures KindTerm(a) == KindTerm(b) <==> KindDeclEq(a, b)
    decreases a, 1
  {
    if TypeTagOf(a) != TypeTagOf(b) {
      if KindTerm(a) == KindTerm(b) {
        SameTag(a, b);
      }
      if KindDeclEq(a, b) {
        SameDeclTag(a, b);
      }
    } else if a.Path? {
      SegmentsIffDeclEq(a.segments, b.segments);
    } else {
      KindTermShape(a);
      KindTermShape(b);
      PartsIffDeclEq(a, b);
    }
  }

  lemma {:induction false} SegmentsIffDeclEq(a: seq<PathSegment>, b: seq<PathSegment>)
    ensures SegmentTerms(a) == SegmentTerms(b) <==> |a| == |b| && forall i | 0 <= i < |a| :: SegmentDeclEq(a[i], b[i])
    decreases a, 1
  {
    if |a| == |b| {
      var s, t := SegmentTerms(a), SegmentTerms(b);
      forall i | 0 <= i < |a| ensures s[i] == t[i] <==> SegmentDeclEq(a[i], b[i]) {
        SegmentIffDeclEq(a[i], b[i]);
      }
    }
  }

  lemma {:induction false} SegmentIffDeclEq(a: PathSegment, b: PathSegment)
    ensures SegmentTerm(a) == SegmentTerm(b) <==> SegmentDeclEq(a, b)
    decreases a, 1
  {
    MarkerWords(a.kind, b.kind);
    if |a.args| == |b.args| {
      var s, t := ArgTerms(a.args), ArgTerms(b.args);
      forall i | 0 <= i < |a.args| ensures s[i] == t[i] <==> ArgDeclEq(a.args[i], b.args[i]) {
        ArgIffDeclEq(a.args[i], b.args[i]);
      }
    }
  }

  lemma {:induction false} ArgIffDeclEq(a: GenericArg, b: GenericArg)
    ensures ArgTerm(a) == ArgTerm(b) <==> ArgDeclEq(a, b)
    decreases a, 1
  {
    match (a, b)
    case (GType(s), GType(t)) => TypeIffDeclEq(s, t);
    case (GConst(d), GConst(e)) => ExprIffDeclEq(d, e);
    case (GTypeOrConst(s, d), GTypeOrConst(t, e)) =>
      TypeIffDeclEq(s, t);
      ExprIffDeclEq(d, e);
    case (GAssoc(j, s), GAssoc(k, t)) =>
      KeyIffDeclEq(j, k);
      TypeIffDeclEq(s, t);
    case _ =>
  }

  lemma {:induction false} KeyIffDeclEq(a: AssocKey, b: AssocKey)
    ensures KeyTerm(a) == KeyTerm(b) <==> KeyDeclEq(a, b)
    decreases a, 1
  {
    if a.KProjection? && b.KProjection? {
      TypeIffDeclEq(a.ty, b.ty);
    } else if a.KProjection? {
      TypeTermShape(a.ty);
    } else if b.KProjection? {
      TypeTermShape(b.ty);
    }
  }

  lemma {:induction false} TypeTermShape(t: TypeRef)
    ensures !TypeTerm(t).Sym? && (TypeTerm(t).Word? ==> TypeTerm(t).word == TypeWord(TypeTagOf(t.kind)))
  {
  }

  lemma {:induction false} ExprIffDeclEq(a: Expr, b: Expr)
    ensures ExprTerm(a) == ExprTerm(b) <==> ExprDeclEq(a, b)
  {
    ExprIsWellFormed(a);
    ExprIsWellFormed(b);
    PrintIsInjective(ExprTerm(a), ExprTerm(b));
  }

  lemma {:induction false} LenIffDeclEq(a: ArrayLen, b: ArrayLen)
    ensures LenTerm(a) == LenTerm(b) <==> LenDeclEq(a, b)
  {
    if a.ExprLen? && b.ExprLen? {
      ExprIffDeclEq(a.expr, b.expr);
    } else if a.ExprLen? {
      NotInfer(a.expr);
    } else if b.ExprLen? {
      NotInfer(b.expr);
    }
  }

  lemma {:induction false} NotInfer(e: Expr)
    ensures ExprTerm(e) != Word(TypeWord(TInfer))
  {
    ExprTermShape(e);
    NotInferWord(ExprTagOf(e));
  }

  lemma {:induction false} NotInferWord(tag: ExprTag)
    ensures ExprWord(tag) != TypeWord(TInfer)
  {
    ExprWords(tag);
    TypeWords(TInfer);
    assert "infer"[0] == 'i' && "ident"[1] == 'd' && "infer"[1] == 'n';
  }

  lemma {:induction false} OptionIffDeclEq(a: Option<TypeRef>, b: Option<TypeRef>)
    ensures OptionTerm(a) == OptionTerm(b) <==> OptionDeclEq(a, b)
    decreases a, 1
  {
    if a.Some? && b.Some? {
      TypeIffDeclEq(a.value, b.value);
    } else if a.Some? {
      TypeTermShape(a.value);
      SameTypeWord(TypeTagOf(a.value.kind), TNone);
    } else if b.Some? {
      TypeTermShape(b.value);
      SameTypeWord(TypeTagOf(b.value.kind), TNone);
    }
  }

  lemma {:induction false} TypesIffDeclEq(a: seq<TypeRef>, b: seq<TypeRef>)
    ensures TypeTerms(a) == TypeTerms(b) <==> TypeRefsDeclEq(a, b)
    decreases a, 1
  {
    if |a| == |b| {
      var s, t := TypeTerms(a), TypeTerms(b);
      forall i | 0 <= i < |a| ensures s[i] == t[i] <==> TypeRefDeclEq(a[i], b[i]) {
        TypeIffDeclEq(a[i], b[i]);
      }
    }
  }

  lemma {:induction false} PartsIffDeclEq(a: TypeKind, b: TypeKind)
    requires TypeTagOf(a) == TypeTagOf(b) && !a.Path?
    ensures KindParts(a) == KindParts(b) <==> KindDeclEq(a, b)
    decreases a, 0, 2
  {
    match a
    case Projection(ty, traitRef, name) =>
      TypeIffDeclEq(ty, b.ty);
      TypeIffDeclEq(traitRef, b.traitRef);
      SameThree(TypeTerm(ty), TypeTerm(traitRef), Sym(name), TypeTerm(b.ty), TypeTerm(b.traitRef), Sym(b.name));
    case Array(len, elem) =>
      LenIffDeclEq(len, b.len);
      TypeIffDeclEq(elem, b.elem);
      SameSingle(LenTerm(len), LenTerm(b.len));
      SameSingle(TypeTerm(elem), TypeTerm(b.elem));
      SameTwo([LenTerm(len)], [TypeTerm(elem)], [LenTerm(b.len)], [TypeTerm(b.elem)]);
    case Tuple(elems) =>
      TypesIffDeclEq(elems, b.elems);
      assert KindParts(a)[0] == Part(TypeTerms(elems)) && KindParts(b)[0] == Part(TypeTerms(b.elems));
    case Range(start, end, _) =>
      OptionIffDeclEq(start, b.start);
      OptionIffDeclEq(end, b.end);
      SameSingle(OptionTerm(start), OptionTerm(b.start));
      SameSingle(OptionTerm(end), OptionTerm(b.end));
      SameTwo([OptionTerm(start)], [OptionTerm(end)], [OptionTerm(b.start)], [OptionTerm(b.end)]);
    case FunctionPointer(params, ret, _, _) =>
      TypesIffDeclEq(params, b.params);
      OptionIffDeclEq(ret, b.ret);
      SameSingle(OptionTerm(ret), OptionTerm(b.ret));
      SameTwo(TypeTerms(params), [OptionTerm(ret)], TypeTerms(b.params), [OptionTerm(b.ret)]);
    case Callable(params, ret) =>
      TypesIffDeclEq(params, b.params);
      OptionIffDeclEq(ret, b.ret);
      SameSingle(OptionTerm(ret), OptionTerm(b.ret));
      SameTwo(TypeTerms(params), [OptionTerm(ret)], TypeTerms(b.params), [OptionTerm(b.ret)]);
    case ErrorUnion(error, value) =>
      TypeIffDeclEq(error, b.error);
      TypeIffDeclEq(value, b.value);
      SameSingle(TypeTerm(error), TypeTerm(b.error));
      SameSingle(TypeTerm(value), TypeTerm(b.value));
      SameTwo([TypeTerm(error)], [TypeTerm(value)], [TypeTerm(b.error)], [TypeTerm(b.value)]);
    case Path(_) =>
    case _ => WrappedIffDeclEq(a, b);
  }

  /** The element of a kind that has just one. */
  function Element(kind: TypeKind): Option<TypeRef> {
    match kind
    case Pointer(_, elem) => Some(elem)
    case VolatilePointer(_, elem) => Some(elem)
    case Slice(_, elem) => Some(elem)
    case SlicePointee(elem) => Some(elem)
    case Optional(elem) => Some(elem)
    case _ => None
  }

  lemma {:induction false} ElementShape(a: TypeKind, b: TypeKind)
    requires TypeTagOf(a) == TypeTagOf(b) && Element(a).Some?
    ensures Element(b).Some? && KindDeclEq(a, b) == TypeRefDeclEq(Element(a).value, Element(b).value)
    ensures KindParts(a) == [Part([TypeTerm(Element(a).value)])] && KindParts(b) == [Part([TypeTerm(Element(b).value)])]
  {
  }

  /** Kinds with one element, and kinds with none. */
  lemma {:induction false} WrappedIffDeclEq(a: TypeKind, b: TypeKind)
    requires TypeTagOf(a) == TypeTagOf(b)
    requires !a.Path? && !a.Projection? && !a.Array? && !a.Tuple? && !a.Range? && !a.FunctionPointer? &&
      !a.Callable? && !a.ErrorUnion?
    ensures KindParts(a) == KindParts(b) <==> KindDeclEq(a, b)
    decreases a, 0, 1
  {
    if Element(a).Some? {
      ElementShape(a, b);
      ElementIffDeclEq(a, b);
    }
  }

  lemma {:induction false} ElementIffDeclEq(a: TypeKind, b: TypeKind)
    requires Element(a).Some? && Element(b).Some?
    ensures [Part([TypeTerm(Element(a).value)])] == [Part([TypeTerm(Element(b).value)])] <==>
      TypeRefDeclEq(Element(a).value, Element(b).value)
    decreases a, 0, 0
  {
    TypeIffDeclEq(Element(a).value, Element(b).value);
    SameOne(TypeTerm(Element(a).value), TypeTerm(Element(b).value));
  }

  /** Two types have the same identity if and only if they are equal as declarations. */
  lemma {:induction false} IdentityIffDeclEq(a: TypeRef, b: TypeRef)
    ensures TypeIdentity(a) == TypeIdentity(b) <==> TypeRefDeclEq(a, b)
  {
    TypeIsWellFormed(a);
    TypeIsWellFormed(b);
    PrintIsInjective(TypeTerm(a), TypeTerm(b));
    TypeIffDeclEq(a, b);
  }

  // ---------------------------------------------------------------------------------------------------------------
  // Equal expression identities are equal structures.

  /** The same form with the same texts, names, operators and operands; types compared as declarations. */
  predicate SameExpr(a: Expr, b: Expr)
    decreases a, 1
  {
    match (a, b)
    case (TypeTarget(s), TypeTarget(t)) => TypeRefDeclEq(s, t)
    case (TraitTarget(s, q), TraitTarget(t, r)) => TypeRefDeclEq(s, t) && TypeRefDeclEq(q, r)
    case (TupleExpr(ds), TupleExpr(es)) => SameExprs(ds, es)
    case (Unary(o, d), Unary(p, e)) => o == p && SameExpr(d, e)
    case (Wrap(w, d), Wrap(v, e)) => w == v && SameExpr(d, e)
    case (Binary(d, o, d'), Binary(e, p, e')) => o == p && SameExpr(d, e) && SameExpr(d', e')
    case (Cast(d, s), Cast(e, t)) => SameExpr(d, e) && TypeRefDeclEq(s, t)
    case (Call(d, ds), Call(e, es)) => SameExpr(d, e) && SameExprs(ds, es)
    case (Qualified(d, m), Qualified(e, n)) => m == n && SameExpr(d, e)
    case (Field(d, m), Field(e, n)) => m == n && SameExpr(d, e)
    case _ => a == b
  }

  predicate SameExprs(a: seq<Expr>, b: seq<Expr>)
    decreases a, 2
  {
    |a| == |b| && forall i | 0 <= i < |a| :: SameExpr(a[i], b[i])
  }

  lemma {:induction false} SameExprTag(a: Expr, b: Expr)
    requires ExprTerm(a) == ExprTerm(b)
    ensures ExprTagOf(a) == ExprTagOf(b)
  {
    ExprTermShape(a);
    ExprTermShape(b);
    SameExprWord(ExprTagOf(a), ExprTagOf(b));
  }

  lemma {:induction false} SameExprHasTag(a: Expr, b: Expr)
    requires SameExpr(a, b)
    ensures ExprTagOf(a) == ExprTagOf(b)
  {
  }

  lemma {:induction false} TermIffSameExpr(a: Expr, b: Expr)
    ensures ExprTerm(a) == ExprTerm(b) <==> SameExpr(a, b)
    decreases a, 1
  {
    if ExprTagOf(a) != ExprTagOf(b) {
      if ExprTerm(a) == ExprTerm(b) {
        SameExprTag(a, b);
      }
      if SameExpr(a, b) {
        SameExprHasTag(a, b);
      }
    } else {
      ExprTermShape(a);
      ExprTermShape(b);
      PartsIffSameExpr(a, b);
    }
  }

  lemma {:induction false} TermsIffSameExprs(a: seq<Expr>, b: seq<Expr>)
    ensures ExprTerms(a) == ExprTerms(b) <==> SameExprs(a, b)
    decreases a, 2
  {
    if |a| == |b| {
      var s, t := ExprTerms(a), ExprTerms(b);
      forall i | 0 <= i < |a| ensures s[i] == t[i] <==> SameExpr(a[i], b[i]) {
        TermIffSameExpr(a[i], b[i]);
      }
    }
  }

  lemma {:induction false} TextsAreInjective(a: seq<string>, b: seq<string>)
    ensures Texts(a) == Texts(b) <==> a == b
  {
    if |a| == |b| {
      var s, t := Texts(a), Texts(b);
      assert forall i | 0 <= i < |a| :: s[i] == t[i] <==> a[i] == b[i];
    }
  }

  lemma {:induction false} PartsIffSameExpr(a: Expr, b: Expr)
    requires ExprTagOf(a) == ExprTagOf(b)
    ensures ExprParts(a) == ExprParts(b) <==> SameExpr(a, b)
    decreases a, 0, 1
  {
    if Leaf(a) {
      LeafIffSameExpr(a, b);
    } else if a.TypeTarget? || a.TraitTarget? || a.Cast? {
      TypedIffSameExpr(a, b);
    } else if a.TupleExpr? || a.Call? {
      ListIffSameExpr(a, b);
    } else {
      OperandsIffSameExpr(a, b);
    }
  }

  lemma {:induction false} TypedIffSameExpr(a: Expr, b: Expr)
    requires ExprTagOf(a) == ExprTagOf(b) && (a.TypeTarget? || a.TraitTarget? || a.Cast?)
    ensures ExprParts(a) == ExprParts(b) <==> SameExpr(a, b)
    decreases a, 0, 0
  {
    TypeIffDeclEq(a.ty, b.ty);
    SameSingle(TypeTerm(a.ty), TypeTerm(b.ty));
    if a.TypeTarget? {
      SameOne(TypeTerm(a.ty), TypeTerm(b.ty));
    } else if a.TraitTarget? {
      TypeIffDeclEq(a.traitRef, b.traitRef);
      SameSingle(TypeTerm(a.traitRef), TypeTerm(b.traitRef));
      SameTwo([TypeTerm(a.ty)], [TypeTerm(a.traitRef)], [TypeTerm(b.ty)], [TypeTerm(b.traitRef)]);
    } else {
      TermIffSameExpr(a.operand, b.operand);
      SameSingle(ExprTerm(a.operand), ExprTerm(b.operand));
      SameTwo([ExprTerm(a.operand)], [TypeTerm(a.ty)], [ExprTerm(b.operand)], [TypeTerm(b.ty)]);
    }
  }

  lemma {:induction false} ListIffSameExpr(a: Expr, b: Expr)
    requires ExprTagOf(a) == ExprTagOf(b) && (a.TupleExpr? || a.Call?)
    ensures ExprParts(a) == ExprParts(b) <==> SameExpr(a, b)
    decreases a, 0, 0
  {
    if a.TupleExpr? {
      TermsIffSameExprs(a.elems, b.elems);
      assert ExprParts(a)[0] == Part(ExprTerms(a.elems)) && ExprParts(b)[0] == Part(ExprTerms(b.elems));
    } else {
      TermIffSameExpr(a.callee, b.callee);
      TermsIffSameExprs(a.args, b.args);
      SameSingle(ExprTerm(a.callee), ExprTerm(b.callee));
      SameTwo([ExprTerm(a.callee)], ExprTerms(a.args), [ExprTerm(b.callee)], ExprTerms(b.args));
    }
  }

  lemma {:induction false} OperandsIffSameExpr(a: Expr, b: Expr)
    requires ExprTagOf(a) == ExprTagOf(b) && (a.Unary? || a.Wrap? || a.Binary? || a.Qualified? || a.Field?)
    ensures ExprParts(a) == ExprParts(b) <==> SameExpr(a, b)
    decreases a, 0, 0
  {
    if a.Qualified? || a.Field? {
      NamedIffSameExpr(a.target, a.name, b.target, b.name);
    } else if a.Binary? {
      SameBinaryWord(a.binary, b.binary);
      TermIffSameExpr(a.lhs, b.lhs);
      TermIffSameExpr(a.rhs, b.rhs);
      SameThree(ExprTerm(a.lhs), Word(BinaryWord(a.binary)), ExprTerm(a.rhs),
                ExprTerm(b.lhs), Word(BinaryWord(b.binary)), ExprTerm(b.rhs));
    } else {
      TermIffSameExpr(a.operand, b.operand);
      if a.Wrap? {
        SameOne(ExprTerm(a.operand), ExprTerm(b.operand));
      } else {
        UnaryWords(a.op, b.op);
        SameSingle(Word(UnaryWord(a.op)), Word(UnaryWord(b.op)));
        SameSingle(ExprTerm(a.operand), ExprTerm(b.operand));
        SameTwo([Word(UnaryWord(a.op))], [ExprTerm(a.operand)], [Word(UnaryWord(b.op))], [ExprTerm(b.operand)]);
      }
    }
  }

  lemma {:induction false} NamedIffSameExpr(a: Expr, m: Symbol, b: Expr, n: Symbol)
    ensures [Part([ExprTerm(a)]), Part([Sym(m)])] == [Part([ExprTerm(b)]), Part([Sym(n)])] <==> m == n && SameExpr(a, b)
    decreases a, 2
  {
    TermIffSameExpr(a, b);
    SameSingle(ExprTerm(a), ExprTerm(b));
    SameSingle(Sym(m), Sym(n));
    SameTwo([ExprTerm(a)], [Sym(m)], [ExprTerm(b)], [Sym(n)]);
  }

  ghost predicate Leaf(e: Expr) {
    || e.Literal? || e.String? || e.ByteString? || e.Ident? || e.PathRoot?
    || e.ErrorExpr? || e.Bool? || e.Null? || e.SelfExpr? || e.Underscore?
  }

  /** Expressions without operands. */
  lemma {:induction false} LeafIffSameExpr(a: Expr, b: Expr)
    requires ExprTagOf(a) == ExprTagOf(b) && Leaf(a)
    ensures ExprParts(a) == ExprParts(b) <==> SameExpr(a, b)
  {
    if a.String? || a.ByteString? {
      StringIffSameExpr(a, b);
    } else {
      ShortIffSameExpr(a, b);
    }
  }

  lemma {:induction false} StringIffSameExpr(a: Expr, b: Expr)
    requires ExprTagOf(a) == ExprTagOf(b) && (a.String? || a.ByteString?)
    ensures ExprParts(a) == ExprParts(b) <==> SameExpr(a, b)
  {
    TextsAreInjective(a.pieces, b.pieces);
    assert ExprParts(a)[0] == Part(Texts(a.pieces)) && ExprParts(b)[0] == Part(Texts(b.pieces));
  }

  lemma {:induction false} ShortIffSameExpr(a: Expr, b: Expr)
    requires ExprTagOf(a) == ExprTagOf(b) && Leaf(a) && !a.String? && !a.ByteString?
    ensures ExprParts(a) == ExprParts(b) <==> SameExpr(a, b)
  {
    if a.Literal? || a.Ident? || a.PathRoot? {
      OneIffSameExpr(a, b);
    } else {
      WordIffSameExpr(a, b);
    }
  }

  lemma {:induction false} WordIffSameExpr(a: Expr, b: Expr)
    requires ExprTagOf(a) == ExprTagOf(b) && (a.ErrorExpr? || a.Bool? || a.Null? || a.SelfExpr? || a.Underscore?)
    ensures ExprParts(a) == ExprParts(b) && SameExpr(a, b)
  {
    assert a == b;
  }

  lemma {:induction false} OneIffSameExpr(a: Expr, b: Expr)
    requires ExprTagOf(a) == ExprTagOf(b) && (a.Literal? || a.Ident? || a.PathRoot?)
    ensures ExprParts(a) == ExprParts(b) <==> SameExpr(a, b)
  {
    if a.Literal? {
      SameOne(Text(a.text), Text(b.text));
    } else if a.Ident? {
      SameOne(Sym(a.name), Sym(b.name));
    } else {
      MarkerWords(a.segment, b.segment);
      SameOne(BaseTerm(a.segment), BaseTerm(b.segment));
    }
  }

  /** Two expressions have the same identity if and only if they have the same structure. */
  lemma {:induction false} ExprIdentityIffSame(a: Expr, b: Expr)
    ensures ExprDeclEq(a, b) <==> SameExpr(a, b)
  {
    ExprIffDeclEq(a, b);
    TermIffSameExpr(a, b);
  }
}
