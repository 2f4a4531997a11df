/** Type references and the expressions inside them, their declaration equality, and the terms their identities
    print. */
module Syntax {
  import opened Options
  import opened T = Terms

  datatype SegmentKind = Name(name: Symbol) | Root | Super | SelfValue

  /** Spans and source spelling are kept here and ignored by everything below. */
  datatype TypeRef = TypeRef(span: nat, text: string, kind: TypeKind)

  datatype TypeKind =
    | Error
    | Path(segments: seq<PathSegment>)
    | Projection(ty: TypeRef, traitRef: TypeRef, name: Symbol)
    | Pointer(readonly: bool, elem: TypeRef)
    | VolatilePointer(readonly: bool, elem: TypeRef)
    | Slice(readonly: bool, elem: TypeRef)
    | SlicePointee(elem: TypeRef)
    | Array(len: ArrayLen, elem: TypeRef)
    | Tuple(elems: seq<TypeRef>)
    | Range(start: Option<TypeRef>, end: Option<TypeRef>, inclusive: bool)
    | FunctionPointer(params: seq<TypeRef>, ret: Option<TypeRef>, variadic: bool, external: bool)
    | Callable(params: seq<TypeRef>, ret: Option<TypeRef>)
    | Optional(elem: TypeRef)
    | ErrorUnion(error: TypeRef, value: TypeRef)
    | SelfType
    | Opaque
    | Never
    | Infer

  datatype PathSegment = PathSegment(kind: SegmentKind, span: nat, args: seq<GenericArg>)

  datatype GenericArg =
    | GType(ty: TypeRef)
    | GConst(expr: Expr)
    | GTypeOrConst(ty: TypeRef, expr: Expr)
    | GAssoc(key: AssocKey, ty: TypeRef)

  datatype AssocKey = KName(name: Symbol) | KProjection(ty: TypeRef)

  datatype ArrayLen = InferLen | ExprLen(expr: Expr)

  datatype LiteralKind = Integer | Float | Char | ByteChar | Raw
  datatype WrapKind = OptionalSome | ErrorOk | ErrorErr | Try
  datatype UnaryOp = Neg | Not | BitNot | RefReadOnly | Ref | Deref
  datatype BinaryOp =
    | Mul | Div | Rem | Add | Sub | Shl | Shr | Lt | Le | Gt | Ge | Eq | Ne | BitAnd | BitXor | BitOr | And | Or

  /** The expression forms whose identities tell them apart. */
  datatype Expr =
    | ErrorExpr
    | Literal(literal: LiteralKind, text: string)
    | String(pieces: seq<string>)
    | ByteString(pieces: seq<string>)
    | Bool(flag: bool)
    | Null
    | Ident(name: Symbol)
    | SelfExpr
    | PathRoot(segment: SegmentKind)
    | Underscore
    | TypeTarget(ty: TypeRef)
    | TraitTarget(ty: TypeRef, traitRef: TypeRef)
    | TupleExpr(elems: seq<Expr>)
    | Unary(op: UnaryOp, operand: Expr)
    | Wrap(wrap: WrapKind, operand: Expr)
    | Binary(lhs: Expr, binary: BinaryOp, rhs: Expr)
    | Cast(operand: Expr, ty: TypeRef)
    | Call(callee: Expr, args: seq<Expr>)
    | Qualified(target: Expr, name: Symbol)
    | Field(target: Expr, name: Symbol)

  // ---------------------------------------------------------------------------------------------------------------
  // Keywords.

  datatype TypeTag =
    | TError | TPath | TProjection | TPtr | TMutPtr | TVolatilePtr | TVolatileMutPtr | TSlice | TMutSlice
    | TSlicePointee
    | TArray | TTuple | TRange | TRangeInc | TFun | TFnVar | TExternFn | TExternFnVar | TCallable | TOptional
    | TErrorUnion | TSelf | TOpaque | TNever | TInfer | TNone

  function TypeWord(tag: TypeTag): string {
    match tag
    case TError => "error"
    case TPath => "path"
    case TProjection => "projection"
    case TPtr => "ptr"
    case TMutPtr => "mut_ptr"
    case TVolatilePtr => "volatile_ptr"
    case TVolatileMutPtr => "volatile_mut_ptr"
    case TSlice => "slice"
    case TMutSlice => "mut_slice"
    case TSlicePointee => "slice_pointee"
    case TArray => "array"
    case TTuple => "tuple"
    case TRange => "range"
    case TRangeInc => "range_inc"
    case TFun => "fun"
    case TFnVar => "fn_var"
    case TExternFn => "extern_fn"
    case TExternFnVar => "extern_fn_var"
    case TCallable => "callable"
    case TOptional => "optional"
    case TErrorUnion => "error_union"
    case TSelf => "self"
    case TOpaque => "opaque"
    case TNever => "never"
    case TInfer => "infer"
    case TNone => "none"
  }

  datatype ExprTag =
    | EError | EInt | EFloat | EChar | EByteChar | ERaw | EString | EBytes | ETrue | EFalse | ENull | EIdent | ESelf
    | EPathRoot | EUnderscore | ETypeTarget | ETraitTarget | ETuple | EUnary | ESome | EOk | EErr | ETry | EBinary
    | ECast | ECall | EQualified | EField

  function ExprWord(tag: ExprTag): string {
    match tag
    case EError => "error"
    case EInt => "int"
    case EFloat => "float"
    case EChar => "char"
    case EByteChar => "byte_char"
    case ERaw => "raw"
    case EString => "string"
    case EBytes => "bytes"
    case ETrue => "true"
    case EFalse => "false"
    case ENull => "null"
    case EIdent => "ident"
    case ESelf => "self_value"
    case EPathRoot => "path_root"
    case EUnderscore => "_"
    case ETypeTarget => "type_target"
    case ETraitTarget => "trait_target"
    case ETuple => "tuple"
    case EUnary => "unary"
    case ESome => "some"
    case EOk => "ok"
    case EErr => "err"
    case ETry => "try"
    case EBinary => "binary"
    case ECast => "cast"
    case ECall => "call"
    case EQualified => "qualified"
    case EField => "field"
  }

  function UnaryWord(op: UnaryOp): string {
    match op
    case Neg => "neg"
    case Not => "not"
    case BitNot => "bit_not"
    case RefReadOnly => "ref_readonly"
    case Ref => "ref"
    case Deref => "deref"
  }

  function BinaryWord(op: BinaryOp): string {
    match op
    case Mul => "mul"
    case Div => "div"
    case Rem => "rem"
    case Add => "add"
    case Sub => "sub"
    case Shl => "shl"
    case Shr => "shr"
    case Lt => "lt"
    case Le => "le"
    case Gt => "gt"
    case Ge => "ge"
    case Eq => "eq"
    case Ne => "ne"
    case BitAnd => "bit_and"
    case BitXor => "bit_xor"
    case BitOr => "bit_or"
    case And => "and"
    case Or => "or"
  }

  function MarkerWord(kind: SegmentKind): string {
    match kind
    case Name(_) => "name"
    case Root => "root"
    case Super => "super"
    case SelfValue => "self"
  }

  // ---------------------------------------------------------------------------------------------------------------
  // Terms.

  function Base(kind: SegmentKind): T.Base {
    if kind.Name? then Named(kind.name) else Marker(MarkerWord(kind))
  }

  function BaseTerm(kind: SegmentKind): Term {
    if kind.Name? then Sym(kind.name) else Word(MarkerWord(kind))
  }

  function TypeTagOf(kind: TypeKind): TypeTag {
    match kind
    case Error => TError
    case Path(_) => TPath
    case Projection(_, _, _) => TProjection
    case Pointer(readonly, _) => if readonly then TPtr else TMutPtr
    case VolatilePointer(readonly, _) => if readonly then TVolatilePtr else TVolatileMutPtr
    case Slice(readonly, _) => if readonly then TSlice else TMutSlice
    case SlicePointee(_) => TSlicePointee
    case Array(_, _) => TArray
    case Tuple(_) => TTuple
    case Range(_, _, inclusive) => if inclusive then TRangeInc else TRange
    case FunctionPointer(_, _, variadic, external) =>
      if external then if variadic then TExternFnVar else TExternFn
      else if variadic then TFnVar else TFun
    case Callable(_, _) => TCallable
    case Optional(_) => TOptional
    case ErrorUnion(_, _) => TErrorUnion
    case SelfType => TSelf
    case Opaque => TOpaque
    case Never => TNever
    case Infer => TInfer
  }

  function TypeTerm(t: TypeRef): Term
    decreases t, 0
  {
    KindTerm(t.kind)
  }

  function KindTerm(kind: TypeKind): Term
    decreases kind, 1
  {
    match kind
    case Path(segments) => T.Path(SegmentTerms(segments))
    case Error => Word(TypeWord(TError))
    case SelfType => Word(TypeWord(TSelf))
    case Opaque => Word(TypeWord(TOpaque))
    case Never => Word(TypeWord(TNever))
    case Infer => Word(TypeWord(TInfer))
    case _ => Group(TypeWord(TypeTagOf(kind)), KindParts(kind))
  }

  function KindParts(kind: TypeKind): seq<Part>
    decreases kind, 0
  {
    match kind
    case Projection(ty, traitRef, name) => [Part([TypeTerm(ty)]), Part([TypeTerm(traitRef)]), Part([Sym(name)])]
    case Pointer(_, elem) => [Part([TypeTerm(elem)])]
    case VolatilePointer(_, elem) => [Part([TypeTerm(elem)])]
    case Slice(_, elem) => [Part([TypeTerm(elem)])]
    case SlicePointee(elem) => [Part([TypeTerm(elem)])]
    case Array(len, elem) => [Part([LenTerm(len)]), Part([TypeTerm(elem)])]
    case Tuple(elems) => [Part(TypeTerms(elems))]
    case Range(start, end, _) => [Part([OptionTerm(start)]), Part([OptionTerm(end)])]
    case FunctionPointer(params, ret, _, _) => [Part(TypeTerms(params)), Part([OptionTerm(ret)])]
    case Callable(params, ret) => [Part(TypeTerms(params)), Part([OptionTerm(ret)])]
    case Optional(elem) => [Part([TypeTerm(elem)])]
    case ErrorUnion(error, value) => [Part([TypeTerm(error)]), Part([TypeTerm(value)])]
    case _ => []
  }

  function TypeTerms(ts: seq<TypeRef>): seq<Term>
    decreases ts, 1
  {
    seq(|ts|, i requires 0 <= i < |ts| => TypeTerm(ts[i]))
  }

  function OptionTerm(t: Option<TypeRef>): Term
    decreases t, 1
  {
    match t
    case None => Word(TypeWord(TNone))
    case Some(ty) => TypeTerm(ty)
  }

  function LenTerm(len: ArrayLen): Term
    decreases len, 1
  {
    match len
    case InferLen => Word(TypeWord(TInfer))
    case ExprLen(expr) => ExprTerm(expr)
  }

  function SegmentTerms(segments: seq<PathSegment>): seq<Segment>
    decreases segments, 1
  {
    seq(|segments|, i requires 0 <= i < |segments| => SegmentTerm(segments[i]))
  }

  function SegmentTerm(segment: PathSegment): Segment
    decreases segment, 1
  {
    Segment(Base(segment.kind), ArgTerms(segment.args))
  }

  function ArgTerms(args: seq<GenericArg>): seq<Arg>
    decreases args, 1
  {
    seq(|args|, i requires 0 <= i < |args| => ArgTerm(args[i]))
  }

  function ArgTerm(arg: GenericArg): Arg
    decreases arg, 1
  {
    match arg
    case GType(ty) => TypeArg(TypeTerm(ty))
    case GConst(expr) => ConstArg(ExprTerm(expr))
    case GTypeOrConst(ty, expr) => TypeOrConst(TypeTerm(ty), ExprTerm(expr))
    case GAssoc(key, ty) => Assoc(KeyTerm(key), TypeTerm(ty))
  }

  function KeyTerm(key: AssocKey): Term
    decreases key, 1
  {
    match key
    case KName(name) => Sym(name)
    case KProjection(ty) => TypeTerm(ty)
  }

  function ExprTagOf(e: Expr): ExprTag {
    match e
    case ErrorExpr => EError
    case Literal(literal, _) =>
      (match literal
       case Integer => EInt
       case Float => EFloat
       case Char => EChar
       case ByteChar => EByteChar
       case Raw => ERaw)
    case String(_) => EString
    case ByteString(_) => EBytes
    case Bool(flag) => if flag then ETrue else EFalse
    case Null => ENull
    case Ident(_) => EIdent
    case SelfExpr => ESelf
    case PathRoot(_) => EPathRoot
    case Underscore => EUnderscore
    case TypeTarget(_) => ETypeTarget
    case TraitTarget(_, _) => ETraitTarget
    case TupleExpr(_) => ETuple
    case Unary(_, _) => EUnary
    case Wrap(wrap, _) =>
      (match wrap
       case OptionalSome => ESome
       case ErrorOk => EOk
       case ErrorErr => EErr
       case Try => ETry)
    case Binary(_, _, _) => EBinary
    case Cast(_, _) => ECast
    case Call(_, _) => ECall
    case Qualified(_, _) => EQualified
    case Field(_, _) => EField
  }

  function ExprTerm(e: Expr): Term
    decreases e, 1
  {
    match e
    case ErrorExpr => Word(ExprWord(EError))
    case Bool(flag) => Word(ExprWord(if flag then ETrue else EFalse))
    case Null => Word(ExprWord(ENull))
    case SelfExpr => Word(ExprWord(ESelf))
    case Underscore => Word(ExprWord(EUnderscore))
    case _ => Group(ExprWord(ExprTagOf(e)), ExprParts(e))
  }

  function ExprParts(e: Expr): seq<Part>
    decreases e, 0
  {
    match e
    case Literal(_, text) => [Part([Text(text)])]
    case String(pieces) => [Part(Texts(pieces))]
    case ByteString(pieces) => [Part(Texts(pieces))]
    case Ident(name) => [Part([Sym(name)])]
    case PathRoot(segment) => [Part([BaseTerm(segment)])]
    case TypeTarget(ty) => [Part([TypeTerm(ty)])]
    case TraitTarget(ty, traitRef) => [Part([TypeTerm(ty)]), Part([TypeTerm(traitRef)])]
    case TupleExpr(elems) => [Part(ExprTerms(elems))]
    case Unary(op, operand) => [Part([Word(UnaryWord(op))]), Part([ExprTerm(operand)])]
    case Wrap(_, operand) => [Part([ExprTerm(operand)])]
    case Binary(lhs, op, rhs) => [Part([ExprTerm(lhs)]), Part([Word(BinaryWord(op))]), Part([ExprTerm(rhs)])]
    case Cast(operand, ty) => [Part([ExprTerm(operand)]), Part([TypeTerm(ty)])]
    case Call(callee, args) => [Part([ExprTerm(callee)]), Part(ExprTerms(args))]
    case Qualified(target, name) => [Part([ExprTerm(target)]), Part([Sym(name)])]
    case Field(target, name) => [Part([ExprTerm(target)]), Part([Sym(name)])]
    case _ => []
  }

  function ExprTerms(es: seq<Expr>): seq<Term>
    decreases es, 1
  {
    seq(|es|, i requires 0 <= i < |es| => ExprTerm(es[i]))
  }

  function Texts(pieces: seq<string>): seq<Term> {
    seq(|pieces|, i requires 0 <= i < |pieces| => Text(pieces[i]))
  }

  function TypeIdentity(t: TypeRef): string {
    Print(TypeTerm(t))
  }

  function ExprIdentity(e: Expr): string {
    Print(ExprTerm(e))
  }

  // ---------------------------------------------------------------------------------------------------------------
  // Declaration equality.

  predicate TypeRefDeclEq(a: TypeRef, b: TypeRef)
    decreases a, 0
  {
    KindDeclEq(a.kind, b.kind)
  }

  predicate TypeRefsDeclEq(a: seq<TypeRef>, b: seq<TypeRef>)
    decreases a, 1
  {
    |a| == |b| && forall i | 0 <= i < |a| :: TypeRefDeclEq(a[i], b[i])
  }

  predicate OptionDeclEq(a: Option<TypeRef>, b: Option<TypeRef>)
    decreases a, 1
  {
    match (a, b)
    case (Some(s), Some(t)) => TypeRefDeclEq(s, t)
    case (None, None) => true
    case _ => false
  }

  predicate KindDeclEq(a: TypeKind, b: TypeKind)
    decreases a, 0
  {
    match (a, b)
    case (Error, Error) => true
    case (SelfType, SelfType) => true
    case (Opaque, Opaque) => true
    case (Never, Never) => true
    case (Infer, Infer) => true
    case (Path(s), Path(t)) => |s| == |t| && forall i | 0 <= i < |s| :: SegmentDeclEq(s[i], t[i])
    case (Projection(ta, ra, na), Projection(tb, rb, nb)) => na == nb && TypeRefDeclEq(ta, tb) && TypeRefDeclEq(ra, rb)
    case (Pointer(ra, ea), Pointer(rb, eb)) => ra == rb && TypeRefDeclEq(ea, eb)
    case (VolatilePointer(ra, ea), VolatilePointer(rb, eb)) => ra == rb && TypeRefDeclEq(ea, eb)
    case (Slice(ra, ea), Slice(rb, eb)) => ra == rb && TypeRefDeclEq(ea, eb)
    case (SlicePointee(ea), SlicePointee(eb)) => TypeRefDeclEq(ea, eb)
    case (Optional(ea), Optional(eb)) => TypeRefDeclEq(ea, eb)
    case (Array(la, ea), Array(lb, eb)) => LenDeclEq(la, lb) && TypeRefDeclEq(ea, eb)
    case (Tuple(ea), Tuple(eb)) => TypeRefsDeclEq(ea, eb)
    case (Range(sa, ea, ia), Range(sb, eb, ib)) => ia == ib && OptionDeclEq(sa, sb) && OptionDeclEq(ea, eb)
    case (FunctionPointer(pa, ra, va, xa), FunctionPointer(pb, rb, vb, xb)) =>
      xa == xb && va == vb && TypeRefsDeclEq(pa, pb) && OptionDeclEq(ra, rb)
    case (Callable(pa, ra), Callable(pb, rb)) => TypeRefsDeclEq(pa, pb) && OptionDeclEq(ra, rb)
    case (ErrorUnion(ea, va), ErrorUnion(eb, vb)) => TypeRefDeclEq(ea, eb) && TypeRefDeclEq(va, vb)
    case _ => false
  }

  predicate SegmentDeclEq(a: PathSegment, b: PathSegment)
    decreases a, 1
  {
    a.kind == b.kind && |a.args| == |b.args| && forall i | 0 <= i < |a.args| :: ArgDeclEq(a.args[i], b.args[i])
  }

  predicate ArgDeclEq(a: GenericArg, b: GenericArg)
    decreases a, 1
  {
    match (a, b)
    case (GType(s), GType(t)) => TypeRefDeclEq(s, t)
    case (GConst(d), GConst(e)) => ExprDeclEq(d, e)
    case (GTypeOrConst(s, d), GTypeOrConst(t, e)) => TypeRefDeclEq(s, t) && ExprDeclEq(d, e)
    case (GAssoc(j, s), GAssoc(k, t)) => KeyDeclEq(j, k) && TypeRefDeclEq(s, t)
    case _ => false
  }

  predicate KeyDeclEq(a: AssocKey, b: AssocKey)
    decreases a, 1
  {
    match (a, b)
    case (KName(m), KName(n)) => m == n
    case (KProjection(s), KProjection(t)) => TypeRefDeclEq(s, t)
    case _ => false
  }

  predicate LenDeclEq(a: ArrayLen, b: ArrayLen) {
    match (a, b)
    case (InferLen, InferLen) => true
    case (ExprLen(d), ExprLen(e)) => ExprDeclEq(d, e)
    case _ => false
  }

  /** Expressions are compared by their identities. */
  predicate ExprDeclEq(a: Expr, b: Expr) {
    ExprIdentity(a) == ExprIdentity(b)
  }
}
