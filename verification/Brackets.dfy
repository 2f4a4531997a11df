/** Identities of bracket suffixes, whose arguments are an expression, a type or both until names are resolved: an
    expression and a type can print alike, and this says which. */
module Brackets {
  import opened Options
  import opened T = Terms
  import opened Syntax
  import opened Identity

  /** The readings of one argument that its syntax allows. */
  datatype BracketArg = BracketArg(expr: Option<Expr>, ty: Option<TypeRef>)

  datatype Suffix = Suffix(callee: Expr, args: seq<BracketArg>)

  function ArgParts(a: BracketArg): seq<Part> {
    match (a.expr, a.ty)
    case (Some(expr), None) => [Part([ExprTerm(expr)])]
    case (None, Some(ty)) => [Part([TypeTerm(ty)])]
    case (Some(expr), Some(ty)) => [Part([ExprTerm(expr)]), Part([TypeTerm(ty)])]
    case (None, None) => [Part([Word("empty")])]
  }

  function BracketTerm(a: BracketArg): Term {
    Group("arg", ArgParts(a))
  }

  function BracketTerms(args: seq<BracketArg>): seq<Term> {
    seq(|args|, i requires 0 <= i < |args| => BracketTerm(args[i]))
  }

  function SuffixTerm(s: Suffix): Term {
    Group("bracket", [Part([ExprTerm(s.callee)]), Part(BracketTerms(s.args))])
  }

  function SuffixIdentity(s: Suffix): string {
    Print(SuffixTerm(s))
  }

  /** Both are errors, or tuples of the same length whose elements are alike in turn. */
  predicate Alike(e: Expr, t: TypeRef)
    decreases e
  {
    match (e, t.kind)
    case (ErrorExpr, Error) => true
    case (TupleExpr(es), Tuple(ts)) => |es| == |ts| && forall i | 0 <= i < |es| :: Alike(es[i], ts[i])
    case _ => false
  }

  /** The same readings, or an expression and a type that are alike. */
  predicate SameArg(a: BracketArg, b: BracketArg) {
    match (a.expr, a.ty, b.expr, b.ty)
    case (Some(d), None, Some(e), None) => SameExpr(d, e)
    case (None, Some(s), None, Some(t)) => TypeRefDeclEq(s, t)
    case (Some(d), Some(s), Some(e), Some(t)) => SameExpr(d, e) && TypeRefDeclEq(s, t)
    case (None, None, None, None) => true
    case (Some(e), None, None, Some(t)) => Alike(e, t)
    case (None, Some(t), Some(e), None) => Alike(e, t)
    case _ => false
  }

  predicate SameSuffix(s: Suffix, t: Suffix) {
    && SameExpr(s.callee, t.callee)
    && |s.args| == |t.args|
    && forall i | 0 <= i < |s.args| :: SameArg(s.args[i], t.args[i])
  }

  // ---------------------------------------------------------------------------------------------------------------
  // Expressions and types share two keywords.

  lemma {:induction false} SharedWords(e: ExprTag, t: TypeTag)
    ensures ExprWord(e) == TypeWord(t) <==> (e == EError && t == TError) || (e == ETuple && t == TTuple)
  {
    if ExprWord(e) == TypeWord(t) {
      var w := ExprWord(e);
      ExprWords(e);
      TypeWords(t);
      assert e == ExprTagBy(|w|, w[0], w[|w| - 1]) && t == TypeTagBy(|w|, w[0], w[|w| - 1]);
      if |w| <= 4 {
        ShortWordsDiffer(e, t);
      } else if |w| == 5 {
        FiveLetterWords(e, t);
      } else {
        LongWordsDiffer(e, t);
      }
    }
  }

  lemma {:induction false} ShortWordsDiffer(e: ExprTag, t: TypeTag)
    requires |ExprWord(e)| == |TypeWord(t)| <= 4
    ensures ExprWord(e) != TypeWord(t)
  {
    assert ExprWord(e)[0] != TypeWord(t)[0] || ExprWord(e)[1] != TypeWord(t)[1];
  }

  lemma {:induction false} FiveLetterWords(e: ExprTag, t: TypeTag)
    requires |ExprWord(e)| == |TypeWord(t)| == 5 && ExprWord(e) == TypeWord(t)
    ensures (e == EError && t == TError) || (e == ETuple && t == TTuple)
  {
    var w := TypeWord(t);
    assert ExprWord(e)[0] == w[0] && ExprWord(e)[1] == w[1];
  }

  lemma {:induction false} LongWordsDiffer(e: ExprTag, t: TypeTag)
    requires |ExprWord(e)| == |TypeWord(t)| > 5
    ensures ExprWord(e) != TypeWord(t)
  {
    assert ExprWord(e)[0] != TypeWord(t)[0];
  }

  /** A term that is both of an expression and of a type is of an error or a tuple. */
  lemma {:induction false} SharedTag(e: Expr, t: TypeRef)
    requires ExprTerm(e) == TypeTerm(t)
    ensures (e.ErrorExpr? && t.kind.Error?) || (e.TupleExpr? && t.kind.Tuple?)
  {
    ExprTermShape(e);
    KindTermShape(t.kind);
    SharedWords(ExprTagOf(e), TypeTagOf(t.kind));
  }

  lemma {:induction false} TupleTerms(x: seq<Term>, y: seq<Term>)
    ensures Group("tuple", [Part(x)]) == Group("tuple", [Part(y)]) <==> x == y
  {
    assert [Part(x)] == [Part(y)] ==> [Part(x)][0] == [Part(y)][0];
  }

  lemma {:induction false} TermIffAlike(e: Expr, t: TypeRef)
    ensures ExprTerm(e) == TypeTerm(t) <==> Alike(e, t)
    decreases e
  {
    if e.TupleExpr? && t.kind.Tuple? {
      var x, y := ExprTerms(e.elems), TypeTerms(t.kind.elems);
      if |x| == |y| {
        forall i | 0 <= i < |x| ensures x[i] == y[i] <==> Alike(e.elems[i], t.kind.elems[i]) {
          TermIffAlike(e.elems[i], t.kind.elems[i]);
        }
      }
      assert x == y <==> Alike(e, t);
      TupleTerms(x, y);
      assert KindTerm(t.kind) == Group(TypeWord(TTuple), KindParts(t.kind));
      assert ExprTerm(e) == Group("tuple", [Part(x)]) && TypeTerm(t) == Group("tuple", [Part(y)]);
    } else if ExprTerm(e) == TypeTerm(t) {
      SharedTag(e, t);
    }
  }

  // ---------------------------------------------------------------------------------------------------------------
  // Arguments and suffixes.

  lemma {:induction false} NotEmptyWord(e: Expr, t: TypeRef)
    ensures ExprTerm(e) != Word("empty") && TypeTerm(t) != Word("empty")
  {
    ExprTermShape(e);
    KindTermShape(t.kind);
    if ExprTerm(e).Word? {
      assert ExprTerm(e).word[0] in "etfns_" && |"empty"| == 5 && "empty"[1] == 'm';
    }
    if TypeTerm(t).Word? {
      assert TypeTerm(t).word[0] in "esoni" && "empty"[1] == 'm';
    }
  }

  lemma {:induction false} PartsIffSameArg(a: BracketArg, b: BracketArg)
    ensures ArgParts(a) == ArgParts(b) <==> SameArg(a, b)
  {
    match (a.expr, a.ty, b.expr, b.ty)
    case (Some(d), None, Some(e), None) =>
      TermIffSameExpr(d, e);
      SameOne(ExprTerm(d), ExprTerm(e));
    case (None, Some(s), None, Some(t)) =>
      TypeIffDeclEq(s, t);
      SameOne(TypeTerm(s), TypeTerm(t));
    case (Some(d), Some(s), Some(e), Some(t)) =>
      TermIffSameExpr(d, e);
      TypeIffDeclEq(s, t);
      SameSingle(ExprTerm(d), ExprTerm(e));
      SameSingle(TypeTerm(s), TypeTerm(t));
      SameTwo([ExprTerm(d)], [TypeTerm(s)], [ExprTerm(e)], [TypeTerm(t)]);
    case (Some(e), None, None, Some(t)) =>
      TermIffAlike(e, t);
      SameOne(ExprTerm(e), TypeTerm(t));
    case (None, Some(t), Some(e), None) =>
      TermIffAlike(e, t);
      SameOne(TypeTerm(t), ExprTerm(e));
    case (None, None, None, None) =>
    case _ => DifferentShapes(a, b);
  }

  /** An argument with no reading, one reading or two is told by its parts. */
  lemma {:induction false} DifferentShapes(a: BracketArg, b: BracketArg)
    requires Readings(a) != Readings(b)
    ensures ArgParts(a) != ArgParts(b)
  {
    SingleReading(a);
    SingleReading(b);
    if |ArgParts(a)| == |ArgParts(b)| {
      assert ArgParts(a)[0].terms[0] != ArgParts(b)[0].terms[0];
    }
  }

  function Readings(a: BracketArg): nat {
    (if a.expr.Some? then 1 else 0) + if a.ty.Some? then 1 else 0
  }

  lemma {:induction false} SingleReading(a: BracketArg)
    ensures Readings(a) == 1 ==> ArgParts(a)[0].terms[0] != Word("empty")
    ensures Readings(a) == 0 ==> ArgParts(a)[0].terms[0] == Word("empty")
    ensures |ArgParts(a)| == if Readings(a) == 2 then 2 else 1
    ensures forall i | 0 <= i < |ArgParts(a)| :: |ArgParts(a)[i].terms| == 1
  {
    var e := if a.expr.Some? then a.expr.value else ErrorExpr;
    var t := if a.ty.Some? then a.ty.value else TypeRef(0, "", Error);
    NotEmptyWord(e, t);
  }

  lemma {:induction false} ArgsIffSame(s: seq<BracketArg>, t: seq<BracketArg>)
    ensures BracketTerms(s) == BracketTerms(t) <==>
      |s| == |t| && forall i | 0 <= i < |s| :: SameArg(s[i], t[i])
  {
    var x, y := BracketTerms(s), BracketTerms(t);
    if |s| == |t| {
      forall i | 0 <= i < |s| ensures x[i] == y[i] <==> SameArg(s[i], t[i]) {
        PartsIffSameArg(s[i], t[i]);
      }
    }
  }

  lemma {:induction false} ArgIsWellFormed(a: BracketArg)
    ensures WellFormed(BracketTerm(a))
  {
    if a.expr.Some? {
      ExprIsWellFormed(a.expr.value);
    }
    if a.ty.Some? {
      TypeIsWellFormed(a.ty.value);
    }
  }

  lemma {:induction false} SuffixIsWellFormed(s: Suffix)
    ensures WellFormed(SuffixTerm(s))
  {
    ExprIsWellFormed(s.callee);
    forall i | 0 <= i < |s.args| ensures WellFormed(BracketTerms(s.args)[i]) {
      ArgIsWellFormed(s.args[i]);
    }
    assert WellFormedPart(Part([ExprTerm(s.callee)])) && WellFormedPart(Part(BracketTerms(s.args)));
  }

  /** Two suffixes have the same identity if and only if their arguments are the same in turn, where an expression and a
      type are the same if both are the same nesting of tuples around errors. */
  lemma {:induction false} IdentityIffSameSuffix(s: Suffix, t: Suffix)
    ensures SuffixIdentity(s) == SuffixIdentity(t) <==> SameSuffix(s, t)
  {
    SuffixIsWellFormed(s);
    SuffixIsWellFormed(t);
    PrintIsInjective(SuffixTerm(s), SuffixTerm(t));
    TermIffSameExpr(s.callee, t.callee);
    ArgsIffSame(s.args, t.args);
    SameSingle(ExprTerm(s.callee), ExprTerm(t.callee));
    SameTwo([ExprTerm(s.callee)], BracketTerms(s.args), [ExprTerm(t.callee)], BracketTerms(t.args));
  }

  /** So the empty tuple as a value and as a type print alike. */
  lemma {:induction false} UnitReadingsPrintAlike(callee: Expr, span: nat, text: string)
    ensures
      var value, ty := BracketArg(Some(TupleExpr([])), None), BracketArg(None, Some(TypeRef(span, text, Tuple([]))));
      value != ty && SuffixIdentity(Suffix(callee, [value])) == SuffixIdentity(Suffix(callee, [ty]))
  {
    var value, ty := BracketArg(Some(TupleExpr([])), None), BracketArg(None, Some(TypeRef(span, text, Tuple([]))));
    IdentityIffSameSuffix(Suffix(callee, [value]), Suffix(callee, [ty]));
    TermIffSameExpr(callee, callee);
    assert Alike(TupleExpr([]), ty.ty.value);
  }
}
