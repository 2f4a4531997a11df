/** The notation syntax identities are written in, and why it can be read in only one way. Strings are sequences of
    bytes. A term starts with a word and goes on with what follows the word: nothing, a colon or a parenthesis. */
module Terms {
  /** A raw 64-bit symbol identity. */
  type Symbol = n: nat | n < 0x1_0000_0000_0000_0000

  /** Delimiters end a word. */
  predicate Delimiter(c: char) {
    c == '(' || c == ')' || c == '[' || c == ']' || c == '|' || c == ',' || c == '=' || c == ':'
  }

  predicate Token(w: string) {
    w != "" && forall i | 0 <= i < |w| :: !Delimiter(w[i])
  }

  /** What may stand behind a term. */
  predicate Follow(r: string) {
    r == "" || r[0] in ",|)]="
  }

  /** What may stand behind a comma-separated list. */
  predicate ListEnd(r: string) {
    r != "" && r[0] in "|)]"
  }

  function HexDigit(d: nat): char
    requires d < 16
  {
    "0123456789abcdef"[d]
  }

  /** Lower-case hexadecimal, zero-padded to `width` digits. */
  function Hex(n: nat, width: nat): string {
    if width == 0 then "" else Hex(n / 16, width - 1) + [HexDigit(n % 16)]
  }

  function Decimal(n: nat): string {
    if n < 10 then [HexDigit(n)] else Decimal(n / 10) + [HexDigit(n % 10)]
  }

  function SymbolKey(raw: Symbol): string {
    "sym:" + Hex(raw, 16)
  }

  /** A text with its byte length, so that it may hold delimiters. */
  function Prefixed(text: string): string {
    Decimal(|text|) + ":" + text
  }

  datatype Term =
    | Word(word: string)
    | Sym(raw: Symbol)
    | Text(text: string)
    | Group(head: string, parts: seq<Part>)
    | Path(segments: seq<Segment>)

  /** Comma-separated terms between bars. */
  datatype Part = Part(terms: seq<Term>)

  datatype Segment = Segment(base: Base, args: seq<Arg>)

  datatype Base = Named(raw: Symbol) | Marker(word: string)

  datatype Arg =
    | TypeArg(ty: Term)
    | ConstArg(expr: Term)
    | TypeOrConst(ty: Term, expr: Term)
    | Assoc(key: Term, ty: Term)

  // Each of these writes its argument before the text `r`.

  function Put(t: Term, r: string): string
    decreases t, 0
  {
    Head(t) + PutTail(t, r)
  }

  function Head(t: Term): string {
    match t
    case Word(word) => word
    case Sym(_) => "sym"
    case Text(text) => Decimal(|text|)
    case Group(head, _) => head
    case Path(_) => "path"
  }

  function PutTail(t: Term, r: string): string
    decreases t, 0, 0
  {
    match t
    case Word(_) => r
    case Sym(raw) => ":" + (Hex(raw, 16) + r)
    case Text(text) => ":" + (text + r)
    case Group(_, parts) => "(" + PutParts(parts, ")" + r)
    case Path(segments) => "(" + PutSegments(segments, ")" + r)
  }

  function PutParts(parts: seq<Part>, r: string): string
    decreases parts, 1
  {
    if parts == [] then r
    else if |parts| == 1 then PutPart(parts[0], r)
    else PutPart(parts[0], "|" + PutParts(parts[1..], r))
  }

  function PutPart(part: Part, r: string): string
    decreases part, 1
  {
    PutTerms(part.terms, r)
  }

  function PutTerms(terms: seq<Term>, r: string): string
    decreases terms, 1
  {
    if terms == [] then r
    else Put(terms[0], AfterTerm(terms, r))
  }

  /** What stands behind the first of some terms. */
  function AfterTerm(terms: seq<Term>, r: string): string
    requires terms != []
    decreases terms, 0
  {
    if |terms| == 1 then r else "," + PutTerms(terms[1..], r)
  }

  function PutSegments(segments: seq<Segment>, r: string): string
    decreases segments, 1
  {
    if segments == [] then r
    else PutSegment(segments[0], AfterSegment(segments, r))
  }

  /** What stands behind the first of some segments. */
  function AfterSegment(segments: seq<Segment>, r: string): string
    requires segments != []
    decreases segments, 0
  {
    if |segments| == 1 then r else "," + PutSegments(segments[1..], r)
  }

  function PutSegment(segment: Segment, r: string): string
    decreases segment, 1
  {
    PutBase(segment.base, if segment.args == [] then r else "[" + PutArgs(segment.args, "]" + r))
  }

  function PutBase(base: Base, r: string): string {
    match base
    case Named(raw) => "sym" + (":" + (Hex(raw, 16) + r))
    case Marker(word) => word + r
  }

  function PutArgs(args: seq<Arg>, r: string): string
    decreases args, 1
  {
    if args == [] then r
    else PutArg(args[0], AfterArg(args, r))
  }

  /** What stands behind the first of some arguments. */
  function AfterArg(args: seq<Arg>, r: string): string
    requires args != []
    decreases args, 0
  {
    if |args| == 1 then r else "," + PutArgs(args[1..], r)
  }

  function PutArg(arg: Arg, r: string): string
    decreases arg, 1
  {
    ArgHead(arg) + (":" + PutArgTail(arg, r))
  }

  function ArgHead(a: Arg): string {
    match a
    case TypeArg(_) => "type"
    case ConstArg(_) => "const_eval"
    case TypeOrConst(_, _) => "type_or_const"
    case Assoc(_, _) => "assoc"
  }

  function PutArgTail(arg: Arg, r: string): string
    decreases arg, 0
  {
    match arg
    case TypeArg(ty) => Put(ty, r)
    case ConstArg(expr) => Put(expr, r)
    case TypeOrConst(ty, expr) => Put(ty, "|" + Put(expr, r))
    case Assoc(key, ty) => Put(key, "=" + Put(ty, r))
  }

  /** Words are words, a group has a part at least, and only paths are called `path`. */
  predicate WellFormed(t: Term)
    decreases t, 0
  {
    match t
    case Word(word) => Token(word)
    case Group(head, parts) =>
      && Token(head) && head != "path" && parts != []
      && forall i | 0 <= i < |parts| :: WellFormedPart(parts[i])
    case Path(segments) => forall i | 0 <= i < |segments| :: WellFormedSegment(segments[i])
    case _ => true
  }

  predicate WellFormedPart(part: Part)
    decreases part, 1
  {
    forall i | 0 <= i < |part.terms| :: WellFormed(part.terms[i])
  }

  predicate WellFormedSegment(segment: Segment)
    decreases segment, 1
  {
    && (segment.base.Marker? ==> Token(segment.base.word))
    && forall i | 0 <= i < |segment.args| :: WellFormedArg(segment.args[i])
  }

  predicate WellFormedArg(arg: Arg)
    decreases arg, 1
  {
    match arg
    case TypeArg(ty) => WellFormed(ty)
    case ConstArg(expr) => WellFormed(expr)
    case TypeOrConst(ty, expr) => WellFormed(ty) && WellFormed(expr)
    case Assoc(key, ty) => WellFormed(key) && WellFormed(ty)
  }

  // ---------------------------------------------------------------------------------------------------------------
  // Numbers and words.

  /** Where the first word of a text ends. */
  ghost function Stop(text: string): (k: nat)
    ensures k <= |text|
  {
    if text == "" || Delimiter(text[0]) then 0 else 1 + Stop(text[1..])
  }

  ghost predicate Closed(r: string) {
    r == "" || Delimiter(r[0])
  }

  lemma {:induction false} WordStops(w: string, r: string)
    requires (forall i | 0 <= i < |w| :: !Delimiter(w[i])) && Closed(r)
    ensures Stop(w + r) == |w|
  {
    if w == "" {
      assert w + r == r;
    } else {
      assert (w + r)[1..] == w[1..] + r;
      WordStops(w[1..], r);
    }
  }

  /** A word ends at the first delimiter. */
  lemma {:induction false} WordEnds(v: string, w: string, r: string, s: string)
    requires Token(v) && Token(w) && Closed(r) && Closed(s) && v + r == w + s
    ensures v == w && r == s
  {
    WordStops(v, r);
    WordStops(w, s);
    SameLength(v, w, r, s);
  }

  lemma {:induction false} SameStart(c: string, a: string, b: string)
    requires c + a == c + b
    ensures a == b
  {
    assert a == (c + a)[|c|..] && b == (c + b)[|c|..];
  }

  lemma {:induction false} SameLength(a: string, b: string, r: string, s: string)
    requires |a| == |b| && a + r == b + s
    ensures a == b && r == s
  {
    assert a == (a + r)[..|a|] && b == (b + s)[..|a|];
    assert r == (a + r)[|a|..] && s == (b + s)[|a|..];
  }

  lemma {:induction false} HexDigitIsWord(d: nat)
    requires d < 16
    ensures !Delimiter(HexDigit(d)) && HexDigit(d) != 's'
    ensures forall e: nat | e < 16 && HexDigit(e) == HexDigit(d) :: e == d
  {
  }

  lemma {:induction false} HexIsInjective(m: nat, n: nat, width: nat, bound: nat)
    requires m < bound && n < bound && bound == Power16(width)
    requires Hex(m, width) == Hex(n, width)
    ensures m == n
  {
    if width > 0 {
      var a, b := Hex(m / 16, width - 1), Hex(n / 16, width - 1);
      HexWidth(m / 16, width - 1);
      HexWidth(n / 16, width - 1);
      AppendedDigit(a, b, HexDigit(m % 16), HexDigit(n % 16));
      HexDigitIsWord(n % 16);
      HexIsInjective(m / 16, n / 16, width - 1, Power16(width - 1));
    }
  }

  ghost function Power16(width: nat): nat {
    if width == 0 then 1 else 16 * Power16(width - 1)
  }

  lemma {:induction false} HexWidth(n: nat, width: nat)
    ensures |Hex(n, width)| == width && forall i | 0 <= i < width :: !Delimiter(Hex(n, width)[i])
  {
    if width > 0 {
      HexWidth(n / 16, width - 1);
      HexDigitIsWord(n % 16);
    }
  }

  lemma {:induction false} AppendedDigit(a: string, b: string, c: char, d: char)
    requires a + [c] == b + [d]
    ensures a == b && c == d
  {
    assert |a| == |b|;
    assert c == (a + [c])[|a|] && d == (b + [d])[|a|];
    assert a == (a + [c])[..|a|] && b == (b + [d])[..|a|];
  }

  lemma {:induction false} DecimalIsWord(n: nat)
    ensures Token(Decimal(n)) && Decimal(n)[0] != 's'
  {
    HexDigitIsWord(n % 10);
    if n >= 10 {
      DecimalIsWord(n / 10);
    }
  }

  lemma {:induction false} DecimalIsInjective(m: nat, n: nat)
    requires Decimal(m) == Decimal(n)
    ensures m == n
  {
    DecimalIsWord(m / 10);
    DecimalIsWord(n / 10);
    if m < 10 && n < 10 {
      HexDigitIsWord(n);
    } else if m >= 10 && n >= 10 {
      AppendedDigit(Decimal(m / 10), Decimal(n / 10), HexDigit(m % 10), HexDigit(n % 10));
      HexDigitIsWord(n % 10);
      DecimalIsInjective(m / 10, n / 10);
    }
  }

  lemma {:induction false} SixtyFourBits()
    ensures Power16(16) == 0x1_0000_0000_0000_0000
  {
    assert Power16(4) == 0x1_0000;
    assert Power16(8) == 0x1_0000_0000;
    assert Power16(12) == 0x1_0000_0000_0000;
  }

  lemma {:induction false} SymbolEnds(m: Symbol, n: Symbol, r: string, s: string)
    requires Hex(m, 16) + r == Hex(n, 16) + s
    ensures m == n && r == s
  {
    HexWidth(m, 16);
    HexWidth(n, 16);
    SameLength(Hex(m, 16), Hex(n, 16), r, s);
    SixtyFourBits();
    HexIsInjective(m, n, 16, Power16(16));
  }

  // ---------------------------------------------------------------------------------------------------------------
  // Reading a term: its first word, then what follows it.

  lemma {:induction false} HeadIsWord(t: Term, r: string)
    requires WellFormed(t) && Follow(r)
    ensures Token(Head(t)) && Closed(PutTail(t, r))
  {
    if t.Text? {
      DecimalIsWord(|t.text|);
    }
  }

  /** Two terms that print alike before what may follow a term are the same term. */
  lemma {:induction false} ReadTerm(x: Term, y: Term, r: string, s: string)
    requires WellFormed(x) && WellFormed(y) && Follow(r) && Follow(s)
    requires Put(x, r) == Put(y, s)
    ensures x == y && r == s
    decreases x, 1
  {
    HeadIsWord(x, r);
    HeadIsWord(y, s);
    WordEnds(Head(x), Head(y), PutTail(x, r), PutTail(y, s));
    SameKind(x, y, r, s);
    ReadTail(x, y, r, s);
  }

  lemma {:induction false} ReadTail(x: Term, y: Term, r: string, s: string)
    requires WellFormed(x) && WellFormed(y) && Follow(r) && Follow(s)
    requires Head(x) == Head(y) && PutTail(x, r) == PutTail(y, s)
    requires x.Word? <==> y.Word?
    requires x.Sym? <==> y.Sym?
    requires x.Text? <==> y.Text?
    requires x.Group? <==> y.Group?
    ensures x == y && r == s
    decreases x, 0
  {
    match x
    case Word(_) =>
    case Sym(raw) =>
      SameStart(":", Hex(raw, 16) + r, Hex(y.raw, 16) + s);
      SymbolEnds(raw, y.raw, r, s);
    case Text(text) =>
      DecimalIsInjective(|text|, |y.text|);
      SameStart(":", text + r, y.text + s);
      SameLength(text, y.text, r, s);
    case Group(_, parts) =>
      SameStart("(", PutParts(parts, ")" + r), PutParts(y.parts, ")" + s));
      ReadParts(parts, y.parts, ")" + r, ")" + s);
      SameStart(")", r, s);
    case Path(segments) =>
      SameStart("(", PutSegments(segments, ")" + r), PutSegments(y.segments, ")" + s));
      ReadSegments(segments, y.segments, ")" + r, ")" + s);
      SameStart(")", r, s);
  }

  /** The character behind the first word: none of its own, a colon or a parenthesis. */
  ghost predicate Behind(t: Term, tail: string) {
    match t
    case Word(_) => Follow(tail)
    case Sym(_) => tail != "" && tail[0] == ':'
    case Text(_) => tail != "" && tail[0] == ':'
    case _ => tail != "" && tail[0] == '('
  }

  lemma {:induction false} TailIsBehind(t: Term, r: string)
    requires Follow(r)
    ensures Behind(t, PutTail(t, r))
  {
  }

  /** The first word and the character behind it tell the kind of a term. */
  lemma {:induction false} SameKind(x: Term, y: Term, r: string, s: string)
    requires WellFormed(x) && WellFormed(y) && Follow(r) && Follow(s)
    requires Head(x) == Head(y) && PutTail(x, r) == PutTail(y, s)
    ensures x.Word? <==> y.Word?
    ensures x.Sym? <==> y.Sym?
    ensures x.Text? <==> y.Text?
    ensures x.Group? <==> y.Group?
  {
    TailIsBehind(x, r);
    TailIsBehind(y, s);
    HeadTellsKind(x, y, PutTail(x, r));
  }

  lemma {:induction false} HeadTellsKind(x: Term, y: Term, tail: string)
    requires WellFormed(x) && WellFormed(y) && Head(x) == Head(y)
    requires Behind(x, tail) && Behind(y, tail)
    ensures x.Word? <==> y.Word?
    ensures x.Sym? <==> y.Sym?
    ensures x.Text? <==> y.Text?
    ensures x.Group? <==> y.Group?
  {
    assert "sym"[0] == 's';
    if x.Text? {
      DecimalIsWord(|x.text|);
    }
    if y.Text? {
      DecimalIsWord(|y.text|);
    }
  }

  lemma {:induction false} ReadParts(ps: seq<Part>, qs: seq<Part>, r: string, s: string)
    requires ps != [] && forall i | 0 <= i < |ps| :: WellFormedPart(ps[i])
    requires qs != [] && forall i | 0 <= i < |qs| :: WellFormedPart(qs[i])
    requires r != "" && r[0] == ')' && s != "" && s[0] == ')'
    requires PutParts(ps, r) == PutParts(qs, s)
    ensures ps == qs && r == s
    decreases ps, 1
  {
    var restP := if |ps| == 1 then r else "|" + PutParts(ps[1..], r);
    var restQ := if |qs| == 1 then s else "|" + PutParts(qs[1..], s);
    ReadPart(ps[0], qs[0], restP, restQ);
    assert restP[0] == if |ps| == 1 then ')' else '|';
    assert restQ[0] == if |qs| == 1 then ')' else '|';
    if |ps| > 1 {
      SameStart("|", PutParts(ps[1..], r), PutParts(qs[1..], s));
      ReadParts(ps[1..], qs[1..], r, s);
      assert ps == [ps[0]] + ps[1..] && qs == [qs[0]] + qs[1..];
    }
  }

  lemma {:induction false} ReadPart(p: Part, q: Part, r: string, s: string)
    requires WellFormedPart(p) && WellFormedPart(q) && ListEnd(r) && ListEnd(s)
    requires PutPart(p, r) == PutPart(q, s)
    ensures p == q && r == s
    decreases p, 1
  {
    ReadTerms(p.terms, q.terms, r, s);
  }

  lemma {:induction false} ReadTerms(xs: seq<Term>, ys: seq<Term>, r: string, s: string)
    requires forall i | 0 <= i < |xs| :: WellFormed(xs[i])
    requires forall i | 0 <= i < |ys| :: WellFormed(ys[i])
    requires ListEnd(r) && ListEnd(s)
    requires PutTerms(xs, r) == PutTerms(ys, s)
    ensures xs == ys && r == s
    decreases xs, 1
  {
    TermsStart(xs, r);
    TermsStart(ys, s);
    if xs != [] {
      ReadTerm(xs[0], ys[0], AfterTerm(xs, r), AfterTerm(ys, s));
      ReadMoreTerms(xs, ys, r, s);
    }
  }

  lemma {:induction false} ReadMoreTerms(xs: seq<Term>, ys: seq<Term>, r: string, s: string)
    requires xs != [] && forall i | 0 <= i < |xs| :: WellFormed(xs[i])
    requires ys != [] && forall i | 0 <= i < |ys| :: WellFormed(ys[i])
    requires ListEnd(r) && ListEnd(s)
    requires xs[0] == ys[0] && AfterTerm(xs, r) == AfterTerm(ys, s)
    ensures xs == ys && r == s
    decreases xs, 0
  {
    assert AfterTerm(xs, r)[0] == ',' <==> |xs| > 1;
    assert AfterTerm(ys, s)[0] == ',' <==> |ys| > 1;
    if |xs| > 1 {
      SameStart(",", PutTerms(xs[1..], r), PutTerms(ys[1..], s));
      ReadTerms(xs[1..], ys[1..], r, s);
      assert xs == [xs[0]] + xs[1..] && ys == [ys[0]] + ys[1..];
    }
  }

  /** A list is empty exactly when its end comes first. */
  lemma {:induction false} TermsStart(xs: seq<Term>, r: string)
    requires ListEnd(r) && forall i | 0 <= i < |xs| :: WellFormed(xs[i])
    ensures PutTerms(xs, r) != "" && (xs == [] <==> Delimiter(PutTerms(xs, r)[0]))
  {
    if xs != [] {
      HeadIsWord(xs[0], "");
    }
  }

  lemma {:induction false} ReadSegments(xs: seq<Segment>, ys: seq<Segment>, r: string, s: string)
    requires forall i | 0 <= i < |xs| :: WellFormedSegment(xs[i])
    requires forall i | 0 <= i < |ys| :: WellFormedSegment(ys[i])
    requires r != "" && r[0] == ')' && s != "" && s[0] == ')'
    requires PutSegments(xs, r) == PutSegments(ys, s)
    ensures xs == ys && r == s
    decreases xs, 1
  {
    SegmentsStart(xs, r);
    SegmentsStart(ys, s);
    if xs != [] {
      ReadSegment(xs[0], ys[0], AfterSegment(xs, r), AfterSegment(ys, s));
      ReadMoreSegments(xs, ys, r, s);
    }
  }

  lemma {:induction false} ReadMoreSegments(xs: seq<Segment>, ys: seq<Segment>, r: string, s: string)
    requires xs != [] && forall i | 0 <= i < |xs| :: WellFormedSegment(xs[i])
    requires ys != [] && forall i | 0 <= i < |ys| :: WellFormedSegment(ys[i])
    requires r != "" && r[0] == ')' && s != "" && s[0] == ')'
    requires xs[0] == ys[0] && AfterSegment(xs, r) == AfterSegment(ys, s)
    ensures xs == ys && r == s
    decreases xs, 0
  {
    assert AfterSegment(xs, r)[0] == ',' <==> |xs| > 1;
    assert AfterSegment(ys, s)[0] == ',' <==> |ys| > 1;
    if |xs| > 1 {
      SameStart(",", PutSegments(xs[1..], r), PutSegments(ys[1..], s));
      ReadSegments(xs[1..], ys[1..], r, s);
      assert xs == [xs[0]] + xs[1..] && ys == [ys[0]] + ys[1..];
    }
  }

  lemma {:induction false} SegmentsStart(xs: seq<Segment>, r: string)
    requires r != "" && r[0] == ')' && forall i | 0 <= i < |xs| :: WellFormedSegment(xs[i])
    ensures PutSegments(xs, r) != "" && (xs == [] <==> Delimiter(PutSegments(xs, r)[0]))
  {
  }

  lemma {:induction false} ReadBase(a: Base, b: Base, r: string, s: string)
    requires a.Marker? ==> Token(a.word)
    requires b.Marker? ==> Token(b.word)
    requires (r == "" || r[0] in "[,|)]=") && (s == "" || s[0] in "[,|)]=")
    requires PutBase(a, r) == PutBase(b, s)
    ensures a == b && r == s
  {
    var headA, restA := if a.Named? then "sym" else a.word, if a.Named? then ":" + (Hex(a.raw, 16) + r) else r;
    var headB, restB := if b.Named? then "sym" else b.word, if b.Named? then ":" + (Hex(b.raw, 16) + s) else s;
    WordEnds(headA, headB, restA, restB);
    if a.Named? {
      SameStart(":", Hex(a.raw, 16) + r, Hex(b.raw, 16) + s);
      SymbolEnds(a.raw, b.raw, r, s);
    }
  }

  lemma {:induction false} ReadSegment(a: Segment, b: Segment, r: string, s: string)
    requires WellFormedSegment(a) && WellFormedSegment(b) && r != "" && s != "" && r[0] in ",)" && s[0] in ",)"
    requires PutSegment(a, r) == PutSegment(b, s)
    ensures a == b && r == s
    decreases a, 1
  {
    var restA := if a.args == [] then r else "[" + PutArgs(a.args, "]" + r);
    var restB := if b.args == [] then s else "[" + PutArgs(b.args, "]" + s);
    ReadBase(a.base, b.base, restA, restB);
    assert restA[0] == '[' <==> a.args != [];
    assert restB[0] == '[' <==> b.args != [];
    if a.args != [] {
      SameStart("[", PutArgs(a.args, "]" + r), PutArgs(b.args, "]" + s));
      ReadArgs(a.args, b.args, "]" + r, "]" + s);
      SameStart("]", r, s);
    }
  }

  lemma {:induction false} ReadArgs(xs: seq<Arg>, ys: seq<Arg>, r: string, s: string)
    requires xs != [] && forall i | 0 <= i < |xs| :: WellFormedArg(xs[i])
    requires ys != [] && forall i | 0 <= i < |ys| :: WellFormedArg(ys[i])
    requires r != "" && s != "" && r[0] == ']' && s[0] == ']'
    requires PutArgs(xs, r) == PutArgs(ys, s)
    ensures xs == ys && r == s
    decreases xs, 1
  {
    ReadArg(xs[0], ys[0], AfterArg(xs, r), AfterArg(ys, s));
    ReadMoreArgs(xs, ys, r, s);
  }

  lemma {:induction false} ReadMoreArgs(xs: seq<Arg>, ys: seq<Arg>, r: string, s: string)
    requires xs != [] && forall i | 0 <= i < |xs| :: WellFormedArg(xs[i])
    requires ys != [] && forall i | 0 <= i < |ys| :: WellFormedArg(ys[i])
    requires r != "" && s != "" && r[0] == ']' && s[0] == ']'
    requires xs[0] == ys[0] && AfterArg(xs, r) == AfterArg(ys, s)
    ensures xs == ys && r == s
    decreases xs, 0
  {
    assert AfterArg(xs, r)[0] == ',' <==> |xs| > 1;
    assert AfterArg(ys, s)[0] == ',' <==> |ys| > 1;
    if |xs| > 1 {
      SameStart(",", PutArgs(xs[1..], r), PutArgs(ys[1..], s));
      ReadArgs(xs[1..], ys[1..], r, s);
      assert xs == [xs[0]] + xs[1..] && ys == [ys[0]] + ys[1..];
    }
  }

  lemma {:induction false} SameArgKind(a: Arg, b: Arg)
    requires ArgHead(a) == ArgHead(b)
    ensures a.TypeArg? <==> b.TypeArg?
    ensures a.ConstArg? <==> b.ConstArg?
    ensures a.TypeOrConst? <==> b.TypeOrConst?
  {
    assert |"type"| == 4 && |"const_eval"| == 10 && |"type_or_const"| == 13 && |"assoc"| == 5;
  }

  lemma {:induction false} ArgHeadIsWord(a: Arg)
    ensures Token(ArgHead(a))
  {
  }

  lemma {:induction false} ReadArg(a: Arg, b: Arg, r: string, s: string)
    requires WellFormedArg(a) && WellFormedArg(b) && Follow(r) && Follow(s)
    requires PutArg(a, r) == PutArg(b, s)
    ensures a == b && r == s
    decreases a, 1
  {
    ArgHeadIsWord(a);
    ArgHeadIsWord(b);
    WordEnds(ArgHead(a), ArgHead(b), ":" + PutArgTail(a, r), ":" + PutArgTail(b, s));
    SameStart(":", PutArgTail(a, r), PutArgTail(b, s));
    SameArgKind(a, b);
    ReadArgTail(a, b, r, s);
  }

  lemma {:induction false} ReadArgTail(a: Arg, b: Arg, r: string, s: string)
    requires WellFormedArg(a) && WellFormedArg(b) && Follow(r) && Follow(s)
    requires a.TypeArg? <==> b.TypeArg?
    requires a.ConstArg? <==> b.ConstArg?
    requires a.TypeOrConst? <==> b.TypeOrConst?
    requires PutArgTail(a, r) == PutArgTail(b, s)
    ensures a == b && r == s
    decreases a, 0
  {
    match a
    case TypeArg(ty) => ReadTerm(ty, b.ty, r, s);
    case ConstArg(expr) => ReadTerm(expr, b.expr, r, s);
    case TypeOrConst(ty, expr) =>
      ReadTerm(ty, b.ty, "|" + Put(expr, r), "|" + Put(b.expr, s));
      SameStart("|", Put(expr, r), Put(b.expr, s));
      ReadTerm(expr, b.expr, r, s);
    case Assoc(key, ty) =>
      ReadTerm(key, b.key, "=" + Put(ty, r), "=" + Put(b.ty, s));
      SameStart("=", Put(ty, r), Put(b.ty, s));
      ReadTerm(ty, b.ty, r, s);
  }

  function Print(t: Term): string {
    Put(t, "")
  }

  /** Unique readability: well-formed terms print alike if and only if they are equal. */
  lemma {:induction false} PrintIsInjective(x: Term, y: Term)
    requires WellFormed(x) && WellFormed(y)
    ensures Print(x) == Print(y) <==> x == y
  {
    if Print(x) == Print(y) {
      ReadTerm(x, y, "", "");
    }
  }
}
