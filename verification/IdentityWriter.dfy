/** The writers that append identities to a buffer. */
module IdentityWriter {
  import opened Terms
  import opened Syntax

  // ---------------------------------------------------------------------------------------------------------------
  // Writing before a text is writing, then the text.

  lemma {:induction false} PutThen(t: Term, r: string)
    ensures Put(t, r) == Put(t, "") + r
    decreases t, 1
  {
    TailThen(t, r);
    Glue(Head(t), PutTail(t, ""), r);
  }

  lemma {:induction false} Glue(a: string, b: string, c: string)
    ensures a + (b + c) == a + b + c
  {
  }

  lemma {:induction false} TailThen(t: Term, r: string)
    ensures PutTail(t, r) == PutTail(t, "") + r
    decreases t, 0
  {
    match t
    case Word(_) =>
    case Sym(raw) =>
      assert Hex(raw, 16) + "" == Hex(raw, 16);
      Glue(":", Hex(raw, 16), r);
    case Text(text) =>
      assert text + "" == text;
      Glue(":", text, r);
    case Group(_, parts) =>
      PartsThen(parts, ")" + r);
      PartsThen(parts, ")" + "");
      Closing(PutParts(parts, ""), r);
    case Path(segments) =>
      SegmentsThen(segments, ")" + r);
      SegmentsThen(segments, ")" + "");
      Closing(PutSegments(segments, ""), r);
  }

  lemma {:induction false} Closing(p: string, r: string)
    ensures "(" + (p + (")" + r)) == "(" + (p + (")" + "")) + r
  {
  }

  lemma {:induction false} PartsThen(parts: seq<Part>, r: string)
    ensures PutParts(parts, r) == PutParts(parts, "") + r
    decreases parts, 1
  {
    if parts != [] {
      PartThen(parts[0], r);
      if |parts| > 1 {
        var rest := PutParts(parts[1..], "");
        PartsThen(parts[1..], r);
        PartThen(parts[0], "|" + (rest + r));
        PartThen(parts[0], "|" + rest);
        Spread(PutPart(parts[0], ""), "|", rest, r);
      }
    }
  }

  lemma {:induction false} Spread(a: string, c: string, b: string, r: string)
    ensures a + (c + (b + r)) == a + (c + b) + r
  {
  }

  lemma {:induction false} PartThen(part: Part, r: string)
    ensures PutPart(part, r) == PutPart(part, "") + r
    decreases part, 1
  {
    TermsThen(part.terms, r);
  }

  lemma {:induction false} TermsThen(terms: seq<Term>, r: string)
    ensures PutTerms(terms, r) == PutTerms(terms, "") + r
    decreases terms, 1
  {
    if terms != [] {
      PutThen(terms[0], r);
      if |terms| > 1 {
        var rest := PutTerms(terms[1..], "");
        TermsThen(terms[1..], r);
        PutThen(terms[0], "," + (rest + r));
        PutThen(terms[0], "," + rest);
        Spread(Put(terms[0], ""), ",", rest, r);
      }
    }
  }

  lemma {:induction false} SegmentsThen(segments: seq<Segment>, r: string)
    ensures PutSegments(segments, r) == PutSegments(segments, "") + r
    decreases segments, 1
  {
    if segments != [] {
      SegmentThen(segments[0], r);
      if |segments| > 1 {
        var rest := PutSegments(segments[1..], "");
        SegmentsThen(segments[1..], r);
        SegmentThen(segments[0], "," + (rest + r));
        SegmentThen(segments[0], "," + rest);
        Spread(PutSegment(segments[0], ""), ",", rest, r);
      }
    }
  }

  lemma {:induction false} BaseThen(base: Base, r: string)
    ensures PutBase(base, r) == PutBase(base, "") + r
  {
    if base.Named? {
      assert Hex(base.raw, 16) + "" == Hex(base.raw, 16);
      Spread("sym", ":", Hex(base.raw, 16), r);
    } else {
      assert base.word + "" == base.word;
    }
  }

  lemma {:induction false} SegmentThen(segment: Segment, r: string)
    ensures PutSegment(segment, r) == PutSegment(segment, "") + r
    decreases segment, 1
  {
    BaseThen(segment.base, r);
    if segment.args != [] {
      var args := PutArgs(segment.args, "");
      ArgsThen(segment.args, "]" + r);
      ArgsThen(segment.args, "]" + "");
      BaseThen(segment.base, "[" + (args + ("]" + r)));
      BaseThen(segment.base, "[" + (args + ("]" + "")));
      Bracketed(PutBase(segment.base, ""), args, r);
    }
  }

  lemma {:induction false} Bracketed(b: string, args: string, r: string)
    ensures b + ("[" + (args + ("]" + r))) == b + ("[" + (args + ("]" + ""))) + r
  {
  }

  lemma {:induction false} ArgsThen(args: seq<Arg>, r: string)
    ensures PutArgs(args, r) == PutArgs(args, "") + r
    decreases args, 1
  {
    if args != [] {
      ArgThen(args[0], r);
      if |args| > 1 {
        var rest := PutArgs(args[1..], "");
        ArgsThen(args[1..], r);
        ArgThen(args[0], "," + (rest + r));
        ArgThen(args[0], "," + rest);
        Spread(PutArg(args[0], ""), ",", rest, r);
      }
    }
  }

  lemma {:induction false} ArgThen(arg: Arg, r: string)
    ensures PutArg(arg, r) == PutArg(arg, "") + r
    decreases arg, 1
  {
    ArgTailThen(arg, r);
    Spread(ArgHead(arg), ":", PutArgTail(arg, ""), r);
  }

  lemma {:induction false} ArgTailThen(arg: Arg, r: string)
    ensures PutArgTail(arg, r) == PutArgTail(arg, "") + r
    decreases arg, 0
  {
    match arg
    case TypeArg(ty) => PutThen(ty, r);
    case ConstArg(expr) => PutThen(expr, r);
    case TypeOrConst(ty, expr) =>
      PutThen(expr, r);
      PutThen(ty, "|" + (Put(expr, "") + r));
      PutThen(ty, "|" + Put(expr, ""));
      Spread(Put(ty, ""), "|", Put(expr, ""), r);
    case Assoc(key, ty) =>
      PutThen(ty, r);
      PutThen(key, "=" + (Put(ty, "") + r));
      PutThen(key, "=" + Put(ty, ""));
      Spread(Put(key, ""), "=", Put(ty, ""), r);
  }

  // ---------------------------------------------------------------------------------------------------------------
  // The writers.

  method WriteTerm(out: string, t: Term) returns (buffer: string)
    ensures buffer == out + Print(t)
    decreases t, 0
  {
    match t
    case Word(word) =>
      buffer := out + word;
      assert PutTail(t, "") == "" && word + "" == word;
    case Sym(raw) =>
      buffer := out + SymbolKey(raw);
      assert PutTail(t, "") == ":" + (Hex(raw, 16) + "");
      assert "sym" + (":" + (Hex(raw, 16) + "")) == SymbolKey(raw);
    case Text(text) =>
      buffer := out + Prefixed(text);
      assert PutTail(t, "") == ":" + (text + "");
      assert Decimal(|text|) + (":" + (text + "")) == Prefixed(text);
    case Group(head, parts) =>
      buffer := out + head + "(";
      buffer := WriteParts(buffer, parts);
      buffer := buffer + ")";
      PartsThen(parts, ")" + "");
      assert PutTail(t, "") == "(" + PutParts(parts, ")" + "");
      Wrapped(out, head, PutParts(parts, ""));
    case Path(segments) =>
      buffer := out + "path" + "(";
      buffer := WriteSegments(buffer, segments);
      buffer := buffer + ")";
      SegmentsThen(segments, ")" + "");
      assert PutTail(t, "") == "(" + PutSegments(segments, ")" + "");
      Wrapped(out, "path", PutSegments(segments, ""));
  }

  lemma {:induction false} Wrapped(out: string, head: string, inner: string)
    ensures out + head + "(" + inner + ")" == out + (head + ("(" + (inner + (")" + ""))))
  {
  }

  method WriteParts(out: string, parts: seq<Part>) returns (buffer: string)
    ensures buffer == out + PutParts(parts, "")
    decreases parts, 1
  {
    buffer := out;
    for i := 0 to |parts|
      invariant buffer + LeftParts(parts, i) == out + PutParts(parts, "")
    {
      PartStep(parts, i, buffer);
      buffer := buffer + (if i > 0 then "|" else "");
      buffer := WritePart(buffer, parts[i]);
    }
  }

  ghost function LeftParts(parts: seq<Part>, i: nat): string
    requires i <= |parts|
  {
    if i == |parts| then "" else (if i > 0 then "|" else "") + PutParts(parts[i..], "")
  }

  lemma {:induction false} PartStep(parts: seq<Part>, i: nat, buffer: string)
    requires i < |parts|
    ensures buffer + LeftParts(parts, i) ==
      buffer + (if i > 0 then "|" else "") + PutPart(parts[i], "") + LeftParts(parts, i + 1)
  {
    assert parts[i..][1..] == parts[i + 1..];
    PartThen(parts[i], LeftParts(parts, i + 1));
    assert PutParts(parts[i..], "") == PutPart(parts[i], LeftParts(parts, i + 1));
    Regroup(buffer, if i > 0 then "|" else "", PutPart(parts[i], ""), LeftParts(parts, i + 1));
  }

  lemma {:induction false} Regroup(a: string, b: string, c: string, d: string)
    ensures a + (b + (c + d)) == a + b + c + d
  {
  }

  method WritePart(out: string, part: Part) returns (buffer: string)
    ensures buffer == out + PutPart(part, "")
    decreases part, 1
  {
    buffer := WriteTerms(out, part.terms);
  }

  method WriteTerms(out: string, terms: seq<Term>) returns (buffer: string)
    ensures buffer == out + PutTerms(terms, "")
    decreases terms, 1
  {
    buffer := out;
    for i := 0 to |terms|
      invariant buffer + LeftTerms(terms, i) == out + PutTerms(terms, "")
    {
      TermStep(terms, i, buffer);
      buffer := buffer + (if i > 0 then "," else "");
      buffer := WriteTerm(buffer, terms[i]);
    }
  }

  ghost function LeftTerms(terms: seq<Term>, i: nat): string
    requires i <= |terms|
  {
    if i == |terms| then "" else (if i > 0 then "," else "") + PutTerms(terms[i..], "")
  }

  lemma {:induction false} TermStep(terms: seq<Term>, i: nat, buffer: string)
    requires i < |terms|
    ensures buffer + LeftTerms(terms, i) ==
      buffer + (if i > 0 then "," else "") + Put(terms[i], "") + LeftTerms(terms, i + 1)
  {
    assert terms[i..][1..] == terms[i + 1..];
    PutThen(terms[i], LeftTerms(terms, i + 1));
    assert PutTerms(terms[i..], "") == Put(terms[i], LeftTerms(terms, i + 1));
    Regroup(buffer, if i > 0 then "," else "", Put(terms[i], ""), LeftTerms(terms, i + 1));
  }

  method WriteSegments(out: string, segments: seq<Segment>) returns (buffer: string)
    ensures buffer == out + PutSegments(segments, "")
    decreases segments, 1
  {
    buffer := out;
    for i := 0 to |segments|
      invariant buffer + LeftSegments(segments, i) == out + PutSegments(segments, "")
    {
      SegmentStep(segments, i, buffer);
      buffer := buffer + (if i > 0 then "," else "");
      buffer := WriteSegment(buffer, segments[i]);
    }
  }

  ghost function LeftSegments(segments: seq<Segment>, i: nat): string
    requires i <= |segments|
  {
    if i == |segments| then "" else (if i > 0 then "," else "") + PutSegments(segments[i..], "")
  }

  lemma {:induction false} SegmentStep(segments: seq<Segment>, i: nat, buffer: string)
    requires i < |segments|
    ensures buffer + LeftSegments(segments, i) ==
      buffer + (if i > 0 then "," else "") + PutSegment(segments[i], "") + LeftSegments(segments, i + 1)
  {
    assert segments[i..][1..] == segments[i + 1..];
    SegmentThen(segments[i], LeftSegments(segments, i + 1));
    assert PutSegments(segments[i..], "") == PutSegment(segments[i], LeftSegments(segments, i + 1));
    Regroup(buffer, if i > 0 then "," else "", PutSegment(segments[i], ""), LeftSegments(segments, i + 1));
  }

  method WriteSegment(out: string, segment: Segment) returns (buffer: string)
    ensures buffer == out + PutSegment(segment, "")
    decreases segment, 1
  {
    var base := PutBase(segment.base, "");
    buffer := out + base;
    if segment.args != [] {
      buffer := buffer + "[";
      buffer := WriteArgs(buffer, segment.args);
      buffer := buffer + "]";
      ArgsThen(segment.args, "]" + "");
      BaseThen(segment.base, "[" + (PutArgs(segment.args, "") + ("]" + "")));
      Indexed(out, base, PutArgs(segment.args, ""));
    }
  }

  lemma {:induction false} Indexed(out: string, base: string, args: string)
    ensures out + base + "[" + args + "]" == out + (base + ("[" + (args + ("]" + ""))))
  {
  }

  method WriteArgs(out: string, args: seq<Arg>) returns (buffer: string)
    ensures buffer == out + PutArgs(args, "")
    decreases args, 1
  {
    buffer := out;
    for i := 0 to |args|
      invariant buffer + LeftArgs(args, i) == out + PutArgs(args, "")
    {
      ArgStep(args, i, buffer);
      buffer := buffer + (if i > 0 then "," else "");
      buffer := WriteArg(buffer, args[i]);
    }
  }

  ghost function LeftArgs(args: seq<Arg>, i: nat): string
    requires i <= |args|
  {
    if i == |args| then "" else (if i > 0 then "," else "") + PutArgs(args[i..], "")
  }

  lemma {:induction false} ArgStep(args: seq<Arg>, i: nat, buffer: string)
    requires i < |args|
    ensures buffer + LeftArgs(args, i) ==
      buffer + (if i > 0 then "," else "") + PutArg(args[i], "") + LeftArgs(args, i + 1)
  {
    assert args[i..][1..] == args[i + 1..];
    ArgThen(args[i], LeftArgs(args, i + 1));
    assert PutArgs(args[i..], "") == PutArg(args[i], LeftArgs(args, i + 1));
    Regroup(buffer, if i > 0 then "," else "", PutArg(args[i], ""), LeftArgs(args, i + 1));
  }

  method WriteArg(out: string, arg: Arg) returns (buffer: string)
    ensures buffer == out + PutArg(arg, "")
    decreases arg, 1
  {
    buffer := out + ArgHead(arg) + ":";
    match arg
    case TypeArg(ty) =>
      buffer := WriteTerm(buffer, ty);
      Regroup(out, ArgHead(arg), ":", Put(ty, ""));
    case ConstArg(expr) =>
      buffer := WriteTerm(buffer, expr);
      Regroup(out, ArgHead(arg), ":", Put(expr, ""));
    case TypeOrConst(ty, expr) =>
      buffer := WriteTerm(buffer, ty);
      buffer := WriteTerm(buffer + "|", expr);
      PutThen(ty, "|" + Put(expr, ""));
      Regroup(out, ArgHead(arg), ":", Put(ty, "") + ("|" + Put(expr, "")));
      Regroup(out + ArgHead(arg) + ":", Put(ty, ""), "|", Put(expr, ""));
    case Assoc(key, ty) =>
      buffer := WriteTerm(buffer, key);
      buffer := WriteTerm(buffer + "=", ty);
      PutThen(key, "=" + Put(ty, ""));
      Regroup(out, ArgHead(arg), ":", Put(key, "") + ("=" + Put(ty, "")));
      Regroup(out + ArgHead(arg) + ":", Put(key, ""), "=", Put(ty, ""));
  }

  method TypeRefIdentity(ty: TypeRef) returns (out: string)
    ensures out == TypeIdentity(ty)
  {
    out := WriteTerm("", TypeTerm(ty));
  }
}
