/**
 * Texts the River parser refuses: the forms it does not know, missing or
 * short parameter lists, blanks before a comma, empty composites and words
 * that overflow the machine word.
 */
module RiverRejections {
  import opened RiverAst
  import opened Combinators
  import opened RiverParser
  import opened RiverText
  import opened RiverParserProofs
  import opened RiverRoundTrip

  /** `c` is the first letter of a keyword `river_type` tries. */
  predicate KeywordInitial(c: char) {
    exists f: Form :: FormKeyword(f)[0] == c
  }

  /** A form can only be opened by a text starting with its keyword's initial. */
  lemma OpensInitial(s: string, name: string)
    requires OpensForm(s, name)
    ensures |name| > 0 ==> s[0] == name[0]
  {
    if |name| > 0 {
      assert s[0] == s[..|name| + 1][0];
    }
  }

  /** What `river_type` accepts starts with the initial of a keyword. */
  lemma ParsedInitial(s: string)
    requires ParseRiverType(s).Ok?
    ensures s != [] && KeywordInitial(s[0])
  {
    var v := ParseRiverType(s).v;
    ParsedOpensWithKeyword(s);
    OpensInitial(s, Keyword(v));
    assert FormKeyword(FormOf(v))[0] == s[0];
  }

  /** `river_type` fails on a text that does not start with the initial of a
      keyword: in particular on `Flat<...>` and on lower-case keywords. */
  lemma NoInitialNoParse(s: string)
    requires s == [] || !KeywordInitial(s[0])
    ensures ParseRiverType(s).Err?
  {
    if ParseRiverType(s).Ok? {
      ParsedInitial(s);
    }
  }

  /** A decimal word above the machine word is refused. */
  lemma UsizeOverflow(n: nat, s: string)
    requires n > USIZE_MAX
    requires s == [] || !IsDigit(s[0])
    ensures Usize(Decimal(n) + s).Err?
  {
    var t := Decimal(n) + s;
    DigitRunOf(Decimal(n), s);
    assert t[..DigitRun(t)] == Decimal(n);
  }

  /** Blanks are allowed after a comma but not before it. */
  lemma BlankBeforeCommaRejected(e: usize, b: char, s: string)
    requires IsSpace(b)
    ensures ParseRiverParameters(Decimal(e) + ([b] + s)).Err?
  {
    UsizeDecimal(e, [b] + s);
  }

  /** `river_parameters` fails when the separator after the second word is missing. */
  lemma NoSecondSeparator(s0: string, s1: string, s2: string, s3: string, e: usize, c: usize)
    requires Usize(s0) == Ok(s1, e) && CommaSep(s1) == Ok(s2, ',')
    requires Usize(s2) == Ok(s3, c) && CommaSep(s3).Err?
    ensures ParseRiverParameters(s0).Err?
  {
  }

  /** Two parameters are not enough: the third is mandatory. */
  lemma TwoParametersRejected(e: usize, c: usize, gap: string, s: string)
    requires AllSpaces(gap)
    requires s == [] || (s[0] != ',' && !IsDigit(s[0]))
    ensures ParseRiverParameters(Decimal(e) + ("," + gap + (Decimal(c) + s))).Err?
  {
    var t1 := "," + gap + (Decimal(c) + s);
    SeparatedWord(c, gap, s);
    UsizeDecimal(e, t1);
    NoSecondSeparator(Decimal(e) + t1, t1, Decimal(c) + s, s, e, c);
  }

  /** One parameter is not enough either. */
  lemma OneParameterRejected(e: usize, s: string)
    requires s == [] || (s[0] != ',' && !IsDigit(s[0]))
    ensures ParseRiverParameters(Decimal(e) + s).Err?
  {
    UsizeDecimal(e, s);
  }

  /** `river_type_parser` fails when the parameters after the child's
      separator are refused. */
  lemma BadParametersAfterChild(name: string, x: string, body: string, t1: string, t2: string, c: River)
    requires TypeOpen(name, x) == Ok(body, ())
    requires ParseRiverType(body) == Ok(t1, c)
    requires CommaSep(t1) == Ok(t2, ',') && ParseRiverParameters(t2).Err?
    ensures ParseChildAndParameters(name, x).Err?
  {
  }

  /** A single-child form whose parameter text `river_parameters` refuses is
      refused by `river_type`, whatever the well-formed child. */
  lemma BadParametersRejected(r: River, gap: string, ps: string, s: string)
    requires r.IsParameterised() && !r.Flat? && Parseable(r.child) && AllSpaces(gap)
    requires ps == [] || !IsSpace(ps[0])
    requires ParseRiverParameters(ps + (">" + s)).Err?
    ensures ParseRiverType(Keyword(r) + "<" + (Print(r.child, gap) + ("," + gap + (ps + (">" + s))))).Err?
  {
    var t2 := ps + (">" + s);
    var t1 := "," + gap + t2;
    var body := Print(r.child, gap) + t1;
    var x := Keyword(r) + "<" + body;
    assert t2[0] == if ps == [] then '>' else ps[0];
    CommaSepGap(gap, t2);
    ParseRoundTrip(r.child, gap, t1);
    TypeOpenOf(Keyword(r), body);
    BadParametersAfterChild(Keyword(r), x, body, t1, t2, r.child);
    OpensStarts(x, Keyword(r));
    match r
    case Root(_, _) => RiverTypeIsRoot(x);
    case Dim(_, _) => RiverTypeIsDim(x);
    case New(_, _) => RiverTypeIsNew(x);
    case Rev(_, _) => RiverTypeIsRev(x);
  }

  /** `K<child, e>` is refused: one parameter is not enough. */
  lemma OneParameterFormRejected(r: River, gap: string, e: usize, s: string)
    requires r.IsParameterised() && !r.Flat? && Parseable(r.child) && AllSpaces(gap)
    ensures ParseRiverType(Keyword(r) + "<" + (Print(r.child, gap) + ("," + gap + (Decimal(e) + (">" + s))))).Err?
  {
    OneParameterRejected(e, ">" + s);
    BadParametersRejected(r, gap, Decimal(e), s);
  }

  lemma TwoWordsShape(e: string, gap: string, c: string, s: string)
    ensures e + ("," + gap + c) + (">" + s) == e + ("," + gap + (c + (">" + s)))
  {
  }

  /** `K<child, e, c>` is refused: two parameters are not enough. */
  lemma TwoParametersFormRejected(r: River, gap: string, e: usize, c: usize, s: string)
    requires r.IsParameterised() && !r.Flat? && Parseable(r.child) && AllSpaces(gap)
    ensures ParseRiverType(Keyword(r) + "<" + (Print(r.child, gap) + ("," + gap
              + (Decimal(e) + ("," + gap + Decimal(c)) + (">" + s))))).Err?
  {
    var ps := Decimal(e) + ("," + gap + Decimal(c));
    TwoWordsShape(Decimal(e), gap, Decimal(c), s);
    TwoParametersRejected(e, c, gap, ">" + s);
    BadParametersRejected(r, gap, ps, s);
  }

  /** `river_type_parser` fails when the child is followed by `>` instead of
      a comma. */
  lemma NoSeparatorAfterChild(name: string, x: string, body: string, t: string, c: River)
    requires TypeOpen(name, x) == Ok(body, ())
    requires ParseRiverType(body) == Ok(">" + t, c)
    ensures ParseChildAndParameters(name, x).Err?
  {
  }

  /** The parameters of a single-child form are mandatory: `K<child>` is
      refused even though `child` is well formed. */
  lemma ParametersMandatory(r: River, gap: string, s: string)
    requires r.IsParameterised() && !r.Flat? && Parseable(r.child) && AllSpaces(gap)
    ensures ParseRiverType(Keyword(r) + "<" + (Print(r.child, gap) + (">" + s))).Err?
  {
    var body := Print(r.child, gap) + (">" + s);
    var x := Keyword(r) + "<" + body;
    TypeOpenOf(Keyword(r), body);
    OpensStarts(x, Keyword(r));
    ParseRoundTrip(r.child, gap, ">" + s);
    NoSeparatorAfterChild(Keyword(r), x, body, s, r.child);
    match r
    case Root(_, _) => RiverTypeIsRoot(x);
    case Dim(_, _) => RiverTypeIsDim(x);
    case New(_, _) => RiverTypeIsNew(x);
    case Rev(_, _) => RiverTypeIsRev(x);
  }

  /** `>` must close a list: the close fails on any other text. */
  lemma CloseMissing<T>(t: string, v: T)
    requires t == [] || t[0] != '>'
    ensures TypeClose(Ok(t, v)).Err?
  {
  }

  /** `group` fails when its list stops at a text that is not `>`. */
  lemma GroupNotClosed(x: string, body: string, t: string, cs: seq<River>)
    requires TypeOpen("Group", x) == Ok(body, ())
    requires ParseCommaList(body) == Ok(t, cs) && TypeClose(Ok(t, cs)).Err?
    ensures ParseGroup(x).Err?
  {
  }

  /** `union` fails when its list stops at a text that is not `>`. */
  lemma UnionNotClosed(x: string, body: string, t: string, cs: seq<River>)
    requires TypeOpen("Union", x) == Ok(body, ())
    requires ParseCommaList(body) == Ok(t, cs) && TypeClose(Ok(t, cs)).Err?
    ensures ParseUnion(x).Err?
  {
  }

  /** A composite fails when its list stops at a text that is not `>`. */
  lemma ListNotClosed(r: River, x: string, body: string, t: string)
    requires r.IsComposite() && StartsWith(x, Keyword(r))
    requires TypeOpen(Keyword(r), x) == Ok(body, ())
    requires ParseCommaList(body) == Ok(t, r.children)
    requires t == [] || t[0] != '>'
    ensures ParseRiverType(x).Err?
  {
    CloseMissing(t, r.children);
    match r
    case Group(_) =>
      GroupNotClosed(x, body, t, r.children);
      RiverTypeIsGroup(x);
    case Union(_) =>
      UnionNotClosed(x, body, t, r.children);
      RiverTypeIsUnion(x);
  }

  /** A comma, blanks and `>` end a list: no River follows the comma. */
  lemma DanglingCommaEnds(gap: string, s: string)
    requires AllSpaces(gap)
    ensures ListEnds("," + gap + (">" + s))
  {
    CommaSepGap(gap, ">" + s);
    NoInitialNoParse(">" + s);
  }

  /** A comma with no River after it ends the list but not the form:
      `Group<Bits<4>, >` is refused. */
  lemma DanglingCommaRejected(r: River, gap: string, s: string)
    requires r.IsComposite() && |r.children| > 0 && AllParseable(r.children) && AllSpaces(gap)
    ensures ParseRiverType(Keyword(r) + "<" + (PrintList(r.children, gap) + ("," + gap + (">" + s)))).Err?
  {
    var t := "," + gap + (">" + s);
    var body := PrintList(r.children, gap) + t;
    var x := Keyword(r) + "<" + body;
    DanglingCommaEnds(gap, s);
    ListRoundTrip(r.children, gap, t);
    TypeOpenOf(Keyword(r), body);
    OpensStarts(x, Keyword(r));
    ListNotClosed(r, x, body, t);
  }

  /** `group` needs at least one child: `Group<>` is refused. */
  lemma EmptyGroupRejected(s: string)
    ensures ParseRiverType("Group<>" + s).Err?
  {
    var x := "Group<>" + s;
    assert x == "Group" + "<" + (">" + s);
    TypeOpenOf("Group", ">" + s);
    NoInitialNoParse(">" + s);
    OpensStarts(x, "Group");
    RiverTypeIsGroup(x);
  }

  /** `union` needs at least one child: `Union<>` is refused. */
  lemma EmptyUnionRejected(s: string)
    ensures ParseRiverType("Union<>" + s).Err?
  {
    var x := "Union<>" + s;
    assert x == "Union" + "<" + (">" + s);
    TypeOpenOf("Union", ">" + s);
    NoInitialNoParse(">" + s);
    OpensStarts(x, "Union");
    RiverTypeIsUnion(x);
  }
}
