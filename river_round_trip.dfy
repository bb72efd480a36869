/**
 * Round trips: every tree the parser can produce is read back from its
 * spelling, with the same run of blanks (possibly none) after every comma,
 * and the parser stops exactly
 * at the end of that spelling.
 */
module RiverRoundTrip {
  import opened RiverAst
  import opened Combinators
  import opened RiverParser
  import opened RiverText
  import opened RiverParserProofs

  /** A comma and blanks in front of a non-blank are one separator. */
  lemma CommaSepGap(gap: string, t: string)
    requires AllSpaces(gap)
    requires t == [] || !IsSpace(t[0])
    ensures CommaSep("," + gap + t) == Ok(t, ',')
  {
    assert ("," + gap + t)[1..] == gap + t;
    Space0Gap(gap, t);
  }

  /** `name<` opens the form and leaves the body. */
  lemma TypeOpenOf(name: string, body: string)
    ensures TypeOpen(name, name + "<" + body) == Ok(body, ())
  {
    var s := name + "<" + body;
    assert s[..|name|] == name;
    assert s[|name|..] == "<" + body;
  }

  /** `usize` reads back a spelt machine word in front of a non-digit. */
  lemma UsizeStep(n: usize, t: string, input: string)
    requires t == [] || !IsDigit(t[0])
    requires input == Decimal(n) + t
    ensures Usize(input) == Ok(t, n)
  {
    UsizeDecimal(n, t);
  }

  /** `river_parameters` succeeds when its five steps do, in sequence. */
  lemma ParametersSteps(s: string, s1: string, s2: string, s3: string, s4: string, s5: string,
                        e: usize, c: usize, u: usize)
    requires Usize(s) == Ok(s1, e) && CommaSep(s1) == Ok(s2, ',')
    requires Usize(s2) == Ok(s3, c) && CommaSep(s3) == Ok(s4, ',')
    requires Usize(s4) == Ok(s5, u)
    ensures ParseRiverParameters(s) == Ok(s5, RiverParameters(e, c, u))
  {
  }

  /** A comma, blanks and a spelt machine word: the separator, then the word. */
  lemma SeparatedWord(n: usize, gap: string, t: string)
    requires AllSpaces(gap)
    requires t == [] || !IsDigit(t[0])
    ensures CommaSep("," + gap + (Decimal(n) + t)) == Ok(Decimal(n) + t, ',')
    ensures Usize(Decimal(n) + t) == Ok(t, n)
  {
    CommaSepGap(gap, Decimal(n) + t);
    UsizeDecimal(n, t);
  }

  /** `river_parameters` reads three spelt machine words separated by a comma
      and blanks. */
  lemma ParametersOf(e: usize, c: usize, u: usize, gap: string, s: string)
    requires AllSpaces(gap)
    requires s == [] || !IsDigit(s[0])
    ensures ParseRiverParameters(Decimal(e) + ("," + gap + (Decimal(c) + ("," + gap + (Decimal(u) + s)))))
         == Ok(s, RiverParameters(e, c, u))
  {
    var t4 := Decimal(u) + s;
    var t3 := "," + gap + t4;
    var t2 := Decimal(c) + t3;
    var t1 := "," + gap + t2;
    SeparatedWord(u, gap, s);
    SeparatedWord(c, gap, t3);
    UsizeDecimal(e, t1);
    ParametersSteps(Decimal(e) + t1, t1, t2, t3, t4, s, e, c, u);
  }

  /** The spelling of the parameters, regrouped word by word. */
  lemma ParametersShape(p: Parameters, gap: string, s: string)
    ensures PrintParameters(p, gap) + s
         == Decimal(p.elements) + ("," + gap + (Decimal(p.complexity) + ("," + gap + (Decimal(p.userbits) + s))))
  {
  }

  /** The three parameters are read back from their spelling. */
  lemma ParametersRoundTrip(p: Parameters, gap: string, s: string)
    requires AllSpaces(gap)
    requires s == [] || !IsDigit(s[0])
    ensures ParseRiverParameters(PrintParameters(p, gap) + s) == Ok(s, p)
  {
    ParametersShape(p, gap, s);
    ParametersOf(p.elements, p.complexity, p.userbits, gap, s);
  }

  /** `bits` accepts `Bits<` any run of digits whose value fits `>`, leading
      zeros included: `Bits<08>` is `Bits(8)`. */
  lemma BitsComplete(ds: string, rest: string)
    requires |ds| > 0 && AllDigits(ds) && DecValue(ds) <= USIZE_MAX
    ensures ParseBits("Bits" + "<" + (ds + (">" + rest))) == Ok(rest, Bits(DecValue(ds)))
  {
    TypeOpenOf("Bits", ds + (">" + rest));
    UsizeDigits(ds, ">" + rest);
  }

  lemma BitsRegroup(ds: string, rest: string)
    ensures "Bits<" + ds + ">" + rest == "Bits" + "<" + (ds + (">" + rest))
  {
  }

  /** `bits` accepts exactly the spellings `Bits<` digits `>` of a machine
      word, and reads the word they spell. */
  lemma BitsExactly(s: string, rest: string, w: usize)
    ensures ParseBits(s) == Ok(rest, Bits(w)) <==> BitsSpelling(s, rest, w)
  {
    if BitsSpelling(s, rest, w) {
      var ds := s[5..|s| - |rest| - 1];
      BitsRegroup(ds, rest);
      BitsComplete(ds, rest);
    }
  }

  /** `Bits<w>` is read back as `Bits(w)`. */
  lemma BitsRoundTrip(w: usize, gap: string, s: string)
    ensures ParseRiverType(Print(Bits(w), gap) + s) == Ok(s, Bits(w))
  {
    var x := Print(Bits(w), gap) + s;
    assert x == "Bits" + "<" + (Decimal(w) + (">" + s));
    BitsComplete(Decimal(w), s);
    OpensStarts(x, "Bits");
    RiverTypeIsBits(x);
  }
  /** `>` closes the form after a successful inner parser. */
  lemma TypeCloseOf<T>(t: string, v: T)
    ensures TypeClose(Ok(">" + t, v)) == Ok(t, v)
  {
  }

  /** `river_type_parser` before its `map`, step by step. */
  lemma ChildAndParametersSteps(name: string, s: string, body: string, t1: string, t2: string,
                                t3: string, c: River, p: Parameters)
    requires TypeOpen(name, s) == Ok(body, ())
    requires ParseRiverType(body) == Ok(t1, c)
    requires CommaSep(t1) == Ok(t2, ',')
    requires ParseRiverParameters(t2) == Ok(">" + t3, p)
    ensures ParseChildAndParameters(name, s) == Ok(t3, (c, p))
  {
    TypeCloseOf(t3, (c, p));
  }

  /** `name<child, N, C, U>` is read back, given that the child is. */
  lemma ChildAndParametersOf(name: string, c: River, p: Parameters, gap: string, s: string)
    requires AllSpaces(gap)
    requires ParseRiverType(Print(c, gap) + ("," + gap + (PrintParameters(p, gap) + (">" + s))))
          == Ok("," + gap + (PrintParameters(p, gap) + (">" + s)), c)
    ensures ParseChildAndParameters(name, name + "<" + (Print(c, gap) + ("," + gap + (PrintParameters(p, gap) + (">" + s)))))
         == Ok(s, (c, p))
  {
    var t2 := PrintParameters(p, gap) + (">" + s);
    var t1 := "," + gap + t2;
    var body := Print(c, gap) + t1;
    TypeOpenOf(name, body);
    assert t2[0] == Decimal(p.elements)[0];
    CommaSepGap(gap, t2);
    ParametersRoundTrip(p, gap, ">" + s);
    ChildAndParametersSteps(name, name + "<" + body, body, t1, t2, s, c, p);
  }

  /** The spelling of a single-child form, regrouped around its child. */
  lemma ParameterisedShape(r: River, gap: string, s: string)
    requires r.IsParameterised()
    ensures Print(r, gap) + s
         == Keyword(r) + "<" + (Print(r.child, gap) + ("," + gap + (PrintParameters(r.params, gap) + (">" + s))))
  {
  }

  /** `name<child, N, C, U>` is read back from the spelling of a single-child
      form, given that the child is. */
  lemma ParameterisedParsed(r: River, gap: string, s: string)
    requires r.IsParameterised() && AllSpaces(gap)
    requires ParseRiverType(Print(r.child, gap) + ("," + gap + (PrintParameters(r.params, gap) + (">" + s))))
          == Ok("," + gap + (PrintParameters(r.params, gap) + (">" + s)), r.child)
    ensures ParseChildAndParameters(Keyword(r), Print(r, gap) + s) == Ok(s, (r.child, r.params))
  {
    ParameterisedShape(r, gap, s);
    ChildAndParametersOf(Keyword(r), r.child, r.params, gap, s);
  }

  /** `river_type` builds the single-child node its keyword names. */
  lemma ParameterisedDispatch(r: River, x: string, t: string)
    requires r.IsParameterised() && !r.Flat? && StartsWith(x, Keyword(r))
    requires ParseChildAndParameters(Keyword(r), x) == Ok(t, (r.child, r.params))
    ensures ParseRiverType(x) == Ok(t, r)
  {
    match r
    case Root(_, _) => RiverTypeIsRoot(x);
    case Dim(_, _) => RiverTypeIsDim(x);
    case New(_, _) => RiverTypeIsNew(x);
    case Rev(_, _) => RiverTypeIsRev(x);
  }

  /** A single-child form is read back, given that its child is. */
  lemma ParameterisedRoundTrip(r: River, gap: string, s: string)
    requires r.IsParameterised() && !r.Flat? && AllSpaces(gap)
    requires ParseRiverType(Print(r.child, gap) + ("," + gap + (PrintParameters(r.params, gap) + (">" + s))))
          == Ok("," + gap + (PrintParameters(r.params, gap) + (">" + s)), r.child)
    ensures ParseRiverType(Print(r, gap) + s) == Ok(s, r)
  {
    ParameterisedParsed(r, gap, s);
    PrintStarts(r, gap, s);
    OpensStarts(Print(r, gap) + s, Keyword(r));
    ParameterisedDispatch(r, Print(r, gap) + s, s);
  }

  /** The spelling of a composite, regrouped around its list of children. */
  lemma CompositeShape(r: River, gap: string, s: string)
    requires r.IsComposite()
    ensures Print(r, gap) + s == Keyword(r) + "<" + (PrintList(r.children, gap) + (">" + s))
  {
  }

  /** `name<` opens the spelling of a composite, leaving its list and `>`. */
  lemma CompositeOpened(r: River, gap: string, s: string)
    requires r.IsComposite()
    ensures TypeOpen(Keyword(r), Print(r, gap) + s) == Ok(PrintList(r.children, gap) + (">" + s), ())
  {
    CompositeShape(r, gap, s);
    TypeOpenOf(Keyword(r), PrintList(r.children, gap) + (">" + s));
  }

  /** `river_type` builds the composite its keyword names. */
  lemma CompositeDispatch(r: River, x: string, body: string, t: string)
    requires r.IsComposite() && StartsWith(x, Keyword(r))
    requires TypeOpen(Keyword(r), x) == Ok(body, ())
    requires ParseCommaList(body) == Ok(">" + t, r.children)
    ensures ParseRiverType(x) == Ok(t, r)
  {
    TypeCloseOf(t, r.children);
    match r
    case Group(_) => RiverTypeIsGroup(x);
    case Union(_) => RiverTypeIsUnion(x);
  }

  /** A composite is read back, given that its list of children is. */
  lemma CompositeRoundTrip(r: River, gap: string, s: string)
    requires r.IsComposite()
    requires ParseCommaList(PrintList(r.children, gap) + (">" + s)) == Ok(">" + s, r.children)
    ensures ParseRiverType(Print(r, gap) + s) == Ok(s, r)
  {
    CompositeOpened(r, gap, s);
    PrintStarts(r, gap, s);
    OpensStarts(Print(r, gap) + s, Keyword(r));
    CompositeDispatch(r, Print(r, gap) + s, PrintList(r.children, gap) + (">" + s), s);
  }

  /** The spelling of a non-empty list, regrouped around its first element. */
  lemma ListShape(cs: seq<River>, gap: string, s: string)
    requires |cs| > 0
    ensures PrintList(cs, gap) + s == Print(cs[0], gap) + (PrintTail(cs[1..], gap) + s)
  {
  }

  /** The spelling of a non-empty tail, regrouped around its first element. */
  lemma TailShape(cs: seq<River>, gap: string, s: string)
    requires |cs| > 0
    ensures PrintTail(cs, gap) + s == "," + gap + (Print(cs[0], gap) + (PrintTail(cs[1..], gap) + s))
  {
  }

  lemma ConsSplit(cs: seq<River>)
    requires |cs| > 0
    ensures cs == [cs[0]] + cs[1..]
  {
  }

  /** `nonempty_comma_list`, step by step. */
  lemma ListSteps(s: string, t: string, u: string, x: River, more: seq<River>, cs: seq<River>)
    requires ParseRiverType(s) == Ok(t, x)
    requires ParseCommaListTail(t) == Ok(u, more)
    requires cs == [x] + more
    ensures ParseCommaList(s) == Ok(u, cs)
  {
  }

  /** The repetition inside `nonempty_comma_list`, one step. */
  lemma TailSteps(s: string, t1: string, t2: string, u: string, x: River, more: seq<River>,
                  cs: seq<River>)
    requires CommaSep(s) == Ok(t1, ',')
    requires ParseRiverType(t1) == Ok(t2, x)
    requires ParseCommaListTail(t2) == Ok(u, more)
    requires cs == [x] + more
    ensures ParseCommaListTail(s) == Ok(u, cs)
  {
  }

  /** A non-empty list is read back, given that its first element and the
      rest are. */
  lemma ListFrom(cs: seq<River>, gap: string, s: string)
    requires |cs| > 0
    requires ParseRiverType(Print(cs[0], gap) + (PrintTail(cs[1..], gap) + s))
          == Ok(PrintTail(cs[1..], gap) + s, cs[0])
    requires ParseCommaListTail(PrintTail(cs[1..], gap) + s) == Ok(s, cs[1..])
    ensures ParseCommaList(PrintList(cs, gap) + s) == Ok(s, cs)
  {
    ListShape(cs, gap, s);
    ConsSplit(cs);
    ListSteps(PrintList(cs, gap) + s, PrintTail(cs[1..], gap) + s, s, cs[0], cs[1..], cs);
  }

  /** A non-empty comma-led tail is read back, given that its first element
      and the rest are. */
  lemma TailFrom(cs: seq<River>, gap: string, s: string)
    requires |cs| > 0 && AllSpaces(gap)
    requires ParseRiverType(Print(cs[0], gap) + (PrintTail(cs[1..], gap) + s))
          == Ok(PrintTail(cs[1..], gap) + s, cs[0])
    requires ParseCommaListTail(PrintTail(cs[1..], gap) + s) == Ok(s, cs[1..])
    ensures ParseCommaListTail(PrintTail(cs, gap) + s) == Ok(s, cs)
  {
    var t1 := Print(cs[0], gap) + (PrintTail(cs[1..], gap) + s);
    TailShape(cs, gap, s);
    PrintStarts(cs[0], gap, PrintTail(cs[1..], gap) + s);
    CommaSepGap(gap, t1);
    ConsSplit(cs);
    TailSteps(PrintTail(cs, gap) + s, t1, PrintTail(cs[1..], gap) + s, s, cs[0], cs[1..], cs);
  }

  /** Every tree the parser can produce is read back from its spelling, with
      the same run of blanks after every comma, and nothing after it is consumed. */
  lemma {:induction false} ParseRoundTrip(r: River, gap: string, s: string)
    requires Parseable(r) && AllSpaces(gap)
    ensures ParseRiverType(Print(r, gap) + s) == Ok(s, r)
    decreases r
  {
    if r.Bits? {
      BitsRoundTrip(r.width, gap, s);
    } else if r.IsComposite() {
      ParseableComposite(r);
      NoCommaListEnds(">" + s);
      ListRoundTrip(r.children, gap, ">" + s);
      CompositeRoundTrip(r, gap, s);
    } else {
      ParseableParameterised(r);
      ParseRoundTrip(r.child, gap, "," + gap + (PrintParameters(r.params, gap) + (">" + s)));
      ParameterisedRoundTrip(r, gap, s);
    }
  }

  /** A non-empty list of such trees is read back from its spelling, up to a
      text where no separator and River follow. */
  lemma {:induction false} ListRoundTrip(cs: seq<River>, gap: string, s: string)
    requires |cs| > 0 && AllParseable(cs) && AllSpaces(gap)
    requires ListEnds(s)
    ensures ParseCommaList(PrintList(cs, gap) + s) == Ok(s, cs)
    decreases cs
  {
    ParseRoundTrip(cs[0], gap, PrintTail(cs[1..], gap) + s);
    TailRoundTrip(cs[1..], gap, s);
    ListFrom(cs, gap, s);
  }

  /** The comma-led rest of such a list is read back from its spelling. */
  lemma {:induction false} TailRoundTrip(cs: seq<River>, gap: string, s: string)
    requires AllParseable(cs) && AllSpaces(gap)
    requires ListEnds(s)
    ensures ParseCommaListTail(PrintTail(cs, gap) + s) == Ok(s, cs)
    decreases cs
  {
    if cs == [] {
      assert PrintTail(cs, gap) + s == s;
      TailStops(s);
    } else {
      ParseRoundTrip(cs[0], gap, PrintTail(cs[1..], gap) + s);
      TailRoundTrip(cs[1..], gap, s);
      TailFrom(cs, gap, s);
    }
  }
}
