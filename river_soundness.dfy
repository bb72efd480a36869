/**
 * Soundness of the parser, the converse of the round trip: whatever text
 * `river_type` accepts is, once its comma blanks are dropped and its numbers
 * spelt shortest, exactly the spelling of the tree it returns. So the tree
 * depends on nothing but that canonical text.
 */
module RiverSoundness {
  import opened RiverAst
  import opened Combinators
  import opened RiverParser
  import opened RiverText
  import opened RiverRoundTrip
  import opened RiverCanon

  /** A text that starts with a comma. */
  lemma CommaSplit(s: string)
    requires s != [] && s[0] == ','
    ensures s == [','] + s[1..]
  {
  }

  /** A text cut into a consumed part, a comma, blanks, a second consumed part
      and the rest. */
  lemma CommaShape(s: string, t: string, t1: string, u: string, w: string, a: string, gap: string, b: string)
    requires s == a + t && t == [','] + t1 && t1 == gap + u && u == b + w
    ensures s == a + ("," + gap + b) + w
  {
  }

  /** The canonical form of two parts around a comma and blanks. */
  lemma CanonCommaJoin(a: string, gap: string, b: string)
    requires AllSpaces(gap) && (b == [] || !IsSpace(b[0]))
    ensures Canon(a + ("," + gap + b)) == Canon(a) + ("," + Canon(b))
  {
    var c := "," + gap + b;
    assert c[0] == ',';
    CanonAppend(a, c);
    CanonCommaGap(gap, b);
  }

  /** A text that is empty or starts with a comma is a boundary. */
  lemma CommaLed(c: string)
    requires c == [] || c[0] == ','
    ensures Boundary(c)
  {
  }

  /** A comma separator between two consumed parts leaves a bare comma. */
  lemma CommaJoin(s: string, t: string, w: string)
    requires IsSuffix(t, s) && CommaSep(t).Ok? && IsSuffix(w, CommaSep(t).rest)
    ensures IsSuffix(w, s)
    ensures Canon(Consumed(s, w)) == Canon(Consumed(s, t)) + ("," + Canon(Consumed(CommaSep(t).rest, w)))
  {
    var u := CommaSep(t).rest;
    var gap := Consumed(t[1..], u);
    var a := Consumed(s, t);
    var b := Consumed(u, w);
    CommaSplit(t);
    CommaShape(s, t, t[1..], u, w, a, gap, b);
    ConsumedOf(s, a + ("," + gap + b), w);
    assert b != [] ==> b[0] == u[0];
    CanonCommaJoin(a, gap, b);
  }

  /** A text cut into `name<`, a consumed part, `>` and the rest. */
  lemma BracketShape(name: string, s: string, body: string, inner: string, t: string, x: string)
    requires s == name + "<" + body && body == x + inner && inner == ">" + t
    ensures s == name + ("<" + (x + ">")) + t
  {
  }

  /** The canonical form of `name<x>`. */
  lemma CanonBracket(name: string, x: string)
    requires Wordy(name)
    ensures Canon(name + ("<" + (x + ">"))) == name + "<" + Canon(x) + ">"
  {
    CanonWord(name, "<" + (x + ">"));
    CanonWord("<", x + ">");
    CanonAppend(x, ">");
    CanonWord(">", []);
    assert ">" + [] == ">";
  }

  /** A text cut into a comma, blanks, a consumed part and the rest. */
  lemma LeadShape(s: string, t1: string, u: string, w: string, gap: string, b: string)
    requires s == [','] + t1 && t1 == gap + u && u == b + w
    ensures s == ("," + gap + b) + w
  {
  }

  /** What a separator and then a parser consumed: a comma, blanks and the
      parser's part, which does not start with a blank. */
  lemma LeadingCommaText(s: string, w: string)
    requires CommaSep(s).Ok? && IsSuffix(w, CommaSep(s).rest)
    ensures var u := CommaSep(s).rest;
            && IsSuffix(w, s) && IsSuffix(u, s[1..]) && AllSpaces(Consumed(s[1..], u))
            && Consumed(s, w) == "," + Consumed(s[1..], u) + Consumed(u, w)
            && (Consumed(u, w) == [] || !IsSpace(Consumed(u, w)[0]))
  {
    var u := CommaSep(s).rest;
    var gap := Consumed(s[1..], u);
    var b := Consumed(u, w);
    CommaSplit(s);
    LeadShape(s, s[1..], u, w, gap, b);
    ConsumedOf(s, "," + gap + b, w);
    assert b != [] ==> b[0] == u[0];
  }

  /** A separator in front of a consumed part leaves a bare comma. */
  lemma LeadingComma(s: string, w: string)
    requires CommaSep(s).Ok? && IsSuffix(w, CommaSep(s).rest)
    ensures IsSuffix(w, s) && Consumed(s, w) != [] && Consumed(s, w)[0] == ','
    ensures Canon(Consumed(s, w)) == "," + Canon(Consumed(CommaSep(s).rest, w))
  {
    var u := CommaSep(s).rest;
    LeadingCommaText(s, w);
    CanonCommaGap(Consumed(s[1..], u), Consumed(u, w));
  }

  /** `name<`, a consumed part, `>`: the keyword and brackets are kept. */
  lemma BracketJoin(name: string, s: string, body: string, inner: string, t: string)
    requires Wordy(name)
    requires s == name + "<" + body && IsSuffix(inner, body) && inner == ">" + t
    ensures IsSuffix(t, s)
    ensures Canon(Consumed(s, t)) == name + "<" + Canon(Consumed(body, inner)) + ">"
  {
    var x := Consumed(body, inner);
    BracketShape(name, s, body, inner, t, x);
    ConsumedOf(s, name + ("<" + (x + ">")), t);
    CanonBracket(name, x);
  }

  /** What `usize` reads is, canonically, the shortest spelling of its value. */
  lemma UsizeSound(s: string)
    requires Usize(s).Ok?
    ensures Canon(Consumed(s, Usize(s).rest)) == Decimal(Usize(s).v)
  {
    var d := Consumed(s, Usize(s).rest);
    CanonDigits(d, []);
    assert d + [] == d;
  }

  /** The canonical text of three parameters with no blanks. */
  lemma ParametersText(e: usize, c: usize, u: usize)
    ensures PrintParameters(RiverParameters(e, c, u), "") == Decimal(e) + ("," + Decimal(c)) + ("," + Decimal(u))
  {
  }

  /** Five successful steps of `river_parameters` consume the canonical
      spelling of the three words they read. */
  lemma ParametersSoundFrom(s: string, s1: string, s2: string, s3: string, s4: string, s5: string,
                            e: usize, c: usize, u: usize)
    requires Usize(s) == Ok(s1, e) && CommaSep(s1).Ok? && s2 == CommaSep(s1).rest
    requires Usize(s2) == Ok(s3, c) && CommaSep(s3).Ok? && s4 == CommaSep(s3).rest
    requires Usize(s4) == Ok(s5, u)
    ensures IsSuffix(s5, s)
    ensures Canon(Consumed(s, s5)) == PrintParameters(RiverParameters(e, c, u), "")
  {
    UsizeSound(s);
    UsizeSound(s2);
    UsizeSound(s4);
    CommaJoin(s, s1, s3);
    CommaJoin(s, s3, s5);
    ParametersText(e, c, u);
  }

  /** What `river_parameters` reads is, canonically, the spelling of the
      parameters it returns. */
  lemma ParametersSound(s: string)
    requires ParseRiverParameters(s).Ok?
    ensures Canon(Consumed(s, ParseRiverParameters(s).rest)) == PrintParameters(ParseRiverParameters(s).v, "")
  {
    var u1 := Usize(s);
    var s2 := CommaSep(u1.rest).rest;
    var u2 := Usize(s2);
    var s4 := CommaSep(u2.rest).rest;
    var u3 := Usize(s4);
    assert ParseRiverParameters(s) == Ok(u3.rest, RiverParameters(u1.v, u2.v, u3.v));
    ParametersSoundFrom(s, u1.rest, s2, u2.rest, s4, u3.rest, u1.v, u2.v, u3.v);
  }

  /** The keywords are kept as they are by the canonical form. */
  lemma KeywordsWordy()
    ensures Wordy("Bits") && Wordy("Root") && Wordy("Group") && Wordy("Dim")
    ensures Wordy("New") && Wordy("Rev") && Wordy("Union")
  {
  }

  /** `Bits<`, a machine word, `>`: canonically the spelling of the leaf. */
  lemma BitsSoundFrom(s: string, body: string, inner: string, t: string, w: usize)
    requires s == "Bits" + "<" + body && Usize(body) == Ok(inner, w) && inner == ">" + t
    ensures IsSuffix(t, s) && Canon(Consumed(s, t)) == Print(Bits(w), "")
  {
    UsizeSound(body);
    KeywordsWordy();
    BracketJoin("Bits", s, body, inner, t);
    assert "Bits" + "<" == "Bits<";
  }

  /** What `bits` reads is, canonically, the spelling of the leaf it returns. */
  lemma BitsSound(s: string)
    requires ParseBits(s).Ok?
    ensures Canon(Consumed(s, ParseBits(s).rest)) == Print(ParseBits(s).v, "")
  {
    var body := TypeOpen("Bits", s).rest;
    var u := Usize(body);
    assert ParseBits(s) == Ok(u.rest[1..], Bits(u.v));
    BitsSoundFrom(s, body, u.rest, u.rest[1..], u.v);
  }

  /** `name<`, a child, a separator, parameters, `>`: canonically the keyword,
      the child's and the parameters' spellings, a bare comma, the brackets. */
  lemma ChildAndParametersFrom(name: string, s: string, body: string, t1: string, t2: string,
                               t3: string, t4: string, child: River, params: Parameters)
    requires Wordy(name)
    requires s == name + "<" + body
    requires IsSuffix(t1, body) && Canon(Consumed(body, t1)) == Print(child, "")
    requires CommaSep(t1).Ok? && t2 == CommaSep(t1).rest
    requires IsSuffix(t3, t2) && Canon(Consumed(t2, t3)) == PrintParameters(params, "")
    requires t3 == ">" + t4
    ensures IsSuffix(t4, s)
    ensures Canon(Consumed(s, t4)) == name + "<" + (Print(child, "") + ("," + PrintParameters(params, ""))) + ">"
  {
    CommaJoin(body, t1, t3);
    BracketJoin(name, s, body, t3, t4);
  }

  /** The blank-free spelling of a single-child form. */
  lemma ParameterisedPrint(r: River)
    requires r.IsParameterised()
    ensures Print(r, "") == Keyword(r) + "<" + (Print(r.child, "") + ("," + PrintParameters(r.params, ""))) + ">"
  {
    assert "," + "" == ",";
  }

  /** What `river_type_parser(name, ...)` reads is, canonically, `name<`, the
      child's spelling, a bare comma, the parameters' spelling and `>`. */
  lemma {:induction false} ChildAndParametersSound(name: string, s: string)
    requires Wordy(name) && ParseChildAndParameters(name, s).Ok?
    ensures var r := ParseChildAndParameters(name, s);
            Canon(Consumed(s, r.rest)) == name + "<" + (Print(r.v.0, "") + ("," + PrintParameters(r.v.1, ""))) + ">"
    decreases |s|, 0
  {
    var body := TypeOpen(name, s).rest;
    var c := ParseRiverType(body);
    var t2 := CommaSep(c.rest).rest;
    var p := ParseRiverParameters(t2);
    assert ParseChildAndParameters(name, s) == Ok(p.rest[1..], (c.v, p.v));
    ParseSound(body);
    ParametersSound(t2);
    ChildAndParametersFrom(name, s, body, c.rest, t2, p.rest, p.rest[1..], c.v, p.v);
  }

  /** What `root` reads is, canonically, the spelling of its tree. */
  lemma {:induction false} RootSound(s: string)
    requires ParseRoot(s).Ok?
    ensures Canon(Consumed(s, ParseRoot(s).rest)) == Print(ParseRoot(s).v, "")
    decreases |s|, 1
  {
    var cp := ParseChildAndParameters("Root", s);
    assert ParseRoot(s) == Ok(cp.rest, Root(cp.v.0, cp.v.1));
    KeywordsWordy();
    ChildAndParametersSound("Root", s);
    ParameterisedPrint(Root(cp.v.0, cp.v.1));
  }

  /** What `dim` reads is, canonically, the spelling of its tree. */
  lemma {:induction false} DimSound(s: string)
    requires ParseDim(s).Ok?
    ensures Canon(Consumed(s, ParseDim(s).rest)) == Print(ParseDim(s).v, "")
    decreases |s|, 1
  {
    var cp := ParseChildAndParameters("Dim", s);
    assert ParseDim(s) == Ok(cp.rest, Dim(cp.v.0, cp.v.1));
    KeywordsWordy();
    ChildAndParametersSound("Dim", s);
    ParameterisedPrint(Dim(cp.v.0, cp.v.1));
  }

  /** What `new` reads is, canonically, the spelling of its tree. */
  lemma {:induction false} NewSound(s: string)
    requires ParseNew(s).Ok?
    ensures Canon(Consumed(s, ParseNew(s).rest)) == Print(ParseNew(s).v, "")
    decreases |s|, 1
  {
    var cp := ParseChildAndParameters("New", s);
    assert ParseNew(s) == Ok(cp.rest, New(cp.v.0, cp.v.1));
    KeywordsWordy();
    ChildAndParametersSound("New", s);
    ParameterisedPrint(New(cp.v.0, cp.v.1));
  }

  /** What `rev` reads is, canonically, the spelling of its tree. */
  lemma {:induction false} RevSound(s: string)
    requires ParseRev(s).Ok?
    ensures Canon(Consumed(s, ParseRev(s).rest)) == Print(ParseRev(s).v, "")
    decreases |s|, 1
  {
    var cp := ParseChildAndParameters("Rev", s);
    assert ParseRev(s) == Ok(cp.rest, Rev(cp.v.0, cp.v.1));
    KeywordsWordy();
    ChildAndParametersSound("Rev", s);
    ParameterisedPrint(Rev(cp.v.0, cp.v.1));
  }

  /** What `group` reads is, canonically, the spelling of its tree. */
  lemma {:induction false} GroupSound(s: string)
    requires ParseGroup(s).Ok?
    ensures Canon(Consumed(s, ParseGroup(s).rest)) == Print(ParseGroup(s).v, "")
    decreases |s|, 1
  {
    var body := TypeOpen("Group", s).rest;
    var list := ParseCommaList(body);
    assert ParseGroup(s) == Ok(list.rest[1..], Group(list.v));
    ListSound(body);
    KeywordsWordy();
    BracketJoin("Group", s, body, list.rest, list.rest[1..]);
  }

  /** What `union` reads is, canonically, the spelling of its tree. */
  lemma {:induction false} UnionSound(s: string)
    requires ParseUnion(s).Ok?
    ensures Canon(Consumed(s, ParseUnion(s).rest)) == Print(ParseUnion(s).v, "")
    decreases |s|, 1
  {
    var body := TypeOpen("Union", s).rest;
    var list := ParseCommaList(body);
    assert ParseUnion(s) == Ok(list.rest[1..], Union(list.v));
    ListSound(body);
    KeywordsWordy();
    BracketJoin("Union", s, body, list.rest, list.rest[1..]);
  }

  /** Soundness of `river_type`: the text it consumes is, canonically, the
      blank-free spelling of the tree it returns. */
  lemma {:induction false} ParseSound(s: string)
    requires ParseRiverType(s).Ok?
    ensures Canon(Consumed(s, ParseRiverType(s).rest)) == Print(ParseRiverType(s).v, "")
    decreases |s|, 2
  {
    if ParseUnion(s).Ok? {
      UnionSound(s);
    } else if ParseRev(s).Ok? {
      RevSound(s);
    } else if ParseNew(s).Ok? {
      NewSound(s);
    } else if ParseDim(s).Ok? {
      DimSound(s);
    } else if ParseGroup(s).Ok? {
      GroupSound(s);
    } else if ParseRoot(s).Ok? {
      RootSound(s);
    } else {
      BitsSound(s);
    }
  }

  /** A first element and a comma-led rest: canonically, their spellings. */
  lemma ListSoundFrom(s: string, t: string, w: string, x: River, more: seq<River>)
    requires IsSuffix(t, s) && Canon(Consumed(s, t)) == Print(x, "")
    requires IsSuffix(w, t) && Canon(Consumed(t, w)) == PrintTail(more, "")
    requires Consumed(t, w) == [] || Consumed(t, w)[0] == ','
    ensures IsSuffix(w, s) && Canon(Consumed(s, w)) == PrintList([x] + more, "")
  {
    CommaLed(Consumed(t, w));
    Join(s, t, w);
    assert ([x] + more)[0] == x && ([x] + more)[1..] == more;
  }

  /** What `nonempty_comma_list(river_type)` reads is, canonically, the
      blank-free spelling of the list it returns. */
  lemma {:induction false} ListSound(s: string)
    requires ParseCommaList(s).Ok?
    ensures Canon(Consumed(s, ParseCommaList(s).rest)) == PrintList(ParseCommaList(s).v, "")
    decreases |s|, 3
  {
    var first := ParseRiverType(s);
    var more := ParseCommaListTail(first.rest);
    assert ParseCommaList(s) == Ok(more.rest, [first.v] + more.v);
    ParseSound(s);
    TailSound(first.rest);
    ListSoundFrom(s, first.rest, more.rest, first.v, more.v);
  }

  /** The blank-free spelling of a non-empty comma-led tail. */
  lemma TailPrint(x: River, more: seq<River>)
    ensures PrintTail([x] + more, "") == "," + (Print(x, "") + PrintTail(more, ""))
  {
    assert ([x] + more)[0] == x && ([x] + more)[1..] == more;
    assert "," + "" == ",";
  }

  /** A separator, an element and a comma-led rest: canonically, a bare comma
      and their spellings. */
  lemma TailSoundFrom(s: string, u: string, w: string, x: River, more: seq<River>)
    requires CommaSep(s).Ok?
    requires IsSuffix(u, CommaSep(s).rest) && Canon(Consumed(CommaSep(s).rest, u)) == Print(x, "")
    requires IsSuffix(w, u) && Canon(Consumed(u, w)) == PrintTail(more, "")
    requires Consumed(u, w) == [] || Consumed(u, w)[0] == ','
    ensures IsSuffix(w, s) && Canon(Consumed(s, w)) == PrintTail([x] + more, "")
    ensures Consumed(s, w) == [] || Consumed(s, w)[0] == ','
  {
    var t := CommaSep(s).rest;
    CommaLed(Consumed(u, w));
    Join(t, u, w);
    LeadingComma(s, w);
    TailPrint(x, more);
  }

  /** What the repetition inside the list reads is, canonically, the spelling
      of the elements it returns, each after a bare comma; and it is either
      nothing or starts with a comma. */
  lemma {:induction false} TailSound(s: string)
    ensures var r := ParseCommaListTail(s);
            && Canon(Consumed(s, r.rest)) == PrintTail(r.v, "")
            && (Consumed(s, r.rest) == [] || Consumed(s, r.rest)[0] == ',')
    decreases |s|, 3
  {
    var sep := CommaSep(s);
    if sep.Err? || ParseRiverType(sep.rest).Err? {
      assert ParseCommaListTail(s) == Ok(s, []);
      ConsumedOf(s, [], s);
    } else {
      var x := ParseRiverType(sep.rest);
      var more := ParseCommaListTail(x.rest);
      assert ParseCommaListTail(s) == Ok(more.rest, [x.v] + more.v);
      ParseSound(sep.rest);
      TailSound(x.rest);
      TailSoundFrom(s, x.rest, more.rest, x.v, more.v);
    }
  }

  /** Printing without blanks is one-to-one on the trees the parser produces. */
  lemma PrintInjective(r1: River, r2: River)
    requires Parseable(r1) && Parseable(r2)
    ensures Print(r1, "") == Print(r2, "") <==> r1 == r2
  {
    ParseRoundTrip(r1, "", []);
    ParseRoundTrip(r2, "", []);
  }

  /** A spelling with the same run of blanks after every comma has, as canonical form,
      the blank-free spelling. */
  lemma CanonOfPrint(r: River, gap: string)
    requires Parseable(r) && AllSpaces(gap)
    ensures Canon(Print(r, gap)) == Print(r, "")
  {
    var x := Print(r, gap);
    ParseRoundTrip(r, gap, []);
    assert x + [] == x;
    ParseSound(x);
    ConsumedOf(x, x, []);
  }

  /** Two accepted texts are read as the same tree exactly when what was
      consumed of them has the same canonical form. */
  lemma SameCanonSameTree(s1: string, s2: string)
    requires ParseRiverType(s1).Ok? && ParseRiverType(s2).Ok?
    ensures var r1 := ParseRiverType(s1);
            var r2 := ParseRiverType(s2);
            r1.v == r2.v <==> Canon(Consumed(s1, r1.rest)) == Canon(Consumed(s2, r2.rest))
  {
    ParseSound(s1);
    ParseSound(s2);
    PrintInjective(ParseRiverType(s1).v, ParseRiverType(s2).v);
  }
}
