/**
 * The parser's unit examples, each read back through the round trip with one
 * blank after every comma, together with a width spelt with a leading zero,
 * which is accepted, and four texts the parser refuses.
 */
module RiverExamples {
  import opened RiverAst
  import opened Combinators
  import opened RiverParser
  import opened RiverText
  import opened RiverParserProofs
  import opened RiverRoundTrip
  import opened RiverRejections

  /** A tree spelt with one blank after every comma is read back by `river_type`. */
  lemma ReadBack(r: River, x: string)
    requires Parseable(r) && Print(r, " ") == x
    ensures ParseRiverType(x) == Ok("", r)
  {
    ParseRoundTrip(r, " ", "");
    assert Print(r, " ") + "" == x;
  }

  /** The parser of a tree's own form reads back its spelling with one
      blank after every comma. */
  lemma ReadBackForm(r: River, x: string)
    requires Parseable(r) && Print(r, " ") == x
    ensures r.Root? ==> ParseRoot(x) == Ok("", r)
    ensures r.Dim? ==> ParseDim(x) == Ok("", r)
    ensures r.New? ==> ParseNew(x) == Ok("", r)
    ensures r.Rev? ==> ParseRev(x) == Ok("", r)
    ensures r.Group? ==> ParseGroup(x) == Ok("", r)
    ensures r.Union? ==> ParseUnion(x) == Ok("", r)
    ensures r.Bits? ==> ParseBits(x) == Ok("", r)
  {
    ReadBack(r, x);
    PrintOpens(r, " ");
    OpensStarts(x, Keyword(r));
    ParseByKeyword(x, FormOf(r));
  }

  /** The decimal spellings the examples use. */
  lemma SmallDecimals()
    ensures Decimal(1) == "1" && Decimal(2) == "2" && Decimal(3) == "3"
    ensures Decimal(4) == "4" && Decimal(7) == "7" && Decimal(8) == "8"
    ensures Decimal(11) == "11" && Decimal(22) == "22" && Decimal(33) == "33"
  {
  }

  /** The spelling of a leaf from that of its width. */
  lemma LeafText(w: usize, ds: string)
    requires Decimal(w) == ds
    ensures Print(Bits(w), " ") == "Bits<" + ds + ">"
  {
  }

  /** `K<child, e, c, u>` regrouped as the printer spells it. */
  lemma ParameterisedShape(k: string, child: string, e: string, c: string, u: string)
    ensures k + "<" + child + "," + " " + (e + "," + " " + c + "," + " " + u) + ">"
         == k + "<" + child + ", " + e + ", " + c + ", " + u + ">"
  {
    assert "," + " " == ", ";
  }

  /** The parser of a single-child form reads back `K<child, e, c, u>`, given
      the spellings of the child and of the three words. */
  lemma ParameterisedReadBack(r: River, child: string, e: string, c: string, u: string, x: string)
    requires r.IsParameterised() && Parseable(r) && Print(r.child, " ") == child
    requires Decimal(r.params.elements) == e && Decimal(r.params.complexity) == c
    requires Decimal(r.params.userbits) == u
    requires x == Keyword(r) + "<" + child + ", " + e + ", " + c + ", " + u + ">"
    ensures r.Root? ==> ParseRoot(x) == Ok("", r)
    ensures r.Dim? ==> ParseDim(x) == Ok("", r)
    ensures r.New? ==> ParseNew(x) == Ok("", r)
    ensures r.Rev? ==> ParseRev(x) == Ok("", r)
  {
    assert Print(r, " ") == Keyword(r) + "<" + child + "," + " " + (e + "," + " " + c + "," + " " + u) + ">";
    ParameterisedShape(Keyword(r), child, e, c, u);
    ReadBackForm(r, x);
  }

  /** The spelling of a composite of two children from theirs. */
  lemma PairText(r: River, a: string, b: string)
    requires r.IsComposite() && |r.children| == 2
    requires Print(r.children[0], " ") == a && Print(r.children[1], " ") == b
    ensures Print(r, " ") == Keyword(r) + "<" + a + ", " + b + ">"
  {
    var cs := r.children;
    assert cs[1..][1..] == [] && cs[1..][0] == cs[1];
    assert PrintTail(cs[1..], " ") == ", " + b;
    assert PrintList(cs, " ") == a + ", " + b;
  }

  /** The parser of a composite reads back `K<a, b>`, given the spellings of
      its two children. */
  lemma PairReadBack(r: River, a: string, b: string, x: string)
    requires r.IsComposite() && |r.children| == 2 && Parseable(r)
    requires Print(r.children[0], " ") == a && Print(r.children[1], " ") == b
    requires x == Keyword(r) + "<" + a + ", " + b + ">"
    ensures r.Group? ==> ParseGroup(x) == Ok("", r)
    ensures r.Union? ==> ParseUnion(x) == Ok("", r)
  {
    PairText(r, a, b);
    ReadBackForm(r, x);
  }

  /** `root("Root<Bits<8>, 1, 2, 3>")` reads the whole text. */
  lemma RootExample()
    ensures ParseRoot("Root<Bits<8>, 1, 2, 3>") == Ok("", Root(Bits(8), RiverParameters(1, 2, 3)))
  {
    var x := "Root<Bits<8>, 1, 2, 3>";
    assert x == "Root" + "<" + "Bits<8>" + ", " + "1" + ", " + "2" + ", " + "3" + ">";
    var r := Root(Bits(8), RiverParameters(1, 2, 3));
    SmallDecimals();
    LeafText(8, "8");
    ParameterisedReadBack(r, "Bits<8>", "1", "2", "3", x);
  }

  /** `group("Group<Bits<4>, Bits<8>>")` reads the whole text. */
  lemma GroupExample()
    ensures ParseGroup("Group<Bits<4>, Bits<8>>") == Ok("", Group([Bits(4), Bits(8)]))
  {
    var x := "Group<Bits<4>, Bits<8>>";
    assert x == "Group" + "<" + "Bits<4>" + ", " + "Bits<8>" + ">";
    var r := Group([Bits(4), Bits(8)]);
    SmallDecimals();
    LeafText(4, "4");
    LeafText(8, "8");
    assert Parseable(r);
    PairReadBack(r, "Bits<4>", "Bits<8>", x);
  }

  /** `dim("Dim<Bits<8>, 1, 2, 3>")` reads the whole text. */
  lemma DimExample()
    ensures ParseDim("Dim<Bits<8>, 1, 2, 3>") == Ok("", Dim(Bits(8), RiverParameters(1, 2, 3)))
  {
    var x := "Dim<Bits<8>, 1, 2, 3>";
    assert x == "Dim" + "<" + "Bits<8>" + ", " + "1" + ", " + "2" + ", " + "3" + ">";
    var r := Dim(Bits(8), RiverParameters(1, 2, 3));
    SmallDecimals();
    LeafText(8, "8");
    ParameterisedReadBack(r, "Bits<8>", "1", "2", "3", x);
  }

  /** `new("New<Bits<7>, 3, 2, 1>")` reads the whole text. */
  lemma NewExample()
    ensures ParseNew("New<Bits<7>, 3, 2, 1>") == Ok("", New(Bits(7), RiverParameters(3, 2, 1)))
  {
    var x := "New<Bits<7>, 3, 2, 1>";
    assert x == "New" + "<" + "Bits<7>" + ", " + "3" + ", " + "2" + ", " + "1" + ">";
    var r := New(Bits(7), RiverParameters(3, 2, 1));
    SmallDecimals();
    LeafText(7, "7");
    ParameterisedReadBack(r, "Bits<7>", "3", "2", "1", x);
  }

  /** `rev("Rev<Bits<8>, 11, 22, 33>")` reads the whole text. */
  lemma RevExample()
    ensures ParseRev("Rev<Bits<8>, 11, 22, 33>") == Ok("", Rev(Bits(8), RiverParameters(11, 22, 33)))
  {
    var x := "Rev<Bits<8>, 11, 22, 33>";
    assert x == "Rev" + "<" + "Bits<8>" + ", " + "11" + ", " + "22" + ", " + "33" + ">";
    var r := Rev(Bits(8), RiverParameters(11, 22, 33));
    SmallDecimals();
    LeafText(8, "8");
    ParameterisedReadBack(r, "Bits<8>", "11", "22", "33", x);
  }

  /** `union("Union<Bits<8>, Bits<4>>")` reads the whole text. */
  lemma UnionExample()
    ensures ParseUnion("Union<Bits<8>, Bits<4>>") == Ok("", Union([Bits(8), Bits(4)]))
  {
    var x := "Union<Bits<8>, Bits<4>>";
    assert x == "Union" + "<" + "Bits<8>" + ", " + "Bits<4>" + ">";
    var r := Union([Bits(8), Bits(4)]);
    SmallDecimals();
    LeafText(8, "8");
    LeafText(4, "4");
    assert Parseable(r);
    PairReadBack(r, "Bits<8>", "Bits<4>", x);
  }

  /** `bits("Bits<8>")` reads the whole text. */
  lemma BitsExample()
    ensures ParseBits("Bits<8>") == Ok("", Bits(8))
  {
    var x := "Bits<8>";
    SmallDecimals();
    LeafText(8, "8");
    ReadBackForm(Bits(8), x);
  }

  /** `river_type("Bits<8>")` reads the whole text. */
  lemma RiverTypeExample()
    ensures ParseRiverType("Bits<8>") == Ok("", Bits(8))
  {
    SmallDecimals();
    LeafText(8, "8");
    ReadBack(Bits(8), "Bits<8>");
  }

  /** A leading zero in a width is accepted: `bits("Bits<08>")` is `Bits(8)`. */
  lemma LeadingZeroWidth()
    ensures ParseBits("Bits<08>") == Ok("", Bits(8))
  {
    assert "Bits<08>" == "Bits" + "<" + ("08" + (">" + ""));
    assert DecValue("08") == 8 by {
      assert "08"[..1] == "0";
    }
    BitsComplete("08", "");
  }

  /** `river_parameters("3, 4, 5")` reads the whole text. */
  lemma ParametersExample()
    ensures ParseRiverParameters("3, 4, 5") == Ok("", RiverParameters(3, 4, 5))
  {
    var p := RiverParameters(3, 4, 5);
    assert PrintParameters(p, " ") + "" == "3, 4, 5";
    ParametersRoundTrip(p, " ", "");
  }

  /** `bits` needs a width: `Bits<>` is refused. */
  lemma BitsWithoutWidth()
    ensures ParseBits("Bits<>").Err?
  {
    assert "Bits<>" == "Bits" + "<" + ">";
    TypeOpenOf("Bits", ">");
  }

  /** Keywords are case-sensitive: `bits<8>` is refused. */
  lemma LowerCaseBits()
    ensures ParseBits("bits<8>").Err?
  {
    var x := "bits<8>";
    assert x[..4] != "Bits" by { assert x[0] != 'B'; }
  }

  /** `K<child, e, c>` regrouped as the refusal of two parameters states it. */
  lemma TwoWordsText(k: string, child: string, e: string, c: string)
    ensures k + "<" + child + ", " + e + ", " + c + ">"
         == k + "<" + (child + ("," + " " + (e + ("," + " " + c) + (">" + ""))))
  {
    assert "," + " " == ", ";
  }

  /** A single-child form with only two parameters is refused, given the
      spellings of its child and of the two words. */
  lemma TwoParametersRefused(r: River, e: usize, c: usize, child: string, es: string, cs: string, x: string)
    requires r.IsParameterised() && !r.Flat? && Parseable(r.child) && Print(r.child, " ") == child
    requires Decimal(e) == es && Decimal(c) == cs
    requires x == Keyword(r) + "<" + child + ", " + es + ", " + cs + ">"
    ensures ParseRiverType(x).Err?
  {
    TwoWordsText(Keyword(r), child, es, cs);
    TwoParametersFormRejected(r, " ", e, c, "");
  }

  /** Three parameters are mandatory: `Root<Bits<8>, 1, 2>` is refused. */
  lemma TwoParametersExample()
    ensures ParseRiverType("Root<Bits<8>, 1, 2>").Err?
  {
    var x := "Root<Bits<8>, 1, 2>";
    assert x == "Root" + "<" + "Bits<8>" + ", " + "1" + ", " + "2" + ">";
    var r := Root(Bits(8), RiverParameters(1, 2, 3));
    SmallDecimals();
    LeafText(8, "8");
    TwoParametersRefused(r, 1, 2, "Bits<8>", "1", "2", x);
  }

  /** A comma must be followed by another child: `Group<Bits<4>, >` is refused. */
  lemma DanglingCommaExample()
    ensures ParseRiverType("Group<Bits<4>, >").Err?
  {
    var r := Group([Bits(4)]);
    SmallDecimals();
    LeafText(4, "4");
    assert PrintList(r.children, " ") == "Bits<4>";
    assert Keyword(r) + "<" + (PrintList(r.children, " ") + ("," + " " + (">" + ""))) == "Group<Bits<4>, >";
    DanglingCommaRejected(r, " ", "");
  }
}
