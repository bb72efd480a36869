/**
 * Dispatch in the River parser: no keyword is a prefix of another, so the
 * order of the alternatives in `river_type` does not matter, and each input
 * is read by the parser of the keyword it starts with. Also where the
 * repetition inside `nonempty_comma_list` stops.
 */
module RiverParserProofs {
  import opened RiverAst
  import opened Combinators
  import opened RiverParser
  import opened RiverText

  /** The seven forms `river_type` tries, in its order. */
  datatype Form = UnionForm | RevForm | NewForm | DimForm | GroupForm | RootForm | BitsForm

  /** A tree of form `f`, to read off the form's keyword. */
  function Sample(f: Form): (r: River)
    ensures !r.Flat?
  {
    var leaf := Bits(0);
    var p := RiverParameters(0, 0, 0);
    match f
    case UnionForm => Union([])
    case RevForm => Rev(leaf, p)
    case NewForm => New(leaf, p)
    case DimForm => Dim(leaf, p)
    case GroupForm => Group([])
    case RootForm => Root(leaf, p)
    case BitsForm => Bits(0)
  }

  /** The keyword of form `f`. */
  function FormKeyword(f: Form): (k: string)
    ensures |k| >= 3
  {
    Keyword(Sample(f))
  }

  /** The seven keywords, spelt out. */
  lemma FormKeywords()
    ensures FormKeyword(UnionForm) == "Union" && FormKeyword(RevForm) == "Rev"
    ensures FormKeyword(NewForm) == "New" && FormKeyword(DimForm) == "Dim"
    ensures FormKeyword(GroupForm) == "Group" && FormKeyword(RootForm) == "Root"
    ensures FormKeyword(BitsForm) == "Bits"
  {
  }

  /** The form of a tree that is not `Flat`: its keyword is the form's. */
  function FormOf(r: River): (f: Form)
    requires !r.Flat?
    ensures FormKeyword(f) == Keyword(r)
  {
    match r
    case Union(_) => UnionForm
    case Rev(_, _) => RevForm
    case New(_, _) => NewForm
    case Dim(_, _) => DimForm
    case Group(_) => GroupForm
    case Root(_, _) => RootForm
    case Bits(_) => BitsForm
  }

  /** No keyword is a prefix of another: a text starts with at most one. */
  lemma KeywordsNotPrefixes(s: string, f1: Form, f2: Form)
    requires f1 != f2 && StartsWith(s, FormKeyword(f1))
    ensures !StartsWith(s, FormKeyword(f2))
  {
    var k1 := FormKeyword(f1);
    assert s[0] == s[..|k1|][0] == k1[0];
    assert s[1] == s[..|k1|][1] == k1[1];
  }

  lemma NotStartsNotOpens(s: string, name: string)
    requires !StartsWith(s, name)
    ensures !OpensForm(s, name)
  {
    if |s| >= |name| + 1 {
      assert s[..|name|] == s[..|name| + 1][..|name|];
    }
  }

  /** A text that does not start with a form's keyword does not open it. */
  lemma OtherFormNotOpened(s: string, f: Form, other: Form)
    requires other != f && StartsWith(s, FormKeyword(f))
    ensures !OpensForm(s, FormKeyword(other))
  {
    KeywordsNotPrefixes(s, f, other);
    NotStartsNotOpens(s, FormKeyword(other));
  }

  /** Every parser but that of form `f` fails on a text starting with its keyword. */
  lemma OtherFormsFail(s: string, f: Form)
    requires StartsWith(s, FormKeyword(f))
    ensures f != UnionForm ==> ParseUnion(s).Err?
    ensures f != RevForm ==> ParseRev(s).Err?
    ensures f != NewForm ==> ParseNew(s).Err?
    ensures f != DimForm ==> ParseDim(s).Err?
    ensures f != GroupForm ==> ParseGroup(s).Err?
    ensures f != RootForm ==> ParseRoot(s).Err?
    ensures f != BitsForm ==> ParseBits(s).Err?
  {
    FormKeywords();
    if f != UnionForm { OtherFormNotOpened(s, f, UnionForm); }
    if f != RevForm { OtherFormNotOpened(s, f, RevForm); }
    if f != NewForm { OtherFormNotOpened(s, f, NewForm); }
    if f != DimForm { OtherFormNotOpened(s, f, DimForm); }
    if f != GroupForm { OtherFormNotOpened(s, f, GroupForm); }
    if f != RootForm { OtherFormNotOpened(s, f, RootForm); }
    if f != BitsForm { OtherFormNotOpened(s, f, BitsForm); }
  }

  /** The order of the alternatives does not matter: on a text that starts
      with a form's keyword, `river_type` gives what that form's parser gives. */
  lemma ParseByKeyword(s: string, f: Form)
    requires StartsWith(s, FormKeyword(f))
    ensures f == UnionForm ==> ParseRiverType(s) == ParseUnion(s)
    ensures f == RevForm ==> ParseRiverType(s) == ParseRev(s)
    ensures f == NewForm ==> ParseRiverType(s) == ParseNew(s)
    ensures f == DimForm ==> ParseRiverType(s) == ParseDim(s)
    ensures f == GroupForm ==> ParseRiverType(s) == ParseGroup(s)
    ensures f == RootForm ==> ParseRiverType(s) == ParseRoot(s)
    ensures f == BitsForm ==> ParseRiverType(s) == ParseBits(s)
  {
    OtherFormsFail(s, f);
  }

  /* `ParseByKeyword` for each form in turn. */

  lemma RiverTypeIsUnion(s: string)
    requires StartsWith(s, "Union")
    ensures ParseRiverType(s) == ParseUnion(s)
  {
    ParseByKeyword(s, UnionForm);
  }

  lemma RiverTypeIsRev(s: string)
    requires StartsWith(s, "Rev")
    ensures ParseRiverType(s) == ParseRev(s)
  {
    ParseByKeyword(s, RevForm);
  }

  lemma RiverTypeIsNew(s: string)
    requires StartsWith(s, "New")
    ensures ParseRiverType(s) == ParseNew(s)
  {
    ParseByKeyword(s, NewForm);
  }

  lemma RiverTypeIsDim(s: string)
    requires StartsWith(s, "Dim")
    ensures ParseRiverType(s) == ParseDim(s)
  {
    ParseByKeyword(s, DimForm);
  }

  lemma RiverTypeIsGroup(s: string)
    requires StartsWith(s, "Group")
    ensures ParseRiverType(s) == ParseGroup(s)
  {
    ParseByKeyword(s, GroupForm);
  }

  lemma RiverTypeIsRoot(s: string)
    requires StartsWith(s, "Root")
    ensures ParseRiverType(s) == ParseRoot(s)
  {
    ParseByKeyword(s, RootForm);
  }

  lemma RiverTypeIsBits(s: string)
    requires StartsWith(s, "Bits")
    ensures ParseRiverType(s) == ParseBits(s)
  {
    ParseByKeyword(s, BitsForm);
  }

  /** No separator followed by a River starts `s`: where the repetition
      inside `nonempty_comma_list` stops (see `ParseCommaListTail`). */
  predicate ListEnds(s: string) {
    CommaSep(s).Err? || ParseRiverType(CommaSep(s).rest).Err?
  }

  /** Where no separator and River follow, the repetition takes nothing,
      leaving a dangling comma unconsumed. */
  lemma TailStops(s: string)
    requires ListEnds(s)
    ensures ParseCommaListTail(s) == Ok(s, [])
  {
  }

  /** A text that does not start with a comma ends a list. */
  lemma NoCommaListEnds(s: string)
    requires s == [] || s[0] != ','
    ensures ListEnds(s)
  {
  }

  /** What `river_type` accepts opens with the keyword of the tree it built;
      in particular it fails on a text that opens no form. */
  lemma ParsedOpensWithKeyword(s: string)
    ensures ParseRiverType(s).Ok? ==> OpensForm(s, Keyword(ParseRiverType(s).v))
  {
  }
}
