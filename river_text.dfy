/**
 * The textual form of River types, as a reference for the parser: a printer
 * that spells any tree with one chosen run of blanks after every comma.
 */
module RiverText {
  import opened RiverAst
  import opened Combinators

  /** The keyword each form is spelt with. */
  function Keyword(r: River): (k: string)
    ensures |k| >= 3
  {
    match r
    case Bits(_) => "Bits"
    case Root(_, _) => "Root"
    case Group(_) => "Group"
    case Dim(_, _) => "Dim"
    case New(_, _) => "New"
    case Flat(_, _) => "Flat"
    case Rev(_, _) => "Rev"
    case Union(_) => "Union"
  }

  /** `N, C, U` with `gap` after each comma. */
  function PrintParameters(p: Parameters, gap: string): string {
    Decimal(p.elements) + "," + gap + Decimal(p.complexity) + "," + gap + Decimal(p.userbits)
  }

  /** The spelling of `r` with `gap` after every comma: `Bits<w>`,
      `K<child, N, C, U>` for the single-child forms, `K<c1, c2, ...>` for
      the composites. */
  function Print(r: River, gap: string): string
    decreases r
  {
    if r.Bits? then
      "Bits<" + Decimal(r.width) + ">"
    else if r.IsComposite() then
      Keyword(r) + "<" + PrintList(r.children, gap) + ">"
    else
      Keyword(r) + "<" + Print(r.child, gap) + "," + gap + PrintParameters(r.params, gap) + ">"
  }

  /** The children of a composite, separated by a comma and `gap`. */
  function PrintList(cs: seq<River>, gap: string): string
    decreases cs
  {
    if cs == [] then "" else Print(cs[0], gap) + PrintTail(cs[1..], gap)
  }

  /** Each of `cs` preceded by a comma and `gap`. */
  function PrintTail(cs: seq<River>, gap: string): string
    decreases cs
  {
    if cs == [] then "" else "," + gap + Print(cs[0], gap) + PrintTail(cs[1..], gap)
  }

  /** The spelling begins with the form's keyword and `<`. */
  lemma PrintOpens(r: River, gap: string)
    ensures OpensForm(Print(r, gap), Keyword(r))
    ensures Print(r, gap)[0] == Keyword(r)[0]
  {
    var k := Keyword(r) + "<";
    if r.Bits? {
      StartsWithConcat(k, Decimal(r.width) + ">");
    } else if r.IsComposite() {
      StartsWithConcat(k, PrintList(r.children, gap) + ">");
    } else {
      StartsWithConcat(k, Print(r.child, gap) + "," + gap + PrintParameters(r.params, gap) + ">");
    }
    assert Print(r, gap)[0] == Print(r, gap)[..|k|][0];
  }

  /** Whatever follows it, a spelling opens with its keyword, so it starts with
      a letter: neither a blank nor a digit nor a comma. */
  lemma PrintStarts(r: River, gap: string, t: string)
    ensures OpensForm(Print(r, gap) + t, Keyword(r))
    ensures (Print(r, gap) + t)[0] == Keyword(r)[0]
    ensures !IsSpace(Keyword(r)[0]) && !IsDigit(Keyword(r)[0]) && Keyword(r)[0] != ','
  {
    var k := Keyword(r) + "<";
    PrintOpens(r, gap);
    assert (Print(r, gap) + t)[..|k|] == Print(r, gap)[..|k|];
  }
}
