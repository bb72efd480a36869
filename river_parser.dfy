/**
 * The recursive-descent River parser. Each function reads one form from the
 * front of its input and returns the unconsumed remainder with the tree it
 * built. `ParseRiverType` tries the forms in the fixed order
 * `Union, Rev, New, Dim, Group, Root, Bits`; `Flat` is never tried.
 *
 * The recursion terminates because every form consumes at least its keyword
 * and `<` before it parses a child: the measure is the length of the input,
 * with a second component ordering the functions that call each other on the
 * same input.
 */
module RiverParser {
  import opened RiverAst
  import opened Combinators

  /** `space_opt(char(','))`: a comma, then any spaces or tabs. */
  function CommaSep(s: string): (r: Res<char>)
    ensures r.Ok? <==> s != [] && s[0] == ','
    ensures r.Ok? ==> |r.rest| < |s| && IsSuffix(r.rest, s)
    ensures r.Ok? ==> IsSuffix(r.rest, s[1..]) && AllSpaces(Consumed(s[1..], r.rest))
    ensures r.Ok? ==> r.rest == [] || !IsSpace(r.rest[0])
  {
    var c := Char(',', s);
    match SpaceOpt(c)
    case Err => Err
    case Ok(t, v) =>
      SuffixOfConcat([','], c.rest);
      SuffixTrans(t, c.rest, s);
      Ok(t, v)
  }

  /** Five successive remainders, the first strictly shorter, end in a remainder. */
  lemma SuffixChain(s: string, s1: string, s2: string, s3: string, s4: string, s5: string)
    requires |s1| < |s| && IsSuffix(s1, s) && IsSuffix(s2, s1) && IsSuffix(s3, s2)
    requires IsSuffix(s4, s3) && IsSuffix(s5, s4)
    ensures |s5| < |s| && IsSuffix(s5, s)
  {
    SuffixTrans(s2, s1, s);
    SuffixTrans(s3, s2, s);
    SuffixTrans(s4, s3, s);
    SuffixTrans(s5, s4, s);
  }

  /** `river_parameters`: exactly three machine words (elements, complexity,
      user bits) separated by commas, blanks allowed only after a comma. */
  function ParseRiverParameters(s: string): (r: Res<Parameters>)
    ensures r.Ok? ==> |r.rest| < |s| && IsSuffix(r.rest, s)
    ensures r.Ok? ==> r.rest == [] || !IsDigit(r.rest[0])
  {
    match Usize(s)
    case Err => Err
    case Ok(s1, elements) =>
      match CommaSep(s1)
      case Err => Err
      case Ok(s2, _) =>
        match Usize(s2)
        case Err => Err
        case Ok(s3, complexity) =>
          match CommaSep(s3)
          case Err => Err
          case Ok(s4, _) =>
            match Usize(s4)
            case Err => Err
            case Ok(s5, userbits) =>
              SuffixChain(s, s1, s2, s3, s4, s5);
              Ok(s5, RiverParameters(elements, complexity, userbits))
  }

  /** `s` is `Bits<`, a non-empty run of digits whose value is `width`, `>`,
      and then `rest`. */
  predicate BitsSpelling(s: string, rest: string, width: nat) {
    && |rest| + 7 <= |s|
    && var ds := s[5..|s| - |rest| - 1];
    && s == "Bits<" + ds + ">" + rest
    && |ds| > 0 && AllDigits(ds) && DecValue(ds) == width
  }

  lemma BitsSpellingOf(s: string, body: string, ds: string, rest: string)
    requires s == "Bits" + "<" + body && body == ds + ">" + rest
    requires |ds| > 0 && AllDigits(ds)
    ensures BitsSpelling(s, rest, DecValue(ds))
  {
    Bracketed("Bits", s, body, ds, rest);
    assert "Bits" + "<" == "Bits<";
  }

  /** `bits`: `Bits<` digits `>`, and nothing else; the width is the value of
      the digits. */
  function ParseBits(s: string): (r: Res<River>)
    ensures r.Ok? ==> OpensForm(s, "Bits") && r.v.Bits?
    ensures r.Ok? ==> BitsSpelling(s, r.rest, r.v.width)
  {
    match TypeOpen("Bits", s)
    case Err => Err
    case Ok(body, _) =>
      var u := Usize(body);
      match TypeClose(u)
      case Err => Err
      case Ok(t, width) =>
        BitsSpellingOf(s, body, Consumed(body, u.rest), t);
        Ok(t, Bits(width))
  }

  /** `river_type_parser(name, ...)` before its final `map`: `name<`, a child,
      a comma with optional blanks, the parameters, `>`. */
  function ParseChildAndParameters(name: string, s: string): (r: Res<(River, Parameters)>)
    decreases |s|, 0
    ensures r.Ok? ==> OpensForm(s, name)
    ensures r.Ok? ==> |r.rest| < |s| && IsSuffix(r.rest, s)
    ensures r.Ok? ==> Parseable(r.v.0)
  {
    match TypeOpen(name, s)
    case Err => Err
    case Ok(body, _) =>
      match ParseRiverType(body)
      case Err => Err
      case Ok(t1, child) =>
        match CommaSep(t1)
        case Err => Err
        case Ok(t2, _) =>
          match ParseRiverParameters(t2)
          case Err => Err
          case Ok(t3, params) =>
            match TypeClose(Ok(t3, (child, params)))
            case Err => Err
            case Ok(t4, v) =>
              SuffixOfConcat(name + "<", body);
              SuffixOfConcat(">", t4);
              SuffixTrans(t1, body, s);
              SuffixTrans(t2, t1, s);
              SuffixTrans(t3, t2, s);
              SuffixTrans(t4, t3, s);
              Ok(t4, v)
  }

  /** `root`: `Root<child, N, C, U>`. */
  function ParseRoot(s: string): (r: Res<River>)
    decreases |s|, 1
    ensures r.Ok? ==> OpensForm(s, "Root") && r.v.Root?
    ensures r.Ok? ==> |r.rest| < |s| && IsSuffix(r.rest, s) && Parseable(r.v)
  {
    match ParseChildAndParameters("Root", s)
    case Err => Err
    case Ok(t, cp) =>
      var node := Root(cp.0, cp.1);
      assert Parseable(node);
      Ok(t, node)
  }

  /** `dim`: `Dim<child, N, C, U>`. */
  function ParseDim(s: string): (r: Res<River>)
    decreases |s|, 1
    ensures r.Ok? ==> OpensForm(s, "Dim") && r.v.Dim?
    ensures r.Ok? ==> |r.rest| < |s| && IsSuffix(r.rest, s) && Parseable(r.v)
  {
    match ParseChildAndParameters("Dim", s)
    case Err => Err
    case Ok(t, cp) =>
      var node := Dim(cp.0, cp.1);
      assert Parseable(node);
      Ok(t, node)
  }

  /** `new`: `New<child, N, C, U>`. */
  function ParseNew(s: string): (r: Res<River>)
    decreases |s|, 1
    ensures r.Ok? ==> OpensForm(s, "New") && r.v.New?
    ensures r.Ok? ==> |r.rest| < |s| && IsSuffix(r.rest, s) && Parseable(r.v)
  {
    match ParseChildAndParameters("New", s)
    case Err => Err
    case Ok(t, cp) =>
      var node := New(cp.0, cp.1);
      assert Parseable(node);
      Ok(t, node)
  }

  /** `rev`: `Rev<child, N, C, U>`. */
  function ParseRev(s: string): (r: Res<River>)
    decreases |s|, 1
    ensures r.Ok? ==> OpensForm(s, "Rev") && r.v.Rev?
    ensures r.Ok? ==> |r.rest| < |s| && IsSuffix(r.rest, s) && Parseable(r.v)
  {
    match ParseChildAndParameters("Rev", s)
    case Err => Err
    case Ok(t, cp) =>
      var node := Rev(cp.0, cp.1);
      assert Parseable(node);
      Ok(t, node)
  }

  /** `group`: `Group<` a non-empty comma list of children `>`. */
  function ParseGroup(s: string): (r: Res<River>)
    decreases |s|, 1
    ensures r.Ok? ==> OpensForm(s, "Group") && r.v.Group?
    ensures r.Ok? ==> |r.rest| < |s| && IsSuffix(r.rest, s) && Parseable(r.v)
  {
    match TypeOpen("Group", s)
    case Err => Err
    case Ok(body, _) =>
      var list := ParseCommaList(body);
      match TypeClose(list)
      case Err => Err
      case Ok(t, children) =>
        var node := Group(children);
        ParseableComposite(node);
        SuffixOfConcat("Group" + "<", body);
        SuffixOfConcat(">", t);
        SuffixTrans(list.rest, body, s);
        SuffixTrans(t, list.rest, s);
        Ok(t, node)
  }

  /** `union`: `Union<` a non-empty comma list of children `>`. */
  function ParseUnion(s: string): (r: Res<River>)
    decreases |s|, 1
    ensures r.Ok? ==> OpensForm(s, "Union") && r.v.Union?
    ensures r.Ok? ==> |r.rest| < |s| && IsSuffix(r.rest, s) && Parseable(r.v)
  {
    match TypeOpen("Union", s)
    case Err => Err
    case Ok(body, _) =>
      var list := ParseCommaList(body);
      match TypeClose(list)
      case Err => Err
      case Ok(t, children) =>
        var node := Union(children);
        ParseableComposite(node);
        SuffixOfConcat("Union" + "<", body);
        SuffixOfConcat(">", t);
        SuffixTrans(list.rest, body, s);
        SuffixTrans(t, list.rest, s);
        Ok(t, node)
  }

  /** `nonempty_comma_list(river_type)`: one River, then as many more as are
      each preceded by a comma (and optional blanks). Fails exactly when the
      first element fails, and stops only where no separator and River follow. */
  function ParseCommaList(s: string): (r: Res<seq<River>>)
    decreases |s|, 3
    ensures r.Ok? <==> ParseRiverType(s).Ok?
    ensures r.Ok? ==> |r.v| > 0 && r.v[0] == ParseRiverType(s).v
    ensures r.Ok? ==> |r.rest| < |s| && IsSuffix(r.rest, s)
    ensures r.Ok? ==> AllParseable(r.v)
    ensures r.Ok? ==> CommaSep(r.rest).Err? || ParseRiverType(CommaSep(r.rest).rest).Err?
  {
    match ParseRiverType(s)
    case Err => Err
    case Ok(t, first) =>
      var more := ParseCommaListTail(t);
      AllParseableCons(first, more.v);
      SuffixTrans(more.rest, t, s);
      Ok(more.rest, [first] + more.v)
  }

  /** The repetition inside `nonempty_comma_list`: never fails; stops, leaving
      the comma unconsumed, at the first comma not followed by a River, and
      where it stops no further separator and River follow. */
  function ParseCommaListTail(s: string): (r: Res<seq<River>>)
    decreases |s|, 3
    ensures r.Ok? && IsSuffix(r.rest, s)
    ensures r.v == [] ==> r.rest == s
    ensures AllParseable(r.v)
    ensures CommaSep(r.rest).Err? || ParseRiverType(CommaSep(r.rest).rest).Err?
  {
    match CommaSep(s)
    case Err => Ok(s, [])
    case Ok(t, _) =>
      match ParseRiverType(t)
      case Err => Ok(s, [])
      case Ok(u, x) =>
        var more := ParseCommaListTail(u);
        AllParseableCons(x, more.v);
        SuffixTrans(u, t, s);
        SuffixTrans(more.rest, u, s);
        Ok(more.rest, [x] + more.v)
  }

  /** `river_type`: the first of `Union, Rev, New, Dim, Group, Root, Bits` that
      succeeds. What it accepts is a non-empty prefix of the input, and the
      tree is free of `Flat` and of empty `Group`/`Union` nodes. */
  function ParseRiverType(s: string): (r: Res<River>)
    decreases |s|, 2
    ensures r.Ok? ==> |r.rest| < |s| && IsSuffix(r.rest, s)
    ensures r.Ok? ==> Parseable(r.v)
  {
    var union := ParseUnion(s);
    if union.Ok? then union else
    var rev := ParseRev(s);
    if rev.Ok? then rev else
    var nu := ParseNew(s);
    if nu.Ok? then nu else
    var dim := ParseDim(s);
    if dim.Ok? then dim else
    var group := ParseGroup(s);
    if group.Ok? then group else
    var root := ParseRoot(s);
    if root.Ok? then root else
    ParseBits(s)
  }
}
