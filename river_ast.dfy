/**
 * The River abstract syntax tree: the stream types of the type-description
 * language (`Bits`, `Root`, `Group`, `Dim`, `New`, `Flat`, `Rev`, `Union`)
 * and the parameters attached to the single-child forms.
 */
module RiverAst {

  /** Largest value of the machine word used for every count in the tree
      (the 32-bit word of the WebAssembly target). */
  const USIZE_MAX: nat := 0xFFFF_FFFF

  /** Unsigned machine-word integers. */
  type usize = n: nat | n <= USIZE_MAX

  /** Complexity levels: a closed enumeration with a single level. */
  datatype Complexity = One

  /** The default complexity level. */
  function DefaultComplexity(): (c: Complexity)
    ensures c == One
  {
    One
  }

  /** `One` is the only complexity level, so every level is the default. */
  lemma OnlyDefaultComplexity(d: Complexity)
    ensures d == DefaultComplexity()
  {
  }

  /** Parameters of the single-child River forms: N (elements per handshake),
      C (complexity) and U (user bits). The type of C is a parameter because
      the tree declares it as the `Complexity` enumeration while the parser
      fills it with an integer; parsed trees use `Parameters`. */
  datatype RiverParameters<C> = RiverParameters(elements: usize, complexity: C, userbits: usize)

  /** The parameters the parser produces. */
  type Parameters = RiverParameters<usize>

  /** The default parameters: one element per handshake, default complexity,
      no user bits. */
  function DefaultParameters(): (p: RiverParameters<Complexity>)
    ensures p.elements == 1 && p.userbits == 0
    ensures p.complexity == DefaultComplexity()
  {
    RiverParameters(1, DefaultComplexity(), 0)
  }

  /** River types. `Bits` is the only leaf; the five parameterised forms own
      one child each, `Group` and `Union` an ordered (possibly empty) sequence. */
  datatype River =
    | Bits(width: usize)
    | Root(child: River, params: Parameters)
    | Group(children: seq<River>)
    | Dim(child: River, params: Parameters)
    | New(child: River, params: Parameters)
    | Flat(child: River, params: Parameters)
    | Rev(child: River, params: Parameters)
    | Union(children: seq<River>)
  {
    /** True for the five forms that own one child and one parameter record. */
    predicate IsParameterised() {
      Root? || Dim? || New? || Flat? || Rev?
    }

    /** True for the two forms that own a sequence of children. */
    predicate IsComposite() {
      Group? || Union?
    }
  }

  /** Every node falls in exactly one of the three shapes: leaf, parameterised
      single-child form, or composite. */
  lemma ShapesPartition(r: River)
    ensures r.Bits? || r.IsParameterised() || r.IsComposite()
    ensures !(r.Bits? && r.IsParameterised())
    ensures !(r.Bits? && r.IsComposite())
    ensures !(r.IsParameterised() && r.IsComposite())
  {
  }

  /** A tree without any `Flat` node. */
  predicate FlatFree(r: River) {
    match r
    case Bits(_) => true
    case Flat(_, _) => false
    case Root(c, _) => FlatFree(c)
    case Dim(c, _) => FlatFree(c)
    case New(c, _) => FlatFree(c)
    case Rev(c, _) => FlatFree(c)
    case Group(cs) => forall i | 0 <= i < |cs| :: FlatFree(cs[i])
    case Union(cs) => forall i | 0 <= i < |cs| :: FlatFree(cs[i])
  }

  /** A tree whose every `Group` and `Union` has at least one child. */
  predicate NonEmptyComposites(r: River) {
    match r
    case Bits(_) => true
    case Root(c, _) => NonEmptyComposites(c)
    case Dim(c, _) => NonEmptyComposites(c)
    case New(c, _) => NonEmptyComposites(c)
    case Flat(c, _) => NonEmptyComposites(c)
    case Rev(c, _) => NonEmptyComposites(c)
    case Group(cs) => |cs| > 0 && forall i | 0 <= i < |cs| :: NonEmptyComposites(cs[i])
    case Union(cs) => |cs| > 0 && forall i | 0 <= i < |cs| :: NonEmptyComposites(cs[i])
  }

  /** The trees the parser can produce. */
  predicate Parseable(r: River) {
    FlatFree(r) && NonEmptyComposites(r)
  }

  /** Every tree of the sequence is `Parseable`. */
  predicate AllParseable(cs: seq<River>) {
    forall i | 0 <= i < |cs| :: Parseable(cs[i])
  }

  lemma AllParseableCons(c: River, cs: seq<River>)
    requires Parseable(c) && AllParseable(cs)
    ensures AllParseable([c] + cs)
  {
  }

  /** A composite is `Parseable` exactly when its children are, and there is one. */
  lemma ParseableComposite(r: River)
    requires r.IsComposite()
    ensures Parseable(r) <==> |r.children| > 0 && AllParseable(r.children)
  {
  }

  /** A `Parseable` parameterised node is not `Flat`, and its child is `Parseable`. */
  lemma ParseableParameterised(r: River)
    requires r.IsParameterised()
    ensures Parseable(r) <==> !r.Flat? && Parseable(r.child)
  {
  }
}
