# River type expressions: a verified model of the parser

This project models the front end that reads River type expressions, such as
`Root<Bits<8>, 1, 2, 3>` or `Group<Bits<4>, Bits<8>>`, into the River abstract
syntax tree. The original is written in Rust with `nom` parser combinators.

The model has four parts:

- **The tree** (`RiverAst`). It has the leaf `Bits(width)` and the five
  single-child forms `Root`, `Dim`, `New`, `Flat` and `Rev`. Each single-child
  form carries the parameters N, C and U. The composites `Group` and `Union`
  hold a sequence of children. Machine-word counts are the subset type
  `usize`, bounded by a 32-bit maximum.
- **The combinators** (`Combinators`). These are the combinators the grammar
  is built from, written out as first-order functions:
  - `r#type(name, inner)`, as an opening half and a closing half;
  - `space_opt`;
  - `usize`, over `digit1` and `str::parse`.

  A parser maps the remaining input to `Ok(rest, value)` or `Err`.
- **The parser** (`RiverParser`). It covers:
  - `river_parameters` and `bits`;
  - the two bracket-form generators, with the six forms they produce;
  - `nonempty_comma_list`, specialised to River elements;
  - the alternation `river_type`.

  The functions are mutually recursive. They terminate on the length of the
  input, and a second component orders the functions that call each other on
  the same input.
- **A reference spelling** (`RiverText`) and **a canonical form**
  (`RiverCanon`). These are not part of the original. They are the
  independent definitions the parser is proved against:
  - `Print(r, gap)` spells a tree with the run of blanks `gap` after every
    comma.
  - `Canon(t)` drops the blanks after each comma and rewrites every run of
    digits to the shortest decimal of its value.

What is proved:

- **Round trip** (`RiverRoundTrip`). Every tree the parser can produce is read
  back from its spelling, with the same run of blanks (possibly none) after
  every comma, and nothing after the spelling is consumed. Those trees contain no `Flat` and no empty
  composite.
- **Soundness, the converse** (`RiverSoundness`). Whatever `river_type`
  accepts is, canonically, exactly the blank-free spelling of the tree it
  returns. So two accepted texts give the same tree exactly when their
  canonical forms agree.
- **Dispatch** (`RiverParserProofs`). The seven alternatives are mutually
  exclusive: `river_type` behaves as the parser of the keyword its input
  starts with.
- **Rejections** (`RiverRejections`). The inputs the code refuses are refused:
  - texts that cannot start a keyword, including every `Flat<...>`;
  - numbers that overflow a machine word;
  - blanks before a comma;
  - fewer than three parameters, as in `Root<Bits<8>, 1>` and
    `Root<Bits<8>, 1, 2>`;
  - a single-child form without parameters;
  - empty `Group<>` and `Union<>`;
  - a comma with no child after it, as in `Group<Bits<4>, >`.
- **The unit examples** (`RiverExamples`). Each example in the parser's tests
  is proved as stated, together with a few more texts accepted or refused.

The model follows the parser as the code writes it, which departs from a
looser reading of the grammar, one with optional parameters, a `Flat`
alternative and blanks anywhere:

- **Parameters are mandatory.** A single-child form always has exactly three
  numeric parameters after a comma.
- **`Flat` is never parsed.** It is in the tree but not among the alternatives
  of `river_type`.
- **Blanks are allowed only after commas.** Nowhere else may a blank appear.
- **C is a number in parsed trees.** The tree declares the complexity C as the
  one-level enumeration `Complexity`, but the parser and its tests fill it with
  an integer. `RiverParameters` is therefore generic in C. Parsed trees use an
  integer, and the default parameters use the enumeration.

## Model

| member | source | states |
|---|---|---|
| RiverAst.DefaultComplexity | src/river.rs:7-11 | the default complexity level is `One` |
| RiverAst.OnlyDefaultComplexity | src/river.rs:1-11 | `One` is the only complexity level, so every level equals the default |
| RiverAst.DefaultParameters | src/river.rs:24-32 | the default parameters are one element per handshake, the default complexity and no user bits |
| RiverAst.ShapesPartition | src/river.rs:34-53 | every River node has exactly one of three shapes: the `Bits` leaf, a single-child form with parameters, or a composite with a sequence of children |
| RiverAst.ParseableComposite | src/parser/river.rs:24-30 | a `Group` or `Union` can come out of the parser exactly when it has at least one child and every child can |
| RiverAst.ParseableParameterised | src/parser/river.rs:77-80 | a single-child node can come out of the parser exactly when it is not `Flat` and its child can |
| Combinators.Tag | src/parser/mod.rs:18 | `tag(name)` succeeds exactly when the input starts with `name`, and consumes exactly that |
| Combinators.Char | src/parser/mod.rs:18 | `char(c)` succeeds exactly when the input starts with `c`, and consumes exactly that character |
| Combinators.TypeOpen | src/parser/mod.rs:13-19 | the opening of `r#type` succeeds exactly when the input starts with `name<`, and leaves what follows |
| Combinators.TypeClose | src/parser/mod.rs:13-19 | the closing of `r#type` succeeds exactly when the inner parser succeeded and is followed by `>`; it keeps the inner value and consumes only the `>` |
| Combinators.Space0 | src/parser/mod.rs:27 | `space0` drops only blanks, and all of them: the remainder does not start with a space or tab |
| Combinators.Space0Gap | src/parser/mod.rs:27 | in front of a non-blank, `space0` drops exactly the given run of blanks |
| Combinators.SpaceOpt | src/parser/mod.rs:21-28 | `space_opt(inner)` has the same outcome and value as `inner`, and then consumes only the blanks that follow |
| Combinators.Digit1 | src/parser/mod.rs:43 | `digit1` succeeds exactly when the input starts with a digit, and takes the longest run of digits |
| Combinators.Usize | src/parser/mod.rs:41-44 | `usize` succeeds exactly when the input starts with a digit run whose decimal value fits a machine word; the value is that of the run, and the remainder does not start with a digit |
| Combinators.UsizeDecimal | src/parser/mod.rs:41-44 | `usize` reads back the decimal spelling of any machine word and consumes exactly its digits |
| Combinators.UsizeDigits | src/parser/mod.rs:41-44 | `usize` reads any run of digits whose value fits a machine word, leading zeros included, and consumes exactly that run |
| Combinators.UsizeLeadingZero | src/parser/mod.rs:43 | `str::parse` accepts a leading zero, which does not change the value read |
| RiverParser.CommaSep | src/parser/river.rs:41 | `space_opt(char(','))` succeeds exactly when the input starts with a comma, and consumes it and only blanks after it |
| RiverParser.ParseRiverParameters | src/parser/river.rs:47-63 | `river_parameters` consumes a non-empty prefix and stops before a non-digit |
| RiverParser.ParseBits | src/parser/river.rs:65-68 | `bits` accepts only `Bits<`, a non-empty digit run and `>`; the width is the run's value |
| RiverParser.ParseChildAndParameters | src/parser/river.rs:32-45 | `river_type_parser(name, ...)` accepts only text opening with `name<`, consumes a non-empty prefix and returns a child the parser can produce |
| RiverParser.ParseRoot | src/parser/river.rs:70 | `root` accepts only text opening with `Root<` and returns a `Root` node free of `Flat` and of empty composites |
| RiverParser.ParseDim | src/parser/river.rs:71 | `dim` accepts only text opening with `Dim<` and returns a `Dim` node free of `Flat` and of empty composites |
| RiverParser.ParseNew | src/parser/river.rs:72 | `new` accepts only text opening with `New<` and returns a `New` node free of `Flat` and of empty composites |
| RiverParser.ParseRev | src/parser/river.rs:73 | `rev` accepts only text opening with `Rev<` and returns a `Rev` node free of `Flat` and of empty composites |
| RiverParser.ParseGroup | src/parser/river.rs:74 | `group` accepts only text opening with `Group<` and returns a `Group` with at least one child |
| RiverParser.ParseUnion | src/parser/river.rs:75 | `union` accepts only text opening with `Union<` and returns a `Union` with at least one child |
| RiverParser.ParseCommaList | src/parser/mod.rs:30-39 | `nonempty_comma_list(river_type)` succeeds exactly when its first element parses; the list is non-empty and starts with that element; it stops only where no comma followed by a River comes next |
| RiverParser.ParseCommaListTail | src/parser/mod.rs:38 | the repetition after the first element never fails; when it reads nothing it consumes nothing; it stops only where no comma followed by a River comes next, so it reads as many elements as it can |
| RiverParserProofs.TailStops | src/parser/mod.rs:38 | where no comma followed by a River comes next, the repetition reads nothing and leaves a dangling comma unconsumed |
| RiverParser.ParseRiverType | src/parser/river.rs:77-80 | `river_type` consumes a non-empty prefix and returns a tree free of `Flat` and of empty composites |
| RiverParserProofs.KeywordsNotPrefixes | src/parser/river.rs:79 | a text that starts with one of the seven keywords starts with no other |
| RiverParserProofs.OtherFormsFail | src/parser/river.rs:79 | on a text that starts with one form's keyword, the six other alternatives fail |
| RiverParserProofs.ParseByKeyword | src/parser/river.rs:77-80 | the order of the alternatives does not matter: `river_type` is the parser of the keyword its input starts with |
| RiverParserProofs.ParsedOpensWithKeyword | src/parser/river.rs:77-80 | an accepted text opens with the keyword of the returned tree and `<` |
| RiverRoundTrip.CommaSepGap | src/parser/river.rs:41 | a comma and blanks in front of a non-blank are read as exactly one separator |
| RiverRoundTrip.ParametersRoundTrip | src/parser/river.rs:47-63 | `river_parameters` reads back any three machine words spelt with the same run of blanks after each comma, up to a non-digit |
| RiverRoundTrip.BitsComplete | src/parser/river.rs:65-68 | `bits` accepts `Bits<`, any run of digits whose value fits a machine word, and `>`, and returns that value as the width |
| RiverRoundTrip.BitsExactly | src/parser/river.rs:65-68 | `bits` returns `Bits(w)` and leaves `rest` exactly when the text is `Bits<`, a digit run of value `w`, `>` and `rest` |
| RiverRoundTrip.BitsRoundTrip | src/parser/river.rs:65-68 | `river_type` reads back `Bits<w>` as `Bits(w)` and consumes nothing after it |
| RiverRoundTrip.ParameterisedRoundTrip | src/parser/river.rs:32-45 | once the child is read back, `river_type` reads back a single-child form from its spelling |
| RiverRoundTrip.CompositeRoundTrip | src/parser/river.rs:24-30 | once the children are read back, `river_type` reads back a `Group` or `Union` from its spelling |
| RiverRoundTrip.ParseRoundTrip | src/parser/river.rs:77-80 | `river_type` reads back every tree free of `Flat` and of empty composites from its spelling, with the same run of blanks after every comma, and consumes nothing after it |
| RiverRoundTrip.ListRoundTrip | src/parser/mod.rs:30-39 | `nonempty_comma_list` reads back a non-empty list of such trees, up to any text where no comma followed by a River comes next |
| RiverRoundTrip.TailRoundTrip | src/parser/mod.rs:38 | the repetition reads back the comma-led rest of such a list |
| RiverSoundness.CommaJoin | src/parser/river.rs:41 | canonically, a separator between two consumed parts is a bare comma |
| RiverSoundness.UsizeSound | src/parser/mod.rs:41-44 | what `usize` consumes is, canonically, the shortest decimal spelling of the value it returns |
| RiverSoundness.ParametersSound | src/parser/river.rs:47-63 | what `river_parameters` consumes is, canonically, `N,C,U` for the parameters it returns |
| RiverSoundness.BitsSound | src/parser/river.rs:65-68 | what `bits` consumes is, canonically, `Bits<w>` for the width it returns |
| RiverSoundness.ChildAndParametersSound | src/parser/river.rs:32-45 | what `river_type_parser(name, ...)` consumes is, canonically, `name<`, the child's spelling, a comma, the parameters and `>` |
| RiverSoundness.RootSound | src/parser/river.rs:70 | what `root` consumes is, canonically, the spelling of the tree it returns |
| RiverSoundness.DimSound | src/parser/river.rs:71 | what `dim` consumes is, canonically, the spelling of the tree it returns |
| RiverSoundness.NewSound | src/parser/river.rs:72 | what `new` consumes is, canonically, the spelling of the tree it returns |
| RiverSoundness.RevSound | src/parser/river.rs:73 | what `rev` consumes is, canonically, the spelling of the tree it returns |
| RiverSoundness.GroupSound | src/parser/river.rs:74 | what `group` consumes is, canonically, the spelling of the tree it returns |
| RiverSoundness.UnionSound | src/parser/river.rs:75 | what `union` consumes is, canonically, the spelling of the tree it returns |
| RiverSoundness.ParseSound | src/parser/river.rs:77-80 | what `river_type` consumes is, canonically, the blank-free spelling of the tree it returns |
| RiverSoundness.ListSound | src/parser/mod.rs:30-39 | what `nonempty_comma_list` consumes is, canonically, the spelling of the list it returns |
| RiverSoundness.TailSound | src/parser/mod.rs:38 | what the repetition consumes is, canonically, each element after a bare comma; it is empty or starts with a comma |
| RiverSoundness.PrintInjective | src/parser/river.rs:77-80 | two trees the parser can produce have the same blank-free spelling exactly when they are equal |
| RiverSoundness.CanonOfPrint | src/parser/river.rs:77-80 | a spelling with the same run of blanks after every comma has the blank-free spelling as its canonical form |
| RiverSoundness.SameCanonSameTree | src/parser/river.rs:77-80 | two accepted texts give the same tree exactly when what was consumed of them has the same canonical form |
| RiverRejections.NoInitialNoParse | src/parser/river.rs:77-80 | a text that is empty, or whose first character begins none of the seven keywords, is rejected; this covers every `Flat<...>` and lower-case keywords |
| RiverRejections.UsizeOverflow | src/parser/mod.rs:43 | a number above the machine-word maximum is rejected |
| RiverRejections.BlankBeforeCommaRejected | src/parser/river.rs:50-56 | a blank between a parameter and its comma makes `river_parameters` fail |
| RiverRejections.NoSecondSeparator | src/parser/river.rs:50-56 | `river_parameters` fails when no comma follows the second word |
| RiverRejections.TwoParametersRejected | src/parser/river.rs:47-63 | two parameters are not enough: `river_parameters` fails on them |
| RiverRejections.OneParameterRejected | src/parser/river.rs:47-63 | one parameter is not enough: `river_parameters` fails on it |
| RiverRejections.BadParametersRejected | src/parser/river.rs:32-45 | a single-child form whose parameter text `river_parameters` refuses is rejected by `river_type`, whatever its well-formed child |
| RiverRejections.OneParameterFormRejected | src/parser/river.rs:32-45 | `K<child, e>` is rejected by `river_type` |
| RiverRejections.TwoParametersFormRejected | src/parser/river.rs:32-45 | `K<child, e, c>` is rejected by `river_type` |
| RiverRejections.NoSeparatorAfterChild | src/parser/river.rs:39-42 | a single-child form whose child is followed directly by `>` is rejected |
| RiverRejections.ParametersMandatory | src/parser/river.rs:32-45 | a single-child form spelt without parameters is rejected by `river_type` |
| RiverRejections.DanglingCommaRejected | src/parser/river.rs:24-30 | a `Group` or `Union` whose last child is followed by a comma, blanks and `>` is rejected: the list stops before the comma and `>` does not follow |
| RiverRejections.EmptyGroupRejected | src/parser/river.rs:74 | `Group<>` is rejected |
| RiverRejections.EmptyUnionRejected | src/parser/river.rs:75 | `Union<>` is rejected |
| RiverExamples.ParametersExample | src/parser/river.rs:88-100 | `river_parameters("3, 4, 5")` gives `(3, 4, 5)` and consumes everything |
| RiverExamples.BitsExample | src/parser/river.rs:103-104 | `bits("Bits<8>")` gives `Bits(8)` and consumes everything |
| RiverExamples.BitsWithoutWidth | src/parser/river.rs:105 | `bits("Bits<>")` fails |
| RiverExamples.LowerCaseBits | src/parser/river.rs:106 | `bits("bits<8>")` fails |
| RiverExamples.RootExample | src/parser/river.rs:110-125 | `root("Root<Bits<8>, 1, 2, 3>")` gives the expected `Root` node |
| RiverExamples.GroupExample | src/parser/river.rs:128-133 | `group("Group<Bits<4>, Bits<8>>")` gives the expected `Group` |
| RiverExamples.DimExample | src/parser/river.rs:136-151 | `dim("Dim<Bits<8>, 1, 2, 3>")` gives the expected `Dim` node |
| RiverExamples.NewExample | src/parser/river.rs:154-169 | `new("New<Bits<7>, 3, 2, 1>")` gives the expected `New` node |
| RiverExamples.RevExample | src/parser/river.rs:172-187 | `rev("Rev<Bits<8>, 11, 22, 33>")` gives the expected `Rev` node |
| RiverExamples.UnionExample | src/parser/river.rs:190-195 | `union("Union<Bits<8>, Bits<4>>")` gives the expected `Union` |
| RiverExamples.LeadingZeroWidth | src/parser/river.rs:65-68 | `bits("Bits<08>")` gives `Bits(8)` |
| RiverExamples.TwoParametersExample | src/parser/river.rs:32-45 | `river_type("Root<Bits<8>, 1, 2>")` fails |
| RiverExamples.DanglingCommaExample | src/parser/river.rs:24-30 | `river_type("Group<Bits<4>, >")` fails |
| RiverExamples.RiverTypeExample | src/parser/river.rs:198-200 | `river_type("Bits<8>")` gives `Bits(8)` |

## Left out

- nom's error values are collapsed to a single `Err`. `ErrorKind`, the failing input position and `Incomplete` are not modelled. The parsers are the `complete` variants, so `Incomplete` does not arise.
- `separated_nonempty_list` has guards against a separator or element that consumes nothing. They are not modelled. The separator always consumes its comma, and `river_type` always consumes a non-empty prefix (proved in `RiverParser.ParseRiverType`), so the guards can never fire.
- The width of `usize` is fixed at 32 bits, the word of the WebAssembly target. A 64-bit build only changes `USIZE_MAX`.
- Strings are sequences of characters. Rust's UTF-8 byte slicing is not modelled. Every token the parser compares is ASCII, so character and byte positions agree on what it accepts.
- The `data` parser, the visualiser, the playground front end and the crate root are not part of this model.
- The tree declares the complexity C as the `Complexity` enumeration, but the parser stores a number there. No mapping between the two is invented. Parsed trees carry the number, and only the default parameters use the enumeration.
- RiverRoundTrip.ParseRoundTrip: a text whose commas carry different runs of blanks, such as `Group<Bits<3>,Bits<4>, Bits<5>>`, is not covered by the round trip, which spells every comma with the same run. Such texts are covered only by the converse, `RiverSoundness.ParseSound`: whatever is accepted is canonically the spelling of the tree returned.
- `Flat` has no parser. No proof about `Flat` is needed beyond its rejection, `RiverRejections.NoInitialNoParse`.
