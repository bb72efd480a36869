/**
 * The parsing primitives the River parser is built from: a parse result,
 * `name<...>` brackets, trailing blanks, and unsigned decimal integers.
 * A parser is a function from the remaining input to a `Res`; on success it
 * gives back the input it did not consume and the value it built.
 */
module Combinators {
  import opened RiverAst

  /** Result of running a parser: the unconsumed input and the value, or a
      failure (which consumes nothing). */
  datatype Res<T> = Ok(rest: string, v: T) | Err

  predicate StartsWith(s: string, prefix: string) {
    |prefix| <= |s| && s[..|prefix|] == prefix
  }

  /** `s` starts with the keyword `name` and the opening `<` of its brackets. */
  predicate OpensForm(s: string, name: string) {
    StartsWith(s, name + "<")
  }

  /** A concatenation starts with its first part. */
  lemma StartsWithConcat(a: string, b: string)
    ensures StartsWith(a + b, a)
  {
    assert (a + b)[..|a|] == a;
  }

  /** Cutting a concatenation inside its first part. */
  lemma SliceConcat(a: string, b: string, k: nat)
    requires k <= |a|
    ensures (a + b)[..k] == a[..k] && (a + b)[k..] == a[k..] + b
  {
  }

  /** A text that opens a form starts with its keyword. */
  lemma OpensStarts(s: string, name: string)
    requires OpensForm(s, name)
    ensures StartsWith(s, name)
  {
    assert s[..|name|] == s[..|name| + 1][..|name|];
  }

  /** `t` is what remains of `s` after some prefix of `s` was consumed. */
  predicate IsSuffix(t: string, s: string) {
    |t| <= |s| && s[|s| - |t|..] == t
  }

  /** Being a remainder is transitive. */
  lemma SuffixTrans(t: string, u: string, s: string)
    requires IsSuffix(t, u) && IsSuffix(u, s)
    ensures IsSuffix(t, s)
  {
    assert s[|s| - |t|..] == s[|s| - |u|..][|u| - |t|..];
  }

  /** What follows a consumed prefix is a remainder. */
  lemma SuffixOfConcat(a: string, b: string)
    ensures IsSuffix(b, a + b)
  {
    assert (a + b)[|a|..] == b;
  }

  /** The text between `name<` and the matching `>` of a bracketed form. */
  lemma Bracketed(name: string, s: string, body: string, inside: string, rest: string)
    requires s == name + "<" + body && body == inside + ">" + rest
    ensures s == name + "<" + inside + ">" + rest
    ensures s[|name| + 1..|s| - |rest| - 1] == inside
  {
    assert s == (name + "<") + inside + (">" + rest);
  }

  /** The part of `s` a parser consumed when it left `rest`. */
  function Consumed(s: string, rest: string): (c: string)
    requires IsSuffix(rest, s)
    ensures s == c + rest
  {
    s[..|s| - |rest|]
  }

  predicate IsDigit(c: char) {
    '0' <= c <= '9'
  }

  predicate IsSpace(c: char) {
    c == ' ' || c == '\t'
  }

  predicate AllDigits(s: string) {
    forall i | 0 <= i < |s| :: IsDigit(s[i])
  }

  predicate AllSpaces(s: string) {
    forall i | 0 <= i < |s| :: IsSpace(s[i])
  }

  /** `tag(name)`: the literal text `name`. */
  function Tag(name: string, s: string): (r: Res<string>)
    ensures r.Ok? <==> StartsWith(s, name)
    ensures r.Ok? ==> r.v == name && s == name + r.rest
  {
    if StartsWith(s, name) then Ok(s[|name|..], name) else Err
  }

  /** `char(c)`: the single character `c`. */
  function Char(c: char, s: string): (r: Res<char>)
    ensures r.Ok? <==> s != [] && s[0] == c
    ensures r.Ok? ==> r.v == c && s == [c] + r.rest
  {
    if s != [] && s[0] == c then Ok(s[1..], c) else Err
  }

  /** The opening half of `r#type(name, inner)`: `name` followed by `<`.
      On success the remainder is where `inner` runs. */
  function TypeOpen(name: string, s: string): (r: Res<()>)
    ensures r.Ok? <==> OpensForm(s, name)
    ensures r.Ok? ==> s == name + "<" + r.rest
  {
    match Tag(name, s)
    case Err => Err
    case Ok(t, _) =>
      match Char('<', t)
      case Err => Err
      case Ok(u, _) => Ok(u, ())
  }

  /** The closing half of `r#type(name, inner)`, given what `inner` returned:
      `inner` must succeed and be followed by `>`, which is consumed. */
  function TypeClose<T>(inner: Res<T>): (r: Res<T>)
    ensures r.Ok? <==> inner.Ok? && StartsWith(inner.rest, ">")
    ensures r.Ok? ==> inner.rest == ">" + r.rest && r.v == inner.v
  {
    match inner
    case Err => Err
    case Ok(t, v) =>
      match Char('>', t)
      case Err => Err
      case Ok(u, _) => Ok(u, v)
  }

  /** Length of the run of spaces and tabs at the front of `s`. */
  function SpaceRun(s: string): (k: nat)
    ensures k <= |s| && AllSpaces(s[..k])
    ensures k == |s| || !IsSpace(s[k])
  {
    if s != [] && IsSpace(s[0]) then 1 + SpaceRun(s[1..]) else 0
  }

  /** `space0`: drops the longest run of spaces and tabs at the front. */
  function Space0(s: string): (t: string)
    ensures IsSuffix(t, s)
    ensures AllSpaces(Consumed(s, t))
    ensures t == [] || !IsSpace(t[0])
  {
    s[SpaceRun(s)..]
  }

  /** The blank run of `gap + t` is `gap` when `t` does not start with a blank. */
  lemma {:induction false} SpaceRunOf(gap: string, t: string)
    requires AllSpaces(gap)
    requires t == [] || !IsSpace(t[0])
    ensures SpaceRun(gap + t) == |gap|
  {
    if gap == [] {
      assert gap + t == t;
    } else {
      SliceConcat(gap, t, 1);
      SpaceRunOf(gap[1..], t);
    }
  }

  /** `space0` drops exactly a run of blanks in front of a non-blank. */
  lemma Space0Gap(gap: string, t: string)
    requires AllSpaces(gap)
    requires t == [] || !IsSpace(t[0])
    ensures Space0(gap + t) == t
  {
    SpaceRunOf(gap, t);
    SliceConcat(gap, t, |gap|);
    assert gap[|gap|..] + t == t;
  }

  /** `space_opt(inner)`, given what `inner` returned: the same outcome and
      value, with the blanks after it consumed as well. */
  function SpaceOpt<T>(inner: Res<T>): (r: Res<T>)
    ensures r.Ok? <==> inner.Ok?
    ensures r.Ok? ==> r.v == inner.v && IsSuffix(r.rest, inner.rest)
    ensures r.Ok? ==> AllSpaces(Consumed(inner.rest, r.rest))
    ensures r.Ok? ==> r.rest == [] || !IsSpace(r.rest[0])
  {
    match inner
    case Err => Err
    case Ok(t, v) => Ok(Space0(t), v)
  }

  /** Length of the run of ASCII digits at the front of `s`. */
  function DigitRun(s: string): (k: nat)
    ensures k <= |s| && AllDigits(s[..k])
    ensures k == |s| || !IsDigit(s[k])
  {
    if s != [] && IsDigit(s[0]) then 1 + DigitRun(s[1..]) else 0
  }

  /** `digit1`: the longest non-empty run of ASCII digits at the front. */
  function Digit1(s: string): (r: Res<string>)
    ensures r.Ok? <==> s != [] && IsDigit(s[0])
    ensures r.Ok? ==> s == r.v + r.rest && |r.v| > 0 && AllDigits(r.v)
    ensures r.Ok? ==> r.rest == [] || !IsDigit(r.rest[0])
  {
    var k := DigitRun(s);
    if k == 0 then Err else Ok(s[k..], s[..k])
  }

  function DigitValue(c: char): (d: nat)
    requires IsDigit(c)
    ensures d < 10
  {
    (c as int) - ('0' as int)
  }

  function DigitChar(d: nat): (c: char)
    requires d < 10
    ensures IsDigit(c) && DigitValue(c) == d
  {
    (('0' as int) + d) as char
  }

  /** The value of a string of decimal digits, most significant first
      (the meaning `str::parse` gives it, leading zeros included). */
  function DecValue(ds: string): nat
    requires AllDigits(ds)
  {
    if ds == [] then 0 else 10 * DecValue(ds[..|ds| - 1]) + DigitValue(ds[|ds| - 1])
  }

  /** The shortest decimal spelling of `n`: the inverse of `DecValue`. */
  function Decimal(n: nat): (ds: string)
    ensures |ds| > 0 && AllDigits(ds)
    ensures DecValue(ds) == n
    ensures ds[0] == '0' ==> ds == "0"
    decreases n
  {
    if n < 10 then
      [DigitChar(n)]
    else
      var prefix := Decimal(n / 10);
      var ds := prefix + [DigitChar(n % 10)];
      assert ds[..|ds| - 1] == prefix;
      ds
  }

  /** `usize`: a run of digits read as a machine word; fails without a leading
      digit or when the value does not fit. */
  function Usize(s: string): (r: Res<usize>)
    ensures r.Ok? <==> s != [] && IsDigit(s[0]) && DecValue(s[..DigitRun(s)]) <= USIZE_MAX
    ensures r.Ok? ==>
              && |r.rest| < |s|
              && IsSuffix(r.rest, s)
              && AllDigits(Consumed(s, r.rest))
              && (r.rest == [] || !IsDigit(r.rest[0]))
              && r.v == DecValue(Consumed(s, r.rest))
  {
    match Digit1(s)
    case Err => Err
    case Ok(t, ds) =>
      assert ds == s[..DigitRun(s)];
      if DecValue(ds) <= USIZE_MAX then Ok(t, DecValue(ds)) else Err
  }

  /** `usize` reads any run of digits whose value fits, leading zeros
      included, and consumes exactly that run. */
  lemma UsizeDigits(ds: string, s: string)
    requires |ds| > 0 && AllDigits(ds) && DecValue(ds) <= USIZE_MAX
    requires s == [] || !IsDigit(s[0])
    ensures Usize(ds + s) == Ok(s, DecValue(ds))
  {
    var t := ds + s;
    DigitRunOf(ds, s);
    assert t[..|ds|] == ds;
    assert t[|ds|..] == s;
  }

  /** Reading back the decimal spelling of a machine word gives the word, and
      consumes exactly its digits. */
  lemma UsizeDecimal(n: usize, s: string)
    requires s == [] || !IsDigit(s[0])
    ensures Usize(Decimal(n) + s) == Ok(s, n)
  {
    UsizeDigits(Decimal(n), s);
  }

  /** The digit run of `ds + s` is `ds` when `s` does not start with a digit. */
  lemma {:induction false} DigitRunOf(ds: string, s: string)
    requires AllDigits(ds)
    requires s == [] || !IsDigit(s[0])
    ensures DigitRun(ds + s) == |ds|
  {
    if ds != [] {
      assert (ds + s)[1..] == ds[1..] + s;
      DigitRunOf(ds[1..], s);
    }
  }

  /** A leading zero does not change a decimal value. */
  lemma {:induction false} DecValueLeadingZero(ds: string)
    requires AllDigits(ds)
    ensures AllDigits("0" + ds) && DecValue("0" + ds) == DecValue(ds)
  {
    var z := "0" + ds;
    if ds != [] {
      var init := ds[..|ds| - 1];
      assert z[..|z| - 1] == "0" + init;
      DecValueLeadingZero(init);
    }
  }

  /** `usize` accepts leading zeros: `0` followed by a spelling of `n` reads as `n`. */
  lemma UsizeLeadingZero(n: usize, s: string)
    requires s == [] || !IsDigit(s[0])
    ensures Usize("0" + Decimal(n) + s) == Ok(s, n)
  {
    DecValueLeadingZero(Decimal(n));
    UsizeDigits("0" + Decimal(n), s);
  }
}
