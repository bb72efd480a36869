/**
 * The canonical form of a text: the blanks after each comma are dropped and
 * every run of digits is replaced by the shortest spelling of its value.
 * Two texts the parser reads as the same tree have the same canonical form,
 * and that form is the tree printed with no blanks.
 */
module RiverCanon {
  import opened RiverAst
  import opened Combinators

  function Canon(t: string): string
    decreases |t|
  {
    if t == [] then
      []
    else if t[0] == ',' then
      "," + Canon(Space0(t[1..]))
    else if IsDigit(t[0]) then
      var k := DigitRun(t);
      Decimal(DecValue(t[..k])) + Canon(t[k..])
    else
      [t[0]] + Canon(t[1..])
  }

  /** A text the canonical form keeps character for character: no digit and no comma. */
  predicate Wordy(k: string) {
    forall i | 0 <= i < |k| :: !IsDigit(k[i]) && k[i] != ','
  }

  /** A text that cannot extend a digit run or a run of blanks in front of it. */
  predicate Boundary(b: string) {
    b == [] || (!IsSpace(b[0]) && !IsDigit(b[0]))
  }

  /** A blank run stops at the same place when a non-blank is appended. */
  lemma {:induction false} SpaceRunAppend(x: string, b: string)
    requires b == [] || !IsSpace(b[0])
    ensures SpaceRun(x + b) == SpaceRun(x)
  {
    if x == [] {
      assert x + b == b;
    } else if IsSpace(x[0]) {
      SliceConcat(x, b, 1);
      SpaceRunAppend(x[1..], b);
    }
  }

  /** `space0` stops at the same place when a non-blank is appended. */
  lemma Space0Append(x: string, b: string)
    requires b == [] || !IsSpace(b[0])
    ensures Space0(x + b) == Space0(x) + b
  {
    SpaceRunAppend(x, b);
    SliceConcat(x, b, SpaceRun(x));
  }

  /** A digit run stops at the same place when a non-digit is appended. */
  lemma {:induction false} DigitRunAppend(a: string, b: string)
    requires b == [] || !IsDigit(b[0])
    ensures DigitRun(a + b) == DigitRun(a)
  {
    if a == [] {
      assert a + b == b;
    } else if IsDigit(a[0]) {
      SliceConcat(a, b, 1);
      DigitRunAppend(a[1..], b);
    }
  }

  /** The canonical form of a text that starts with a comma. */
  lemma CanonAtComma(t: string)
    requires t != [] && t[0] == ','
    ensures Canon(t) == "," + Canon(Space0(t[1..]))
  {
  }

  lemma ConcatAssoc(x: string, y: string, z: string)
    ensures x + (y + z) == x + y + z
  {
  }

  /** The canonical form distributes over `a + b` when `a` starts with a
      comma, given that it does over what follows the comma's blanks. */
  lemma CommaStep(a: string, b: string)
    requires a != [] && a[0] == ',' && Boundary(b)
    requires Canon(Space0(a[1..]) + b) == Canon(Space0(a[1..])) + Canon(b)
    ensures Canon(a + b) == Canon(a) + Canon(b)
  {
    var x := Space0(a[1..]);
    SliceConcat(a, b, 1);
    Space0Append(a[1..], b);
    CanonAtComma(a + b);
    CanonAtComma(a);
    ConcatAssoc(",", Canon(x), Canon(b));
  }

  /** The canonical form distributes over `a + b` when `a` starts with a
      digit run, given that it does over what follows the run. */
  lemma DigitsStep(a: string, b: string)
    requires a != [] && IsDigit(a[0]) && Boundary(b)
    requires Canon(a[DigitRun(a)..] + b) == Canon(a[DigitRun(a)..]) + Canon(b)
    ensures Canon(a + b) == Canon(a) + Canon(b)
  {
    DigitRunAppend(a, b);
    SliceConcat(a, b, DigitRun(a));
  }

  /** The canonical form distributes over `a + b` when `a` starts with any
      other character, given that it does over the rest of `a`. */
  lemma OtherStep(a: string, b: string)
    requires a != [] && a[0] != ',' && !IsDigit(a[0])
    requires Canon(a[1..] + b) == Canon(a[1..]) + Canon(b)
    ensures Canon(a + b) == Canon(a) + Canon(b)
  {
    SliceConcat(a, b, 1);
  }

  /** The canonical form distributes over a concatenation whose second part
      starts with neither a blank nor a digit. */
  lemma {:induction false} CanonAppend(a: string, b: string)
    requires Boundary(b)
    ensures Canon(a + b) == Canon(a) + Canon(b)
    decreases |a|
  {
    if a == [] {
      assert a + b == b;
    } else if a[0] == ',' {
      CanonAppend(Space0(a[1..]), b);
      CommaStep(a, b);
    } else if IsDigit(a[0]) {
      CanonAppend(a[DigitRun(a)..], b);
      DigitsStep(a, b);
    } else {
      CanonAppend(a[1..], b);
      OtherStep(a, b);
    }
  }

  /** Letters and brackets are kept as they are. */
  lemma {:induction false} CanonWord(k: string, b: string)
    requires Wordy(k)
    ensures Canon(k + b) == k + Canon(b)
    decreases |k|
  {
    if k == [] {
      assert k + b == b;
    } else {
      SliceConcat(k, b, 1);
      CanonWord(k[1..], b);
    }
  }

  /** A comma and the blanks after it become a bare comma. */
  lemma CanonCommaGap(gap: string, b: string)
    requires AllSpaces(gap)
    requires b == [] || !IsSpace(b[0])
    ensures Canon("," + gap + b) == "," + Canon(b)
  {
    assert ("," + gap + b)[1..] == gap + b;
    Space0Gap(gap, b);
  }

  /** A run of digits becomes the shortest spelling of its value. */
  lemma CanonDigits(ds: string, b: string)
    requires |ds| > 0 && AllDigits(ds)
    requires b == [] || !IsDigit(b[0])
    ensures Canon(ds + b) == Decimal(DecValue(ds)) + Canon(b)
  {
    var t := ds + b;
    DigitRunOf(ds, b);
    assert t[..|ds|] == ds;
    assert t[|ds|..] == b;
  }

  /** What a parser consumed when the input is a known text followed by the rest. */
  lemma ConsumedOf(s: string, c: string, rest: string)
    requires s == c + rest
    ensures IsSuffix(rest, s) && Consumed(s, rest) == c
  {
    SuffixOfConcat(c, rest);
    assert Consumed(s, rest) == s[..|c|];
  }

  /** What two parsers consumed one after the other. */
  lemma ConsumedJoin(s: string, t: string, w: string)
    requires IsSuffix(t, s) && IsSuffix(w, t)
    ensures IsSuffix(w, s) && Consumed(s, w) == Consumed(s, t) + Consumed(t, w)
  {
    SuffixTrans(w, t, s);
    var a := Consumed(s, t);
    var b := Consumed(t, w);
    assert s == (a + b) + w;
    ConsumedOf(s, a + b, w);
  }

  /** The canonical form of what two parsers consumed one after the other,
      when the second part starts with neither a blank nor a digit. */
  lemma Join(s: string, t: string, w: string)
    requires IsSuffix(t, s) && IsSuffix(w, t)
    requires Boundary(Consumed(t, w))
    ensures IsSuffix(w, s)
    ensures Canon(Consumed(s, w)) == Canon(Consumed(s, t)) + Canon(Consumed(t, w))
  {
    ConsumedJoin(s, t, w);
    CanonAppend(Consumed(s, t), Consumed(t, w));
  }
}
