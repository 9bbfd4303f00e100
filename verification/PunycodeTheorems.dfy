/** Main results about decodePunycodeLabel and the section 6.3 encoder. */
module PunycodeTheorems {
  import opened Sequences
  import opened Wrappers
  import opened Punycode
  import opened PunycodeEncoder
  import opened PunycodeInsertions
  import opened PunycodeRoundTrip
  import opened PunycodeEncoding

  // ---- The shape of an encoding ----

  ghost predicate NoDelimiter(s: seq<Scalar>) {
    forall i :: 0 <= i < |s| ==> s[i] != DELIMITER
  }

  lemma {:induction false} IntegerSpelling(q: nat, k: nat, bias: nat)
    ensures LowerDigits(EncodeInteger(q, k, bias)) && NoDelimiter(EncodeInteger(q, k, bias))
    decreases q
  {
    if q >= Threshold(k, bias) {
      var q1, r := EncodeStep(q, k, bias);
      IntegerSpelling(q1, k + 36, bias);
    }
  }

  lemma {:induction false} RenderSpelling(basic: seq<Scalar>, ps: seq<Point>)
    requires Valid(basic, ps)
    ensures LowerDigits(Render(basic, ps)) && NoDelimiter(Render(basic, ps))
    decreases |ps|
  {
    if ps != [] {
      var init, p := UnSnoc(basic, ps);
      RenderSpelling(basic, init);
      IntegerSpelling(Delta(Run(basic, init), p), 36, Run(basic, init).bias);
    }
  }

  lemma PrefixedDelimiter(basic: seq<Scalar>, digits: seq<Scalar>)
    requires NoDelimiter(digits)
    ensures basic == [] ==> LastDelimiter(Prefix(basic) + digits) == -1
    ensures basic != [] ==> LastDelimiter(Prefix(basic) + digits) == |basic|
    ensures (Prefix(basic) + digits)[LastDelimiter(Prefix(basic) + digits) + 1..] == digits
    ensures basic != [] ==> (Prefix(basic) + digits)[..|basic|] == basic
  {
    var s := Prefix(basic) + digits;
    var d := if basic == [] then -1 else |basic|;
    assert d >= 0 ==> s[d] == DELIMITER;
    assert forall j :: d < j < |s| ==> s[j] == digits[j - d - 1];
  }

  lemma DecodePrefixed(basic: seq<Scalar>, digits: seq<Scalar>)
    requires AllBasic(basic) && NoDelimiter(digits) && Prefix(basic) + digits != []
    ensures Decode(Prefix(basic) + digits) == DecodeFrom(Start(basic), digits)
  {
    PrefixedDelimiter(basic, digits);
    EmptyEnds(digits);
  }

  // ---- The decoder undoes exactly the encoder ----

  /** Every integer on the way to u stays within 64 bits. */
  ghost predicate Representable(u: seq<Scalar>) {
    var basic, ps := Below(u, 128), Insertions(u);
    Valid(basic, ps) && Fits(basic, ps)
  }

  /** Upper-case letters become lower-case ones. */
  function Lowered(digits: seq<Scalar>): seq<Scalar> {
    if digits == [] then []
    else [if 65 <= digits[0] <= 90 then digits[0] + 32 else digits[0]] + Lowered(digits[1..])
  }

  lemma {:induction false} LoweredAt(digits: seq<Scalar>, i: nat)
    requires i < |digits|
    ensures |Lowered(digits)| == |digits|
    ensures Lowered(digits)[i] == if 65 <= digits[i] <= 90 then digits[i] + 32 else digits[i]
    decreases |digits|
  {
    if |digits| > 1 {
      LoweredAt(digits[1..], if i > 0 then i - 1 else 0);
    }
  }

  lemma LoweredSpelling(digits: seq<Scalar>)
    ensures LowerDigits(Lowered(digits))
    ensures NoDelimiter(digits) ==> NoDelimiter(Lowered(digits))
    ensures LowerDigits(digits) <==> Lowered(digits) == digits
  {
    if digits != [] {
      LoweredAt(digits, 0);
    }
    forall i | 0 <= i < |Lowered(digits)| ensures !(65 <= Lowered(digits)[i] <= 90)
      ensures digits[i] != DELIMITER ==> Lowered(digits)[i] != DELIMITER
      ensures Lowered(digits)[i] == digits[i] <==> !(65 <= digits[i] <= 90)
    {
      LoweredAt(digits, i);
    }
  }

  lemma {:induction false} IntegerFolds(digits: seq<Scalar>, bias: nat, k: nat, weight: nat, total: nat)
    ensures var read, folded := DecodeInteger(digits, bias, k, weight, total), DecodeInteger(Lowered(digits), bias, k, weight, total);
            folded == if read.None? then None else Some((read.value.0, Lowered(read.value.1)))
    decreases |digits|
  {
    if digits != [] {
      TailOfCons(if 65 <= digits[0] <= 90 then digits[0] + 32 else digits[0], Lowered(digits[1..]));
      IntegerFoldsFirst(digits, bias, k, weight, total);
      var digit := PunycodeDigit(digits[0]);
      if digit.Some? {
        var effect := AddDigit(digit.value, bias, k, weight, total);
        if effect.More? {
          IntegerFolds(digits[1..], bias, k + 36, effect.weight, effect.total);
        }
      }
    }
  }

  lemma IntegerFoldsFirst(digits: seq<Scalar>, bias: nat, k: nat, weight: nat, total: nat)
    requires digits != []
    ensures Lowered(digits) != [] && PunycodeDigit(Lowered(digits)[0]) == PunycodeDigit(digits[0])
    ensures Lowered(digits)[1..] == Lowered(digits[1..])
  {
    TailOfCons(if 65 <= digits[0] <= 90 then digits[0] + 32 else digits[0], Lowered(digits[1..]));
  }

  /** The decoder does not tell upper-case digits from lower-case ones. */
  lemma {:induction false} DigitsFold(s: State, digits: seq<Scalar>)
    ensures DecodeFrom(s, Lowered(digits)) == DecodeFrom(s, digits)
    decreases |digits|
  {
    if digits != [] {
      IntegerFolds(digits, s.bias, 36, 1, s.insertion);
      IntegerFoldsFirst(digits, s.bias, 36, 1, s.insertion);
      DecodeFromUnfolds(s, digits);
      DecodeFromUnfolds(s, Lowered(digits));
      var read := DecodeInteger(digits, s.bias, 36, 1, s.insertion);
      if read.Some? {
        var next := Advance(s, read.value.0);
        if next.Some? {
          DigitsFold(next.value, read.value.1);
        }
      }
    }
  }

  function Digits(s: seq<Scalar>): seq<Scalar> {
    s[LastDelimiter(s) + 1..]
  }

  /** The label with lower-case digits, and no delimiter unless it ends a basic part. */
  function Normal(s: seq<Scalar>): seq<Scalar> {
    Prefix(BasicPart(s)) + Lowered(Digits(s))
  }

  lemma PartsOfNormal(s: seq<Scalar>, basic: seq<Scalar>, digits: seq<Scalar>)
    requires NoDelimiter(digits) && Normal(s) == Prefix(basic) + digits
    ensures BasicPart(s) == basic && Lowered(Digits(s)) == digits
  {
    LoweredSpelling(Digits(s));
    PrefixedDelimiter(BasicPart(s), Lowered(Digits(s)));
    PrefixedDelimiter(basic, digits);
  }

  lemma DecodedIsEncoded(s: seq<Scalar>, u: seq<Scalar>)
    requires Decode(s) == Some(u)
    ensures s != [] && Normal(s) == Encode(u) && Representable(u)
  {
    var basic, digits := BasicPart(s), Lowered(Digits(s));
    DecodeSplits(s);
    DigitsFold(Start(basic), Digits(s));
    LoweredSpelling(Digits(s));
    var ps := DecodedIsRun(basic, [], digits);
    EmptyEnds(digits);
    InsertionsUnique(basic, ps);
    EncodeRenders(u);
    RenderDecodes(basic, ps, [], digits);
  }

  lemma EncodedDecodes(s: seq<Scalar>, u: seq<Scalar>)
    requires s != [] && Normal(s) == Encode(u)
    ensures Decode(s) == if Representable(u) then Some(u) else None
  {
    var basic, ps := Below(u, 128), Insertions(u);
    EncodeRenders(u);
    RenderSpelling(basic, ps);
    PartsOfNormal(s, basic, Render(basic, ps));
    DecodeSplits(s);
    DigitsFold(Start(basic), Digits(s));
    InsertionsBuild(u);
    EmptyEnds(Render(basic, ps));
    RenderDecodes(basic, ps, [], Render(basic, ps));
    assert DecodeFrom(Run(basic, ps), []) == Some(u);
  }

  /** The decoder, exactly: a label decodes to u if and only if it is not empty, is
      u's encoding up to the case of its digits and a delimiter at index 0, and no
      integer on the way leaves 64 bits. */
  lemma DecodesExactly(s: seq<Scalar>, u: seq<Scalar>)
    ensures Decode(s) == Some(u) <==> s != [] && Normal(s) == Encode(u) && Representable(u)
  {
    if Decode(s) == Some(u) {
      DecodedIsEncoded(s, u);
    }
    if s != [] && Normal(s) == Encode(u) {
      EncodedDecodes(s, u);
    }
  }

  // ---- Round trips ----

  /** A Unicode scalar value: a code point that is not a surrogate. */
  predicate UnicodeScalar(c: int) {
    0 <= c <= 0x10FFFF && !(0xD800 <= c <= 0xDFFF)
  }

  /** The strings of all these results are those of Unicode scalar values. */
  lemma ScalarsAreUnicode(c: int)
    ensures IsScalar(c) <==> UnicodeScalar(c)
  {
  }

  lemma NormalOfEncoding(u: seq<Scalar>)
    ensures Normal(Encode(u)) == Encode(u)
  {
    var basic, ps := Below(u, 128), Insertions(u);
    EncodeRenders(u);
    RenderSpelling(basic, ps);
    PrefixedDelimiter(basic, Render(basic, ps));
    LoweredSpelling(Render(basic, ps));
  }

  lemma {:induction false} EncodesSomething(u: seq<Scalar>)
    requires u != []
    ensures Encode(u) != []
  {
    var basic, ps := Below(u, 128), Insertions(u);
    EncodeRenders(u);
    if basic == [] {
      InsertionsEnd(u);
      BelowAllBasic(u);
      var init, p := UnSnoc(basic, ps);
      assert RenderPoint(Run(basic, init), p) != [];
    }
  }

  lemma BoundedIsRepresentable(u: seq<Scalar>)
    requires Bounded(|u|)
    ensures Representable(u)
  {
    InsertionsBuild(u);
    BoundedFitAll(Below(u, 128), Insertions(u));
  }

  /** Decoding the encoding of a non-empty string gives it back
      when no integer on the way leaves 64 bits, which holds whenever
      36 * 0x110000 * (length + 1) fits (Bounded), and nothing otherwise. */
  lemma EncodeThenDecode(u: seq<Scalar>)
    requires u != []
    ensures Decode(Encode(u)) == if Representable(u) then Some(u) else None
    ensures Bounded(|u|) ==> Decode(Encode(u)) == Some(u)
  {
    NormalOfEncoding(u);
    EncodesSomething(u);
    EncodedDecodes(Encode(u), u);
    if Bounded(|u|) {
      BoundedIsRepresentable(u);
    }
  }

  lemma BelowAllBasic(u: seq<Scalar>)
    ensures AllBasic(u) ==> Below(u, 128) == u
  {
    if AllBasic(u) {
      BelowAll(u, 128);
    }
  }

  /** The labels the section 6.3 procedure can write. */
  predicate Canonical(s: seq<Scalar>) {
    LastDelimiter(s) != 0 && LowerDigits(s[LastDelimiter(s) + 1..])
  }

  lemma EncodeCanonical(u: seq<Scalar>)
    ensures Canonical(Encode(u))
  {
    EncodeRenders(u);
    RenderSpelling(Below(u, 128), Insertions(u));
    PrefixedDelimiter(Below(u, 128), Render(Below(u, 128), Insertions(u)));
  }

  /** The basic code points the decoder copies. */
  function BasicPart(s: seq<Scalar>): seq<Scalar> {
    if LastDelimiter(s) == -1 then [] else s[..LastDelimiter(s)]
  }

  lemma SplitCanonical(s: seq<Scalar>)
    requires LastDelimiter(s) != 0
    ensures s == Prefix(BasicPart(s)) + s[LastDelimiter(s) + 1..]
  {
  }

  lemma DecodeSplits(s: seq<Scalar>)
    requires s != []
    ensures Decode(s) == if AllBasic(BasicPart(s)) then DecodeFrom(Start(BasicPart(s)), Digits(s)) else None
  {
    WholeSlices(s);
  }

  /** Every accepted label decodes to its basic part with code points from 128 up
      inserted in strictly increasing (code point, position) order, which its digits
      spell in either case. */
  lemma DecodedInsertions(s: seq<Scalar>) returns (ps: seq<Point>)
    requires Decode(s).Some?
    ensures Valid(BasicPart(s), ps) && Run(BasicPart(s), ps).output == Decode(s).value
    ensures forall i, j :: 0 <= i < j < |ps| ==> Before(ps[i], ps[j])
    ensures Normal(s) == Prefix(BasicPart(s)) + Render(BasicPart(s), ps)
  {
    var basic, digits := BasicPart(s), Lowered(Digits(s));
    DecodeSplits(s);
    DigitsFold(Start(basic), Digits(s));
    LoweredSpelling(Digits(s));
    ps := DecodedIsRun(basic, [], digits);
    ValidSorted(basic, ps);
    EmptyEnds(digits);
  }

  /** An accepted label is the encoding of what it decodes to exactly when its
      digits are lower-case and its last delimiter is not its first character. */
  lemma DecodeThenEncode(s: seq<Scalar>)
    requires Decode(s).Some?
    ensures Encode(Decode(s).value) == s <==> Canonical(s)
  {
    var u := Decode(s).value;
    DecodedIsEncoded(s, u);
    CanonicalIsNormal(s);
    EncodeCanonical(u);
  }

  /** Two accepted labels decode to the same string exactly when they have the same
      normal form; canonical ones only when they are equal. */
  lemma LabelsDecodeAlike(s: seq<Scalar>, t: seq<Scalar>)
    requires Decode(s).Some? && Decode(t).Some?
    ensures Decode(s) == Decode(t) <==> Normal(s) == Normal(t)
    ensures Canonical(s) && Canonical(t) && Decode(s) == Decode(t) ==> s == t
  {
    DecodedIsEncoded(s, Decode(s).value);
    DecodedIsEncoded(t, Decode(t).value);
    if Normal(s) == Normal(t) {
      EncodedDecodes(s, Decode(t).value);
    }
    CanonicalIsNormal(s);
    CanonicalIsNormal(t);
  }

  lemma CanonicalIsNormal(s: seq<Scalar>)
    ensures Canonical(s) ==> Normal(s) == s
  {
    if Canonical(s) {
      SplitCanonical(s);
      LoweredSpelling(Digits(s));
    }
  }

  /** The one departure from section 6.2: a delimiter at index 0 is skipped, so
      "-" is accepted as the empty string, whose encoding is empty. */
  lemma LeadingDelimiterSkipped()
    ensures Decode([DELIMITER]) == Some([]) && Encode([]) == [] && !Canonical([DELIMITER]) && Decode([]) == None
  {
    assert LastDelimiter([DELIMITER]) == 0;
    assert [DELIMITER][1..] == [];
    assert [DELIMITER][..0] == [];
  }
}
