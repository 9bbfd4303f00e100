/** Worked labels: their digits pin every parameter of the decoder. */
module PunycodeVectors {
  import opened Arithmetic
  import opened Wrappers
  import opened Sequences
  import opened Punycode
  import opened PunycodeEncoder
  import opened PunycodeRoundTrip
  import opened PunycodeTheorems

  // ---- Reading the digits of one integer ----

  /** A digit that is not the last one. */
  predicate Goes(c: Scalar, bias: nat, k: nat, weight: nat, total: nat, sum: nat, scaled: nat) {
    PunycodeDigit(c).Some? && AddDigit(PunycodeDigit(c).value, bias, k, weight, total) == More(sum, scaled)
  }

  predicate Stops(c: Scalar, bias: nat, k: nat, weight: nat, total: nat, sum: nat) {
    PunycodeDigit(c).Some? && AddDigit(PunycodeDigit(c).value, bias, k, weight, total) == Last(sum)
  }

  lemma GoesOn(c: Scalar, rest: seq<Scalar>, bias: nat, k: nat, weight: nat, total: nat, sum: nat, scaled: nat)
    requires Goes(c, bias, k, weight, total, sum, scaled)
    ensures DecodeInteger([c] + rest, bias, k, weight, total) == DecodeInteger(rest, bias, k + 36, scaled, sum)
  {
    TailOfCons(c, rest);
    DecodeIntegerUnfolds([c] + rest, bias, k, weight, total);
  }

  lemma TwoDigits(a: Scalar, b: Scalar, rest: seq<Scalar>, bias: nat, start: nat, s1: nat, w1: nat, total: nat)
    requires Goes(a, bias, 36, 1, start, s1, w1) && Stops(b, bias, 72, w1, s1, total)
    ensures DecodeInteger([a, b] + rest, bias, 36, 1, start) == Some((total, rest))
  {
    GoesOn(a, [b] + rest, bias, 36, 1, start, s1, w1);
    TailOfCons(b, rest);
    assert [a, b] + rest == [a] + ([b] + rest);
  }

  lemma ThreeDigits(a: Scalar, b: Scalar, c: Scalar, rest: seq<Scalar>, bias: nat, start: nat,
                    s1: nat, w1: nat, s2: nat, w2: nat, total: nat)
    requires Goes(a, bias, 36, 1, start, s1, w1) && Goes(b, bias, 72, w1, s1, s2, w2) && Stops(c, bias, 108, w2, s2, total)
    ensures DecodeInteger([a, b, c] + rest, bias, 36, 1, start) == Some((total, rest))
  {
    GoesOn(a, [b] + ([c] + rest), bias, 36, 1, start, s1, w1);
    GoesOn(b, [c] + rest, bias, 72, w1, s1, s2, w2);
    TailOfCons(c, rest);
    ThreeHeads(a, b, c, rest);
  }

  lemma FourHeads(a: Scalar, b: Scalar, c: Scalar, d: Scalar, rest: seq<Scalar>)
    ensures [a, b, c, d] + rest == [a] + ([b] + ([c] + ([d] + rest)))
  {
  }

  lemma FourDigits(a: Scalar, b: Scalar, c: Scalar, d: Scalar, rest: seq<Scalar>, bias: nat, start: nat,
                   s1: nat, w1: nat, s2: nat, w2: nat, s3: nat, w3: nat, total: nat)
    requires Goes(a, bias, 36, 1, start, s1, w1) && Goes(b, bias, 72, w1, s1, s2, w2)
    requires Goes(c, bias, 108, w2, s2, s3, w3) && Stops(d, bias, 144, w3, s3, total)
    ensures DecodeInteger([a, b, c, d] + rest, bias, 36, 1, start) == Some((total, rest))
  {
    FourHeads(a, b, c, d, rest);
    GoesOn(a, [b] + ([c] + ([d] + rest)), bias, 36, 1, start, s1, w1);
    GoesOn(b, [c] + ([d] + rest), bias, 72, w1, s1, s2, w2);
    GoesOn(c, [d] + rest, bias, 108, w2, s2, s3, w3);
    TailOfCons(d, rest);
  }

  /** The integer is `total`, which takes the decoder from s to next. */
  lemma PointTo(s: State, digits: seq<Scalar>, rest: seq<Scalar>, total: nat, next: State)
    requires digits != [] && s.insertion <= total && IsScalar(next.codePoint) && 0 < next.insertion <= |s.output| + 1
    requires s.codePoint <= next.codePoint
    requires total == (next.codePoint - s.codePoint) * (|s.output| + 1) + next.insertion - 1
    requires next.bias == Adapt(total - s.insertion, |s.output| + 1, s.insertion == 0)
    requires next.output == InsertAt(s.output, next.insertion - 1, next.codePoint)
    requires DecodeInteger(digits, s.bias, 36, 1, s.insertion) == Some((total, rest))
    ensures DecodeFrom(s, digits) == DecodeFrom(next, rest)
  {
    DivMod(total, next.codePoint - s.codePoint, next.insertion - 1, |s.output| + 1);
    DecodePoint(s, digits, total, rest, next);
  }

  lemma AdaptTo(value: nat, points: nat, first: bool, damped: nat, share: nat)
    requires points > 0 && damped == (if first then value / 700 else value / 2) && share == damped / points
    ensures Adapt(value, points, first) == AdaptLoop(damped + share, 0)
  {
  }

  lemma Joined(a: seq<Scalar>, b: seq<Scalar>)
    requires NoDelimiter(a) && NoDelimiter(b)
    ensures NoDelimiter(a + b)
  {
  }

  // ---- The labels ----

  lemma Nihon1(rest: seq<Scalar>)
    ensures DecodeFrom(Start([]), [119, 103, 118] + rest)
         == DecodeFrom(State(0x65E5, 1, 23, [0x65E5]), rest)
  {
    ThreeDigits(119, 103, 118, rest, 72, 0, 22, 35, 232, 1225, 25957);
    AdaptTo(25957, 1, true, 37, 37);
    assert AdaptLoop(74, 0) == 23;
    assert InsertAt([], 0, 0x65E5) == [0x65E5];
    PointTo(Start([]), [119, 103, 118] + rest, rest, 25957, State(0x65E5, 1, 23, [0x65E5]));
  }

  lemma Nihon2(rest: seq<Scalar>)
    ensures DecodeFrom(State(0x65E5, 1, 23, [0x65E5]), [55, 49, 97] + rest)
         == DecodeFrom(State(0x672C, 2, 45, [0x65E5, 0x672C]), rest)
  {
    ThreeDigits(55, 49, 97, rest, 23, 1, 34, 23, 655, 230, 655);
    AdaptTo(654, 2, false, 327, 163);
    assert AdaptLoop(490, 0) == 45;
    assert InsertAt([0x65E5], 1, 0x672C) == [0x65E5, 0x672C];
    PointTo(State(0x65E5, 1, 23, [0x65E5]), [55, 49, 97] + rest, rest, 655, State(0x672C, 2, 45, [0x65E5, 0x672C]));
  }

  lemma NihonDigits()
    ensures DecodeFrom(Start([]), [119, 103, 118] + [55, 49, 97])
         == Some([0x65E5, 0x672C])
  {
    var d2: seq<Scalar> := [55, 49, 97];
    EmptyEnds(d2);
    Nihon2([]);
    var d1 := [119, 103, 118] + d2;
    Nihon1(d2);
  }

  lemma NihonSpelling()
    ensures NoDelimiter([119, 103, 118] + [55, 49, 97])
  {
    var d2: seq<Scalar> := [55, 49, 97];
    Joined([119, 103, 118], d2);
  }

  /** "wgv71a" is U+65E5 U+672C; its second integer is read under the adapted bias. */
  lemma Nihon()
    ensures Decode([119, 103, 118] + [55, 49, 97])
         == Some([0x65E5, 0x672C])
  {
    NihonDigits();
    NihonSpelling();
    DecodePrefixed([], [119, 103, 118] + [55, 49, 97]);
    EmptyEnds([119, 103, 118] + [55, 49, 97]);
  }

  lemma SampleL1(rest: seq<Scalar>)
    ensures DecodeFrom(Start([51, 66]), [119, 119, 52, 99] + rest)
         == DecodeFrom(State(0x5148, 3, 27, [51, 66, 0x5148]), rest)
  {
    FourDigits(119, 119, 52, 99, rest, 72, 0, 22, 35, 792, 1225, 37542, 12250, 62042);
    AdaptTo(62042, 3, true, 88, 29);
    assert AdaptLoop(117, 0) == 27;
    assert InsertAt([51, 66], 2, 0x5148) == [51, 66, 0x5148];
    PointTo(Start([51, 66]), [119, 119, 52, 99] + rest, rest, 62042, State(0x5148, 3, 27, [51, 66, 0x5148]));
  }

  lemma SampleL2(rest: seq<Scalar>)
    ensures DecodeFrom(State(0x5148, 3, 27, [51, 66, 0x5148]), [53, 101] + rest)
         == DecodeFrom(State(0x516B, 3, 24, [51, 66, 0x516B, 0x5148]), rest)
  {
    TwoDigits(53, 101, rest, 27, 3, 34, 27, 142);
    AdaptTo(139, 4, false, 69, 17);
    assert AdaptLoop(86, 0) == 24;
    assert InsertAt([51, 66, 0x5148], 2, 0x516B) == [51, 66, 0x516B, 0x5148];
    PointTo(State(0x5148, 3, 27, [51, 66, 0x5148]), [53, 101] + rest, rest, 142, State(0x516B, 3, 24, [51, 66, 0x516B, 0x5148]));
  }

  lemma SampleL3(rest: seq<Scalar>)
    ensures DecodeFrom(State(0x516B, 3, 24, [51, 66, 0x516B, 0x5148]), [49, 56, 48, 101] + rest)
         == DecodeFrom(State(0x5E74, 2, 67, [51, 0x5E74, 66, 0x516B, 0x5148]), rest)
  {
    FourDigits(49, 56, 48, 101, rest, 24, 3, 30, 24, 846, 240, 7086, 2400, 16686);
    AdaptTo(16683, 5, false, 8341, 1668);
    assert AdaptLoop(10009, 0) == 67;
    assert InsertAt([51, 66, 0x516B, 0x5148], 1, 0x5E74) == [51, 0x5E74, 66, 0x516B, 0x5148];
    PointTo(State(0x516B, 3, 24, [51, 66, 0x516B, 0x5148]), [49, 56, 48, 101] + rest, rest, 16686, State(0x5E74, 2, 67, [51, 0x5E74, 66, 0x516B, 0x5148]));
  }

  lemma SampleL4(rest: seq<Scalar>)
    ensures DecodeFrom(State(0x5E74, 2, 67, [51, 0x5E74, 66, 0x516B, 0x5148]), [53, 55, 53, 97] + rest)
         == DecodeFrom(State(0x751F, 6, 82, [51, 0x5E74, 66, 0x516B, 0x5148, 0x751F]), rest)
  {
    FourDigits(53, 55, 53, 97, rest, 67, 2, 33, 35, 1188, 1085, 34823, 10850, 34823);
    AdaptTo(34821, 6, false, 17410, 2901);
    assert AdaptLoop(20311, 0) == 82;
    assert InsertAt([51, 0x5E74, 66, 0x516B, 0x5148], 5, 0x751F) == [51, 0x5E74, 66, 0x516B, 0x5148, 0x751F];
    PointTo(State(0x5E74, 2, 67, [51, 0x5E74, 66, 0x516B, 0x5148]), [53, 55, 53, 97] + rest, rest, 34823, State(0x751F, 6, 82, [51, 0x5E74, 66, 0x516B, 0x5148, 0x751F]));
  }

  lemma SampleL5(rest: seq<Scalar>)
    ensures DecodeFrom(State(0x751F, 6, 82, [51, 0x5E74, 66, 0x516B, 0x5148, 0x751F]), [54, 53, 108] + rest)
         == DecodeFrom(State(0x7D44, 4, 67, [51, 0x5E74, 66, 0x7D44, 0x516B, 0x5148, 0x751F]), rest)
  {
    ThreeDigits(54, 53, 108, rest, 82, 6, 38, 35, 1123, 1225, 14598);
    AdaptTo(14592, 7, false, 7296, 1042);
    assert AdaptLoop(8338, 0) == 67;
    assert InsertAt([51, 0x5E74, 66, 0x516B, 0x5148, 0x751F], 3, 0x7D44) == [51, 0x5E74, 66, 0x7D44, 0x516B, 0x5148, 0x751F];
    PointTo(State(0x751F, 6, 82, [51, 0x5E74, 66, 0x516B, 0x5148, 0x751F]), [54, 53, 108] + rest, rest, 14598, State(0x7D44, 4, 67, [51, 0x5E74, 66, 0x7D44, 0x516B, 0x5148, 0x751F]));
  }

  lemma SampleL6(rest: seq<Scalar>)
    ensures DecodeFrom(State(0x7D44, 4, 67, [51, 0x5E74, 66, 0x7D44, 0x516B, 0x5148, 0x751F]), [115, 121, 50, 98] + rest)
         == DecodeFrom(State(0x91D1, 5, 84, [51, 0x5E74, 66, 0x7D44, 0x91D1, 0x516B, 0x5148, 0x751F]), rest)
  {
    FourDigits(115, 121, 50, 98, rest, 67, 4, 22, 35, 862, 1085, 31242, 10850, 42092);
    AdaptTo(42088, 8, false, 21044, 2630);
    assert AdaptLoop(23674, 0) == 84;
    assert InsertAt([51, 0x5E74, 66, 0x7D44, 0x516B, 0x5148, 0x751F], 4, 0x91D1) == [51, 0x5E74, 66, 0x7D44, 0x91D1, 0x516B, 0x5148, 0x751F];
    PointTo(State(0x7D44, 4, 67, [51, 0x5E74, 66, 0x7D44, 0x516B, 0x5148, 0x751F]), [115, 121, 50, 98] + rest, rest, 42092, State(0x91D1, 5, 84, [51, 0x5E74, 66, 0x7D44, 0x91D1, 0x516B, 0x5148, 0x751F]));
  }

  lemma SampleLDigits()
    ensures DecodeFrom(Start([51, 66]), [119, 119, 52, 99] + ([53, 101] + ([49, 56, 48, 101] + ([53, 55, 53, 97] + ([54, 53, 108] + [115, 121, 50, 98])))))
         == Some([51, 0x5E74, 66, 0x7D44, 0x91D1, 0x516B, 0x5148, 0x751F])
  {
    var d6: seq<Scalar> := [115, 121, 50, 98];
    EmptyEnds(d6);
    SampleL6([]);
    var d5 := [54, 53, 108] + d6;
    SampleL5(d6);
    var d4 := [53, 55, 53, 97] + d5;
    SampleL4(d5);
    var d3 := [49, 56, 48, 101] + d4;
    SampleL3(d4);
    var d2 := [53, 101] + d3;
    SampleL2(d3);
    var d1 := [119, 119, 52, 99] + d2;
    SampleL1(d2);
  }

  lemma SampleLSpelling()
    ensures NoDelimiter([119, 119, 52, 99] + ([53, 101] + ([49, 56, 48, 101] + ([53, 55, 53, 97] + ([54, 53, 108] + [115, 121, 50, 98])))))
  {
    var d6: seq<Scalar> := [115, 121, 50, 98];
    Joined([54, 53, 108], d6);
    var d5 := [54, 53, 108] + d6;
    Joined([53, 55, 53, 97], d5);
    var d4 := [53, 55, 53, 97] + d5;
    Joined([49, 56, 48, 101], d4);
    var d3 := [49, 56, 48, 101] + d4;
    Joined([53, 101], d3);
    var d2 := [53, 101] + d3;
    Joined([119, 119, 52, 99], d2);
  }

  /** Sample (L) of section 7.1 of RFC 3492. */
  lemma SampleL()
    ensures Decode([51, 66, 45] + ([119, 119, 52, 99] + ([53, 101] + ([49, 56, 48, 101] + ([53, 55, 53, 97] + ([54, 53, 108] + [115, 121, 50, 98]))))))
         == Some([51, 0x5E74, 66, 0x7D44, 0x91D1, 0x516B, 0x5148, 0x751F])
  {
    SampleLDigits();
    SampleLSpelling();
    DecodePrefixed([51, 66], [119, 119, 52, 99] + ([53, 101] + ([49, 56, 48, 101] + ([53, 55, 53, 97] + ([54, 53, 108] + [115, 121, 50, 98])))));
    assert Prefix([51, 66]) == [51, 66, 45];
  }
}
