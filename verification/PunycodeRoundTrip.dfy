/** The decoder and the section 6.3 encoder undo each other. */
module PunycodeRoundTrip {
  import opened Arithmetic
  import opened Sequences
  import opened Wrappers
  import opened Punycode
  import opened PunycodeEncoder
  import opened PunycodeInsertions

  // ---- Variable-length integers ----

  lemma ScaledPart(d: int, q1: int, s: int, w: int, q: int)
    requires q == d + q1 * s
    ensures d * w + q1 * (s * w) == q * w
  {
    Reassociate(q1, s, w);
    Distribute(d, q1 * s, w);
  }

  lemma AtMostWhole(part: int, rest: int, whole: int)
    requires part >= 0 && part + rest == whole
    ensures rest <= whole
  {
  }

  /** A weight grows by at least one and at most 35 times. */
  lemma ScaledWeight(s: nat, w: nat)
    requires 1 <= s <= 35 && w > 0
    ensures 0 < s * w <= 35 * w
  {
    ProductMonotone(1, s, w);
    ProductMonotone(s, 35, w);
  }

  lemma SplitScaled(q: nat, d: nat, w: nat, s: nat, q1: nat)
    requires 1 <= s <= 35 && w > 0 && q > 0 && q == d + q1 * s
    ensures s * w > 0
    ensures d * w + q1 * (s * w) == q * w
    ensures q1 * (s * w) <= q * w
    ensures s * w <= 35 * (q * w)
  {
    ScaledPart(d, q1, s, w, q);
    ScaledWeight(s, w);
    ProductMonotone(0, d, w);
    AtMostWhole(d * w, q1 * (s * w), q * w);
    ProductMonotone(1, q, w);
  }

  lemma EncodeStep(q: nat, k: nat, bias: nat) returns (q1: nat, r: nat)
    requires q >= Threshold(k, bias)
    ensures var t := Threshold(k, bias);
            && q1 < q && q1 * (36 - t) + r == q - t && r < 36 - t
            && EncodeInteger(q, k, bias) == [DigitScalar(t + r)] + EncodeInteger(q1, k + 36, bias)
  {
    var t := Threshold(k, bias);
    ThresholdAgrees(k, bias);
    Shrinks(q, t);
    q1, r := (q - t) / (36 - t), (q - t) % (36 - t);
  }

  lemma EncodeLast(q: nat, k: nat, bias: nat)
    requires q < Threshold(k, bias)
    ensures EncodeInteger(q, k, bias) == [DigitScalar(q)]
  {
    ThresholdAgrees(k, bias);
  }

  lemma ConsUnfolds(d: nat, tail: seq<Scalar>, bias: nat, k: nat, weight: nat, total: nat)
    requires d < 36
    ensures var effect := AddDigit(d, bias, k, weight, total);
            DecodeInteger([DigitScalar(d)] + tail, bias, k, weight, total) ==
              if effect.Overflow? then None
              else if effect.Last? then Some((effect.total, tail))
              else DecodeInteger(tail, bias, k + 36, effect.weight, effect.total)
  {
    DecodeIntegerUnfolds([DigitScalar(d)] + tail, bias, k, weight, total);
    TailOfCons(DigitScalar(d), tail);
  }

  ghost predicate Weighs(q: nat, weight: nat, addend: nat) {
    weight > 0 && addend == q * weight
  }

  lemma LastDigit(q: nat, bias: nat, k: nat, weight: nat, total: nat, addend: nat)
    requires Weighs(q, weight, addend) && q < Threshold(k, bias)
    ensures AddDigit(q, bias, k, weight, total) == if total + addend < U64 then Last(total + addend) else Overflow
  {
  }

  /** Encoding one more digit and decoding it keep total + addend. */
  lemma MoreDigit(q: nat, bias: nat, k: nat, weight: nat, total: nat, addend: nat, q1: nat, r: nat)
    returns (sum: nat, scaled: nat, rest: nat)
    requires Weighs(q, weight, addend) && q >= Threshold(k, bias)
    requires q1 * (36 - Threshold(k, bias)) + r == q - Threshold(k, bias)
    ensures Weighs(q1, scaled, rest) && sum + rest == total + addend && rest <= addend && scaled <= 35 * addend
    ensures scaled == weight * (36 - Threshold(k, bias))
    ensures AddDigit(Threshold(k, bias) + r, bias, k, weight, total) == if sum < U64 && scaled < U64 then More(sum, scaled) else Overflow
  {
    var t := Threshold(k, bias);
    SplitScaled(q, t + r, weight, 36 - t, q1);
    sum, scaled := total + (t + r) * weight, weight * (36 - t);
    rest := q1 * scaled;
    ProductMonotone(0, t + r, weight);
  }

  /** The weights of the digits of q all fit in 64 bits. */
  ghost predicate WeightsFit(q: nat, k: nat, bias: nat, weight: nat)
    decreases q
  {
    var t := Bootstring.Threshold(k, bias);
    q < t || (Shrinks(q, t); weight * (36 - t) < U64 && WeightsFit((q - t) / (36 - t), k + 36, bias, weight * (36 - t)))
  }

  lemma WeightsStep(q: nat, k: nat, bias: nat, weight: nat, q1: nat, r: nat)
    requires q >= Threshold(k, bias) && r < 36 - Threshold(k, bias)
    requires q1 * (36 - Threshold(k, bias)) + r == q - Threshold(k, bias)
    ensures var scaled := weight * (36 - Threshold(k, bias));
            WeightsFit(q, k, bias, weight) <==> scaled < U64 && WeightsFit(q1, k + 36, bias, scaled)
  {
    ThresholdAgrees(k, bias);
    DivMod(q - Threshold(k, bias), q1, r, 36 - Threshold(k, bias));
  }

  lemma WeightsLast(q: nat, k: nat, bias: nat, weight: nat)
    requires q < Threshold(k, bias)
    ensures WeightsFit(q, k, bias, weight)
  {
    ThresholdAgrees(k, bias);
  }

  /** Decoding an encoded integer gives it back exactly when the total and the
      weights of its digits fit in 64 bits, and overflows otherwise. */
  lemma {:induction false} IntegerRoundTrip(q: nat, k: nat, bias: nat, weight: nat, total: nat, addend: nat, tail: seq<Scalar>)
    requires Weighs(q, weight, addend)
    ensures DecodeInteger(EncodeInteger(q, k, bias) + tail, bias, k, weight, total) ==
              if total + addend < U64 && WeightsFit(q, k, bias, weight) then Some((total + addend, tail)) else None
    decreases q
  {
    var t := Threshold(k, bias);
    if q < t {
      EncodeLast(q, k, bias);
      WeightsLast(q, k, bias, weight);
      LastDigit(q, bias, k, weight, total, addend);
      ConsUnfolds(q, tail, bias, k, weight, total);
    } else {
      var q1, r := EncodeStep(q, k, bias);
      var sum, scaled, rest := MoreDigit(q, bias, k, weight, total, addend, q1, r);
      WeightsStep(q, k, bias, weight, q1, r);
      HeadTail(DigitScalar(t + r), EncodeInteger(q1, k + 36, bias), tail);
      ConsUnfolds(t + r, EncodeInteger(q1, k + 36, bias) + tail, bias, k, weight, total);
      IntegerRoundTrip(q1, k + 36, bias, scaled, sum, rest, tail);
    }
  }

  /** They do when 35 times the addend fits. */
  lemma {:induction false} SmallWeightsFit(q: nat, k: nat, bias: nat, weight: nat, addend: nat)
    requires Weighs(q, weight, addend) && 35 * addend < U64
    ensures WeightsFit(q, k, bias, weight)
    decreases q
  {
    if q < Threshold(k, bias) {
      WeightsLast(q, k, bias, weight);
    } else {
      var q1, r := EncodeStep(q, k, bias);
      var sum, scaled, rest := MoreDigit(q, bias, k, weight, 0, addend, q1, r);
      WeightsStep(q, k, bias, weight, q1, r);
      SmallWeightsFit(q1, k + 36, bias, scaled, rest);
    }
  }

  predicate LowerDigits(s: seq<Scalar>) {
    forall i :: 0 <= i < |s| ==> !(65 <= s[i] <= 90)
  }

  /** The integer that continues with q1 after digit d. */
  lemma Rebuild(q1: nat, d: nat, k: nat, bias: nat, weight: nat, total: nat, sum: nat, scaled: nat, rest: nat)
    returns (q: nat, addend: nat)
    requires AddDigit(d, bias, k, weight, total) == More(sum, scaled) && d < 36 && weight > 0
    requires Weighs(q1, scaled, rest)
    ensures var t := Threshold(k, bias); t <= d && q >= t && q1 * (36 - t) + (d - t) == q - t
    ensures Weighs(q, weight, addend) && sum + rest == total + addend
  {
    var t := Threshold(k, bias);
    q := d + q1 * (36 - t);
    addend := d * weight + rest;
    ProductMonotone(0, q1, 36 - t);
    Reassociate(q1, 36 - t, weight);
    Distribute(d, q1 * (36 - t), weight);
  }

  /** For one bias an integer has one lower-case spelling. */
  lemma {:induction false} IntegerUnique(digits: seq<Scalar>, bias: nat, k: nat, weight: nat, total: nat)
    returns (q: nat, addend: nat)
    requires DecodeInteger(digits, bias, k, weight, total).Some? && LowerDigits(digits) && weight > 0
    ensures Weighs(q, weight, addend)
    ensures var (sum, rest) := DecodeInteger(digits, bias, k, weight, total).value;
            sum == total + addend && digits == EncodeInteger(q, k, bias) + rest
    decreases |digits|
  {
    var d, tail, t := PunycodeDigit(digits[0]).value, digits[1..], Threshold(k, bias);
    HeadFirst(digits);
    assert digits[0] == DigitScalar(d);
    ConsUnfolds(d, tail, bias, k, weight, total);
    var effect := AddDigit(d, bias, k, weight, total);
    if effect.Last? {
      q, addend := d, d * weight;
    } else {
      ScaledPositive(d, bias, k, weight, total);
      var q1, more := IntegerUnique(tail, bias, k + 36, effect.weight, effect.total);
      q, addend := Rebuild(q1, d, k, bias, weight, total, effect.total, effect.weight, more);
      var q2, r := EncodeStep(q, k, bias);
      QuotientUnique(q2, r, q1, d - t, 36 - t);
      HeadTail(digits[0], EncodeInteger(q1, k + 36, bias), DecodeInteger(digits, bias, k, weight, total).value.1);
    }
  }

  lemma ScaledPositive(d: nat, bias: nat, k: nat, weight: nat, total: nat)
    requires weight > 0 && AddDigit(d, bias, k, weight, total).More?
    ensures AddDigit(d, bias, k, weight, total).weight > 0
  {
    ProductMonotone(1, 36 - Threshold(k, bias), weight);
  }

  lemma HeadFirst(s: seq<Scalar>)
    requires s != []
    ensures s == [s[0]] + s[1..]
  {
  }

  // ---- The decoder on rendered insertions ----

  /** Long enough for every running total of a string of this length. */
  ghost predicate Bounded(length: nat) {
    length <= 459926432532
  }

  lemma BoundedMeans(length: nat)
    ensures Bounded(length) <==> 36 * 0x110000 * (length + 1) < U64
  {
  }

  lemma BoundedShorter(length: nat)
    requires Bounded(length + 1)
    ensures Bounded(length)
  {
  }

  lemma AdvanceInserts(s: State, p: Point, total: nat)
    requires Follows(s, p) && total == s.insertion + Delta(s, p)
    ensures Advance(s, total) == Some(Insert(s, p))
  {
    DivMod(total, p.codePoint - s.codePoint, p.position, |s.output| + 1);
  }

  lemma DecodePoint(s: State, digits: seq<Scalar>, total: nat, tail: seq<Scalar>, next: State)
    requires digits != [] && s.insertion <= total
    requires DecodeInteger(digits, s.bias, 36, 1, s.insertion) == Some((total, tail))
    requires Advance(s, total) == Some(next)
    ensures DecodeFrom(s, digits) == DecodeFrom(next, tail)
  {
  }

  lemma BoundedFits(s: State, p: Point)
    requires Follows(s, p) && Bounded(|s.output| + 1)
    ensures s.insertion + Delta(s, p) < U64 && 35 * Delta(s, p) < U64
  {
    BoundedMeans(|s.output| + 1);
    ProductMonotone(p.codePoint - s.codePoint, 0x110000, |s.output| + 1);
  }

  /** Reading this insertion stays within 64 bits. */
  ghost predicate PointFits(s: State, p: Point)
    requires Follows(s, p)
  {
    s.insertion + Delta(s, p) < U64 && WeightsFit(Delta(s, p), 36, s.bias, 1)
  }

  ghost predicate Fits(basic: seq<Scalar>, ps: seq<Point>)
    requires Valid(basic, ps)
    decreases |ps|
  {
    ps != [] ==> Fits(basic, ps[..|ps| - 1]) && PointFits(Run(basic, ps[..|ps| - 1]), ps[|ps| - 1])
  }

  /** One rendered insertion moves the decoder exactly that far, or overflows. */
  lemma StepDecodes(s: State, p: Point, tail: seq<Scalar>)
    requires Follows(s, p)
    ensures DecodeFrom(s, RenderPoint(s, p) + tail) == if PointFits(s, p) then DecodeFrom(Insert(s, p), tail) else None
  {
    var q, digits := Delta(s, p), RenderPoint(s, p) + tail;
    IntegerRoundTrip(q, 36, s.bias, 1, s.insertion, q, tail);
    if PointFits(s, p) {
      AdvanceInserts(s, p, s.insertion + q);
      DecodePoint(s, digits, s.insertion + q, tail, Insert(s, p));
    } else {
      DecodeFromUnfolds(s, digits);
    }
  }

  lemma {:induction false} RenderDecodes(basic: seq<Scalar>, ps: seq<Point>, tail: seq<Scalar>, whole: seq<Scalar>)
    requires Valid(basic, ps) && whole == Render(basic, ps) + tail
    ensures DecodeFrom(Start(basic), whole) == if Fits(basic, ps) then DecodeFrom(Run(basic, ps), tail) else None
    decreases |ps|
  {
    if ps == [] {
      EmptyEnds(tail);
    } else {
      var init, p := UnSnoc(basic, ps);
      var s := Run(basic, init);
      Associative(Render(basic, init), RenderPoint(s, p), tail);
      RenderDecodes(basic, init, RenderPoint(s, p) + tail, whole);
      StepDecodes(s, p, tail);
    }
  }

  lemma {:induction false} BoundedFitAll(basic: seq<Scalar>, ps: seq<Point>)
    requires Valid(basic, ps) && Bounded(|basic| + |ps|)
    ensures Fits(basic, ps)
    decreases |ps|
  {
    if ps != [] {
      var init, p := UnSnoc(basic, ps);
      var s := Run(basic, init);
      BoundedShorter(|basic| + |init|);
      BoundedFitAll(basic, init);
      BoundedFits(s, p);
      SmallWeightsFit(Delta(s, p), 36, s.bias, 1, Delta(s, p));
    }
  }

  /** The insertion a decoded total stands for. */
  lemma PointOf(s: State, total: nat) returns (p: Point)
    requires s.insertion <= |s.output| && s.insertion <= total && Advance(s, total).Some?
    ensures Follows(s, p) && p.codePoint >= s.codePoint
    ensures total == s.insertion + Delta(s, p)
    ensures Advance(s, total) == Some(Insert(s, p))
  {
    var gap, position := Divide(total, |s.output| + 1);
    p := Point(s.codePoint + gap, position);
    AdvanceInserts(s, p, total);
  }

  lemma DecodedPoint(s: State, digits: seq<Scalar>) returns (total: nat, rest: seq<Scalar>, p: Point)
    requires s.insertion <= |s.output| && digits != [] && DecodeFrom(s, digits).Some?
    ensures DecodeInteger(digits, s.bias, 36, 1, s.insertion) == Some((total, rest))
    ensures Follows(s, p) && p.codePoint >= s.codePoint && total == s.insertion + Delta(s, p)
    ensures DecodeFrom(s, digits) == DecodeFrom(Insert(s, p), rest)
    ensures |rest| < |digits|
  {
    var decoded := DecodeInteger(digits, s.bias, 36, 1, s.insertion).value;
    total, rest := decoded.0, decoded.1;
    p := PointOf(s, total);
    DecodePoint(s, digits, total, rest, Insert(s, p));
  }

  lemma DecodedDigits(s: State, digits: seq<Scalar>, total: nat, rest: seq<Scalar>, p: Point)
    requires Follows(s, p) && total == s.insertion + Delta(s, p)
    requires DecodeInteger(digits, s.bias, 36, 1, s.insertion) == Some((total, rest))
    requires LowerDigits(digits)
    ensures LowerDigits(rest) && digits == RenderPoint(s, p) + rest
  {
    var q, addend := IntegerUnique(digits, s.bias, 36, 1, s.insertion);
    LowerSuffix(RenderPoint(s, p), rest);
  }

  lemma LowerSuffix(a: seq<Scalar>, b: seq<Scalar>)
    requires LowerDigits(a + b)
    ensures LowerDigits(b)
  {
    assert forall i :: 0 <= i < |b| ==> b[i] == (a + b)[|a| + i];
  }

  /** Whatever the decoder accepts after `ps` is a valid continuation of `ps`. */
  lemma {:induction false} DecodedIsRun(basic: seq<Scalar>, ps: seq<Point>, digits: seq<Scalar>) returns (qs: seq<Point>)
    requires Valid(basic, ps)
    requires DecodeFrom(Run(basic, ps), digits).Some?
    ensures Valid(basic, qs) && Run(basic, qs).output == DecodeFrom(Run(basic, ps), digits).value
    ensures LowerDigits(digits) ==> Render(basic, qs) == Render(basic, ps) + digits
    decreases |digits|
  {
    var s := Run(basic, ps);
    if digits == [] {
      qs := ps;
      EmptyEnds(Render(basic, ps));
    } else {
      var total, rest, p := DecodedPoint(s, digits);
      Snoc(basic, ps, p);
      qs := DecodedIsRun(basic, ps + [p], rest);
      if LowerDigits(digits) {
        DecodedDigits(s, digits, total, rest, p);
        Associative(Render(basic, ps), RenderPoint(s, p), rest);
      }
    }
  }
}
