/** decodePunycodeLabel as BrowserNavigationParser.swift writes it: loops over
    64-bit variables and in-place insertion.  Every assignment to a UInt64
    carries the proof that its unchecked arithmetic cannot trap. */
module PunycodeDecoder {
  import opened Arithmetic
  import opened Sequences
  import opened Wrappers
  import opened Punycode

  type UInt64 = n: int | 0 <= n < U64

  /** A Swift collection counts its elements with a signed 64-bit integer. */
  const INT_MAX: int := 0x7FFF_FFFF_FFFF_FFFF

  function Power(base: nat, exponent: nat): (p: nat)
    requires base > 0
    ensures p > 0
  {
    if exponent == 0 then 1 else base * Power(base, exponent - 1)
  }

  // ---- Bias adaptation ----

  lemma {:induction false} AdaptBounded(delta: nat, k: nat, m: nat)
    requires delta <= 455 * Power(35, m)
    ensures k <= AdaptLoop(delta, k) <= k + 36 * m + 36
    decreases m
  {
    if delta > 455 {
      var p := Power(35, m - 1);
      assert delta <= 35 * (455 * p);
      assert delta / 35 <= 455 * p;
      AdaptBounded(delta / 35, k + 36, m - 1);
    } else {
      assert 36 * delta < 36 * (delta + 38);
      var q, r := Divide(36 * delta, delta + 38);
      QuotientBelow(q, delta + 38, 36);
    }
  }

  lemma QuotientBelow(q: nat, m: nat, b: nat)
    requires m > 0 && q * m < b * m
    ensures q < b
  {
    if q >= b {
      ProductMonotone(b, q, m);
    }
  }

  lemma QuotientAtMost(a: nat, m: nat)
    requires m > 0
    ensures 0 <= a / m <= a
  {
    var q, r := Divide(a, m);
    ProductMonotone(1, m, q);
  }

  lemma AnyDeltaBounded(delta: nat, k: nat)
    requires delta < U64
    ensures k <= AdaptLoop(delta, k) <= k + 432
  {
    assert Power(35, 11) == 35 * 35 * 35 * 35 * 35 * 35 * 35 * 35 * 35 * 35 * 35;
    AdaptBounded(delta, k, 11);
  }

  lemma AdaptUnfolds(delta: nat, k: nat)
    requires delta < U64
    ensures k <= AdaptLoop(delta, k) <= k + 432
    ensures delta > 455 ==> AdaptLoop(delta, k) == AdaptLoop(delta / 35, k + 36)
    ensures delta <= 455 ==> AdaptLoop(delta, k) == k + 36 * delta / (delta + 38)
  {
    AnyDeltaBounded(delta, k);
  }

  method AdaptPunycodeBias(value: UInt64, points: UInt64, first: bool) returns (bias: UInt64)
    requires points > 0
    ensures bias == Adapt(value, points, first) <= 432
  {
    var delta: UInt64 := if first then value / 700 else value / 2;
    QuotientAtMost(delta, points);
    delta := delta + delta / points;
    bias := FinishAdaptation(delta);
  }

  method FinishAdaptation(start: UInt64) returns (bias: UInt64)
    ensures bias == AdaptLoop(start, 0) <= 432
  {
    var delta: UInt64, k: UInt64 := start, 0;
    AdaptUnfolds(delta, k);
    while delta > 455
      invariant AdaptLoop(delta, k) == AdaptLoop(start, 0) && k <= AdaptLoop(start, 0) <= 432
    {
      AdaptUnfolds(delta, k);
      AdaptUnfolds(delta / 35, k + 36);
      delta := delta / 35;
      k := k + 36;
    }
    AdaptUnfolds(delta, k);
    var scaled: UInt64 := 36 * delta;
    var divisor: UInt64 := delta + 38;
    QuotientAtMost(scaled, divisor);
    bias := k + scaled / divisor;
  }

  // ---- Decoding ----

  lemma TenToTheTwentieth()
    ensures Power(10, 20) >= U64
  {
    assert Power(10, 5) == 100000;
    assert Power(10, 10) == 10000000000;
    assert Power(10, 15) == 1000000000000000;
  }

  /** A weight that has passed every overflow guard has few digits behind it. */
  lemma {:induction false} WeightLimitsDigits(j: nat, weight: nat)
    requires Power(10, j) <= weight < U64
    ensures j < 20
    decreases j
  {
    if j >= 20 {
      PowerGrows(20, j);
      TenToTheTwentieth();
    }
  }

  lemma {:induction false} PowerGrows(i: nat, j: nat)
    requires i <= j
    ensures Power(10, i) <= Power(10, j)
    decreases j
  {
    if i < j {
      PowerGrows(i, j - 1);
    }
  }

  lemma DropFirst(s: seq<Scalar>, cursor: nat)
    requires cursor < |s|
    ensures s[cursor..] != [] && s[cursor..][0] == s[cursor] && s[cursor..][1..] == s[cursor + 1..]
  {
  }

  /** Everything between two variable-length integers: new bias, code point and
      index, and the insertion itself. */
  method PlaceCodePoint(codePoint: UInt64, previousInsertion: UInt64, total: UInt64, bias: UInt64, output: seq<Scalar>)
    returns (placed: Option<State>)
    requires previousInsertion <= total && |output| < INT_MAX
    ensures placed == Advance(State(codePoint, previousInsertion, bias, output), total)
    ensures placed.Some? ==>
              var s := placed.value;
              s.codePoint < U64 && s.bias <= 432 && s.insertion <= |s.output| == |output| + 1
  {
    var outputSize: UInt64 := |output| + 1;
    ghost var quotient, remainder := Divide(total, outputSize);
    var difference: UInt64 := total - previousInsertion;
    var nextBias := AdaptPunycodeBias(difference, outputSize, previousInsertion == 0);
    var nextCodePoint := codePoint + total / outputSize;
    if nextCodePoint >= U64 || nextCodePoint > 0x10ffff || 0xd800 <= nextCodePoint <= 0xdfff {
      return None;
    }
    var insertion: UInt64 := total % outputSize;
    placed := Some(State(nextCodePoint, insertion + 1, nextBias, InsertAt(output, insertion, nextCodePoint)));
  }

  /** The basic code points before the delimiter, when all are ASCII. */
  method CopyBasic(value: seq<Scalar>, delimiter: nat) returns (output: Option<seq<Scalar>>)
    requires delimiter <= |value|
    ensures output == if AllBasic(value[..delimiter]) then Some(value[..delimiter]) else None
  {
    var copied: seq<Scalar> := [];
    for i := 0 to delimiter
      invariant copied == value[..i] && AllBasic(copied)
    {
      if value[i] >= 128 {
        assert value[..delimiter][i] >= 128;
        return None;
      }
      copied := copied + [value[i]];
    }
    output := Some(copied);
  }

  lemma DecodeStarts(value: seq<Scalar>, basic: seq<Scalar>, cursor: nat)
    requires value != [] && cursor == LastDelimiter(value) + 1 && AllBasic(basic)
    requires basic == if cursor == 0 then [] else value[..cursor - 1]
    ensures Decode(value) == DecodeFrom(Start(basic), value[cursor..])
  {
    WholeSlices(value);
  }

  method DecodePunycodeLabel(value: seq<Scalar>) returns (result: Option<seq<Scalar>>)
    requires |value| <= INT_MAX
    ensures result == Decode(value)
  {
    if value == [] {
      return None;
    }
    var output: seq<Scalar> := [];
    var cursor: nat := 0;
    var delimiter := LastDelimiter(value);
    if delimiter >= 0 {
      var basic := CopyBasic(value, delimiter);
      if basic.None? {
        return None;
      }
      output := basic.value;
      cursor := delimiter + 1;
    }
    DecodeStarts(value, output, cursor);
    result := DecodeExtended(value, cursor, output);
  }

  /** The main loop, from the first digit on. */
  method DecodeExtended(value: seq<Scalar>, start: nat, basic: seq<Scalar>) returns (result: Option<seq<Scalar>>)
    requires |basic| <= start <= |value| <= INT_MAX
    ensures result == DecodeFrom(Start(basic), value[start..])
  {
    ghost var goal := DecodeFrom(Start(basic), value[start..]);
    var cursor, output := start, basic;
    var codePoint: UInt64 := 128;
    var insertion: UInt64 := 0;
    var bias: UInt64 := 72;
    while cursor < |value|
      invariant cursor <= |value| && |output| <= cursor
      invariant insertion <= |output| && bias <= 432
      invariant goal == DecodeFrom(State(codePoint, insertion, bias, output), value[cursor..])
    {
      DecodeFromUnfolds(State(codePoint, insertion, bias, output), value[cursor..]);
      var total, next := DecodeDigits(value, cursor, bias, insertion);
      if total.None? {
        return None;
      }
      cursor := next;
      var placed := PlaceCodePoint(codePoint, insertion, total.value, bias, output);
      if placed.None? {
        return None;
      }
      codePoint, insertion, bias, output :=
        placed.value.codePoint, placed.value.insertion, placed.value.bias, placed.value.output;
    }
    result := Some(output);
  }

  /** The checked arithmetic of one pass through the inner loop. */
  method AddOneDigit(digit: UInt64, bias: UInt64, k: UInt64, weight: UInt64, insertion: UInt64) returns (effect: DigitEffect)
    requires digit < 36 && bias <= 432 && k <= 1000
    ensures effect == AddDigit(digit, bias, k, weight, insertion)
    ensures effect.More? ==> 10 * weight <= effect.weight < U64
    ensures !effect.Overflow? ==> insertion <= effect.total < U64
  {
    var product := digit * weight;
    ProductMonotone(0, digit, weight);
    var nextInsertion := insertion + product;
    if product >= U64 || nextInsertion >= U64 {
      return Overflow;
    }
    var low: UInt64, high: UInt64 := bias + 1, bias + 26;
    var threshold: UInt64 := if k <= low then 1 else if k >= high then 26 else k - bias;
    if digit < threshold {
      return Last(nextInsertion);
    }
    ProductMonotone(10, 36 - threshold, weight);
    var nextWeight := weight * (36 - threshold);
    if nextWeight >= U64 {
      return Overflow;
    }
    effect := More(nextInsertion, nextWeight);
  }

  /** The inner loop: one variable-length integer added to `insertion`. */
  method DecodeDigits(value: seq<Scalar>, start: nat, bias: UInt64, start0: UInt64) returns (total: Option<UInt64>, cursor: nat)
    requires start < |value| && bias <= 432
    ensures start <= cursor <= |value|
    ensures match DecodeInteger(value[start..], bias, 36, 1, start0)
            case None => total == None
            case Some((sum, rest)) => total == Some(sum) && rest == value[cursor..] && cursor > start && start0 <= sum
  {
    cursor := start;
    var insertion := start0;
    var weight: UInt64 := 1;
    var k: UInt64 := 36;
    ghost var j, digits := 0, value[start..];
    ghost var goal := DecodeInteger(digits, bias, 36, 1, start0);
    while true
      invariant start <= cursor <= |value|
      invariant k == 36 * (j + 1) && Power(10, j) <= weight && start0 <= insertion
      invariant digits == value[cursor..] && goal == DecodeInteger(digits, bias, k, weight, insertion)
      decreases |value| - cursor
    {
      if cursor >= |value| {
        return None, cursor;
      }
      DropFirst(value, cursor);
      DecodeIntegerUnfolds(digits, bias, k, weight, insertion);
      var digit := PunycodeDigit(value[cursor]);
      if digit.None? {
        return None, cursor;
      }
      cursor := cursor + 1;
      digits := digits[1..];
      WeightLimitsDigits(j, weight);
      var effect := AddOneDigit(digit.value, bias, k, weight, insertion);
      match effect {
        case Overflow =>
          return None, cursor;
        case Last(sum) =>
          return Some(sum), cursor;
        case More(sum, scaled) =>
          insertion, weight := sum, scaled;
      }
      k := k + 36;
      j := j + 1;
    }
  }
}
