/** The A-label decoder of BrowserNavigationParser.swift, as functions over
    unbounded integers that carry the decoder's own overflow guards.  The
    imperative decoder in PunycodeDecoder.dfy is proved equal to them. */
module Punycode {
  import opened Wrappers

  const U64: int := 0x1_0000_0000_0000_0000

  predicate IsScalar(c: int) {
    0 <= c < 0xD800 || 0xE000 <= c < 0x110000
  }

  type Scalar = c: int | IsScalar(c)

  const DELIMITER: Scalar := 45

  function PunycodeDigit(scalar: int): (digit: Option<nat>)
    ensures digit.Some? ==> digit.value < 36
  {
    if 65 <= scalar <= 90 then Some(scalar - 65)
    else if 97 <= scalar <= 122 then Some(scalar - 97)
    else if 48 <= scalar <= 57 then Some(scalar - 48 + 26)
    else None
  }

  function Threshold(k: nat, bias: nat): (t: nat)
    ensures 1 <= t <= 26
  {
    if k <= bias + 1 then 1 else if k >= bias + 26 then 26 else k - bias
  }

  function AdaptLoop(delta: nat, k: nat): nat {
    if delta > 455 then AdaptLoop(delta / 35, k + 36) else k + 36 * delta / (delta + 38)
  }

  function Quotient(a: nat, m: nat): (q: nat)
    requires m > 0
  {
    a / m
  }

  /** Bias adaptation, section 6.1 of RFC 3492. */
  function Adapt(value: nat, points: nat, first: bool): nat
    requires points > 0
  {
    var delta := if first then value / 700 else value / 2;
    AdaptLoop(delta + Quotient(delta, points), 0)
  }

  /** What one digit does to a generalized variable-length integer. */
  datatype DigitEffect = Overflow | Last(total: nat) | More(total: nat, weight: nat)

  function AddDigit(digit: nat, bias: nat, k: nat, weight: nat, total: nat): DigitEffect {
    if digit * weight >= U64 || total + digit * weight >= U64 then Overflow
    else
      var t := Threshold(k, bias);
      if digit < t then Last(total + digit * weight)
      else if weight * (36 - t) >= U64 then Overflow
      else More(total + digit * weight, weight * (36 - t))
  }

  /** One generalized variable-length integer: the running total it leaves and
      the digits after it, or None for a bad digit or an overflow. */
  function DecodeInteger(digits: seq<Scalar>, bias: nat, k: nat, weight: nat, total: nat): (r: Option<(nat, seq<Scalar>)>)
    ensures r.Some? ==> |r.value.1| < |digits| && total <= r.value.0
    decreases |digits|
  {
    if digits == [] then None
    else
      match PunycodeDigit(digits[0])
      case None => None
      case Some(digit) =>
        match AddDigit(digit, bias, k, weight, total)
        case Overflow => None
        case Last(sum) => Some((sum, digits[1..]))
        case More(sum, scaled) => DecodeInteger(digits[1..], bias, k + 36, scaled, sum)
  }

  lemma DecodeIntegerUnfolds(digits: seq<Scalar>, bias: nat, k: nat, weight: nat, total: nat)
    requires digits != []
    ensures DecodeInteger(digits, bias, k, weight, total) ==
              match PunycodeDigit(digits[0])
              case None => None
              case Some(digit) =>
                match AddDigit(digit, bias, k, weight, total)
                case Overflow => None
                case Last(sum) => Some((sum, digits[1..]))
                case More(sum, scaled) => DecodeInteger(digits[1..], bias, k + 36, scaled, sum)
  {
  }

  /** The decoder between two insertions. */
  datatype State = State(codePoint: nat, insertion: nat, bias: nat, output: seq<Scalar>)

  function Start(basic: seq<Scalar>): State {
    State(128, 0, 72, basic)
  }

  function InsertAt(s: seq<Scalar>, i: nat, c: Scalar): seq<Scalar>
    requires i <= |s|
  {
    s[..i] + [c] + s[i..]
  }

  /** One insertion: `total` counts from position 0 of the current code point. */
  function Advance(s: State, total: nat): Option<State>
    requires s.insertion <= total
  {
    var size := |s.output| + 1;
    var codePoint, position := s.codePoint + total / size, total % size;
    if !IsScalar(codePoint) then None
    else
      Some(State(codePoint, position + 1,
                 Adapt(total - s.insertion, size, s.insertion == 0),
                 InsertAt(s.output, position, codePoint)))
  }

  function DecodeFrom(s: State, digits: seq<Scalar>): Option<seq<Scalar>>
    decreases |digits|
  {
    if digits == [] then Some(s.output)
    else
      match DecodeInteger(digits, s.bias, 36, 1, s.insertion)
      case None => None
      case Some((total, rest)) =>
        match Advance(s, total)
        case None => None
        case Some(next) => DecodeFrom(next, rest)
  }

  lemma DecodeFromUnfolds(s: State, digits: seq<Scalar>)
    requires digits != []
    ensures match DecodeInteger(digits, s.bias, 36, 1, s.insertion)
            case None => DecodeFrom(s, digits) == None
            case Some((total, rest)) =>
              DecodeFrom(s, digits) ==
                match Advance(s, total)
                case None => None
                case Some(next) => DecodeFrom(next, rest)
  {
  }

  /** Index of the last delimiter, -1 when there is none. */
  function LastDelimiter(s: seq<Scalar>): (i: int)
    ensures -1 <= i < |s|
    ensures i >= 0 ==> s[i] == DELIMITER
    ensures forall j :: i < j < |s| ==> s[j] != DELIMITER
  {
    if s == [] then -1
    else if s[|s| - 1] == DELIMITER then |s| - 1
    else LastDelimiter(s[..|s| - 1])
  }

  predicate AllBasic(s: seq<Scalar>) {
    forall i :: 0 <= i < |s| ==> s[i] < 128
  }

  function Decode(value: seq<Scalar>): Option<seq<Scalar>> {
    if value == [] then None
    else
      var d := LastDelimiter(value);
      if d == -1 then DecodeFrom(Start([]), value)
      else if !AllBasic(value[..d]) then None
      else DecodeFrom(Start(value[..d]), value[d + 1..])
  }
}

/** Bootstring with Punycode's parameters, as sections 3.3, 5 and 6.1 of RFC 3492
    give them. */
module Bootstring {
  const BASE: nat := 36
  const TMIN: nat := 1
  const TMAX: nat := 26
  const SKEW: nat := 38
  const DAMP: nat := 700
  const INITIAL_BIAS: nat := 72
  const INITIAL_N: nat := 128

  /** k - bias, clamped to TMIN .. TMAX. */
  function Threshold(k: nat, bias: nat): (t: nat)
    ensures TMIN <= t <= TMAX
  {
    if k - bias < TMIN then TMIN else if k - bias > TMAX then TMAX else k - bias
  }

  function Adapt(delta: nat, points: nat, first: bool): nat
    requires points > 0
  {
    var damped := if first then delta / DAMP else delta / 2;
    Shrink(damped + Share(damped, points), 0)
  }

  function Share(delta: nat, points: nat): nat
    requires points > 0
  {
    delta / points
  }

  function Shrink(delta: nat, k: nat): nat {
    if delta > (BASE - TMIN) * TMAX / 2 then Shrink(delta / (BASE - TMIN), k + BASE)
    else k + (BASE - TMIN + 1) * delta / (delta + SKEW)
  }
}

/** The encoding procedure of section 6.3 of RFC 3492, over unbounded integers. */
module PunycodeEncoder {
  import opened Wrappers
  import opened Punycode
  import Bootstring

  // ---- The decoder's parameters are Punycode's ----

  lemma ThresholdAgrees(k: nat, bias: nat)
    ensures Threshold(k, bias) == Bootstring.Threshold(k, bias)
  {
  }

  lemma {:induction false} ShrinkAgrees(delta: nat, k: nat)
    ensures AdaptLoop(delta, k) == Bootstring.Shrink(delta, k)
    decreases delta
  {
    if delta > 455 {
      ShrinkAgrees(delta / 35, k + 36);
    }
  }

  /** The decoder's bias adaptation is that of section 6.1. */
  lemma AdaptAgrees(value: nat, points: nat, first: bool)
    requires points > 0
    ensures Adapt(value, points, first) == Bootstring.Adapt(value, points, first)
  {
    var damped := if first then value / 700 else value / 2;
    ShareAgrees(damped, points);
    ShrinkAgrees(damped + Quotient(damped, points), 0);
  }

  lemma ShareAgrees(delta: nat, points: nat)
    requires points > 0
    ensures Quotient(delta, points) == Bootstring.Share(delta, points)
  {
  }

  // ---- The procedure ----

  function DigitScalar(d: nat): Scalar
    requires d < 36
  {
    if d < 26 then 97 + d else 48 + d - 26
  }

  function EncodeInteger(q: nat, k: nat, bias: nat): (digits: seq<Scalar>)
    ensures digits != []
    decreases q
  {
    var t := Bootstring.Threshold(k, bias);
    var rest := Bootstring.BASE - t;
    if q < t then [DigitScalar(q)]
    else
      Shrinks(q, t);
      [DigitScalar(t + (q - t) % rest)] + EncodeInteger((q - t) / rest, k + Bootstring.BASE, bias)
  }

  lemma Shrinks(q: nat, t: nat)
    requires 1 <= t <= 26 && t <= q
    ensures 0 <= (q - t) / (36 - t) < q
  {
  }

  /** The elements of u below n, in order. */
  function Below(u: seq<Scalar>, n: nat): (r: seq<Scalar>)
    ensures |r| <= |u|
    ensures forall i :: 0 <= i < |r| ==> r[i] < n
  {
    if u == [] then []
    else
      var rest := Below(u[..|u| - 1], n);
      if u[|u| - 1] < n then rest + [u[|u| - 1]] else rest
  }

  /** The smallest element of u that is at least n, when there is one. */
  function MinAtLeast(u: seq<Scalar>, n: nat): (m: Option<Scalar>)
    ensures m.None? ==> forall i :: 0 <= i < |u| ==> u[i] < n
    ensures m.Some? ==> n <= m.value && m.value in u
    ensures m.Some? ==> forall i :: 0 <= i < |u| && u[i] >= n ==> m.value <= u[i]
  {
    if u == [] then None
    else
      var last := u[|u| - 1];
      var m := MinAtLeast(u[..|u| - 1], n);
      if last >= n && (m.None? || last < m.value) then Some(last) else m
  }

  datatype Progress = Progress(delta: nat, bias: nat, handled: nat, output: seq<Scalar>)

  /** The inner loop: every code point of the input in order, for one n. */
  function EncodeRound(u: seq<Scalar>, j: nat, n: nat, basic: nat, p: Progress): (r: Progress)
    requires j <= |u|
    decreases |u| - j
  {
    if j == |u| then p
    else if u[j] < n then EncodeRound(u, j + 1, n, basic, p.(delta := p.delta + 1))
    else if u[j] == n then
      EncodeRound(u, j + 1, n, basic,
        Progress(0, Bootstring.Adapt(p.delta, p.handled + 1, p.handled == basic), p.handled + 1,
                 p.output + EncodeInteger(p.delta, Bootstring.BASE, p.bias)))
    else EncodeRound(u, j + 1, n, basic, p)
  }

  /** The outer loop: n jumps to the next code point still to be handled. */
  function EncodeLoop(u: seq<Scalar>, n: nat, basic: nat, p: Progress): seq<Scalar>
    decreases 0x110000 - n
  {
    if p.handled >= |u| then p.output
    else
      match MinAtLeast(u, n)
      case None => p.output
      case Some(m) =>
        EncodeLoop(u, m + 1, basic, WholeRound(u, n, m, basic, p))
  }

  /** From code point n on to m, and once through the string. */
  function WholeRound(u: seq<Scalar>, n: nat, m: nat, basic: nat, p: Progress): Progress
    requires n <= m
  {
    var q := EncodeRound(u, 0, m, basic, p.(delta := p.delta + Skip(n, m, p.handled)));
    q.(delta := q.delta + 1)
  }

  /** Decoder steps from code point n to m when `handled` points are placed. */
  function Skip(n: nat, m: nat, handled: nat): nat
    requires n <= m
  {
    (m - n) * (handled + 1)
  }

  function Prefix(basic: seq<Scalar>): seq<Scalar> {
    if basic == [] then [] else basic + [DELIMITER]
  }

  function Encode(u: seq<Scalar>): seq<Scalar> {
    var basic := Below(u, Bootstring.INITIAL_N);
    EncodeLoop(u, Bootstring.INITIAL_N, |basic|, Progress(0, Bootstring.INITIAL_BIAS, |basic|, Prefix(basic)))
  }
}
