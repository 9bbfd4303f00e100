/** _der_es256_to_raw of scripts/app_store_connect_release.py: an ECDSA signature in
    DER (X.690) to the fixed-width form of JSON Web Signatures (RFC 7518). */
module DerSignature {
  import opened Wrappers
  import opened Sequences

  type Byte = x: int | 0 <= x < 256

  datatype DerError =
    | NotASequence | BadSequenceLength | NotAnInteger | TruncatedLength | BadLength
    | TruncatedInteger | OversizedInteger | TrailingBytes

  // ---- Numbers and bytes ----

  /** The unsigned big-endian value. */
  function Unsigned(bytes: seq<Byte>): nat {
    if bytes == [] then 0 else 256 * Unsigned(bytes[..|bytes| - 1]) + bytes[|bytes| - 1]
  }

  /** 256 to the n: Power(32) is 2 to the 256. */
  function Power(n: nat): nat {
    if n == 0 then 1 else 256 * Power(n - 1)
  }

  lemma {:induction false} PowerAdd(m: nat, n: nat)
    ensures Power(m + n) == Power(m) * Power(n)
    decreases m
  {
    if m > 0 {
      PowerAdd(m - 1, n);
      assert 256 * (Power(m - 1) * Power(n)) == (256 * Power(m - 1)) * Power(n);
    }
  }

  /** 2 to the 256. */
  const BOUND: nat := 0x1_0000000000000000_0000000000000000_0000000000000000_0000000000000000

  lemma PowerOf32()
    ensures Power(32) == BOUND
  {
    PowerAdd(4, 4);
    PowerAdd(8, 8);
    PowerAdd(16, 16);
    assert Power(4) == 0x1_0000_0000;
  }

  /** x in `width` bytes, most significant first. */
  function BigEndian(x: nat, width: nat): seq<Byte>
    decreases width, x
  {
    if width == 0 then [] else BigEndian(x / 256, width - 1) + [x % 256]
  }

  // ---- The parser ----

  function ReadLength(value: seq<Byte>, offset: nat): Result<(nat, nat), DerError> {
    if offset >= |value| then Err(TruncatedLength)
    else if value[offset] < 0x80 then Ok((value[offset], offset + 1))
    else
      var count := value[offset] % 0x80;
      if count == 0 || count > 2 || offset + 1 + count > |value| then Err(BadLength)
      else Ok((Unsigned(value[offset + 1..offset + 1 + count]), offset + 1 + count))
  }

  function StripZeros(bytes: seq<Byte>): seq<Byte> {
    if bytes != [] && bytes[0] == 0 then StripZeros(bytes[1..]) else bytes
  }

  /** Without leading zeros, but at least one byte. */
  function Significant(bytes: seq<Byte>): seq<Byte> {
    if StripZeros(bytes) == [] then [0] else StripZeros(bytes)
  }

  function Zeros(n: nat): (zeros: seq<Byte>)
    ensures |zeros| == n
  {
    if n == 0 then [] else [0] + Zeros(n - 1)
  }

  function Min(a: nat, b: nat): nat {
    if a <= b then a else b
  }

  /** A slice that ends where the bytes do. */
  function Slice(value: seq<Byte>, start: nat, length: nat): seq<Byte> {
    value[Min(start, |value|)..Min(start + length, |value|)]
  }

  /** An integer's bytes without leading zeros, padded to 32. */
  function Widen(integer: seq<Byte>, length: nat): Result<seq<Byte>, DerError> {
    if |integer| != length || integer == [] then Err(TruncatedInteger)
    else if |Significant(integer)| > 32 then Err(OversizedInteger)
    else Ok(Zeros(32 - |Significant(integer)|) + Significant(integer))
  }

  /** One INTEGER and the offset behind it. */
  function ReadInteger(value: seq<Byte>, offset: nat): Result<(seq<Byte>, nat), DerError> {
    if offset >= |value| || value[offset] != 0x02 then Err(NotAnInteger)
    else
      match ReadLength(value, offset + 1)
      case Err(error) => Err(error)
      case Ok((length, start)) =>
        WithEnd(Widen(Slice(value, start, length), length), start + length)
  }

  function WithEnd(raw: Result<seq<Byte>, DerError>, end: nat): Result<(seq<Byte>, nat), DerError> {
    match raw
    case Err(error) => Err(error)
    case Ok(bytes) => Ok((bytes, end))
  }

  function ReadBoth(value: seq<Byte>, offset: nat): Result<(seq<Byte>, nat), DerError> {
    match ReadInteger(value, offset)
    case Err(error) => Err(error)
    case Ok((r, middle)) =>
      match ReadInteger(value, middle)
      case Err(error) => Err(error)
      case Ok((s, end)) => Ok((r + s, end))
  }

  function DerToRaw(value: seq<Byte>): Result<seq<Byte>, DerError> {
    if value == [] || value[0] != 0x30 then Err(NotASequence)
    else
      match ReadLength(value, 1)
      case Err(error) => Err(error)
      case Ok((length, offset)) =>
        if offset + length != |value| then Err(BadSequenceLength)
        else
          match ReadBoth(value, offset)
          case Err(error) => Err(error)
          case Ok((raw, end)) => if end != |value| then Err(TrailingBytes) else Ok(raw)
  }

  /** The loop over the two integers. */
  method DerEs256ToRaw(value: seq<Byte>) returns (raw: Result<seq<Byte>, DerError>)
    ensures raw == DerToRaw(value)
  {
    if value == [] || value[0] != 0x30 {
      return Err(NotASequence);
    }
    var header := ReadLength(value, 1);
    if header.Err? {
      return Err(header.error);
    }
    var (length, offset) := header.value;
    if offset + length != |value| {
      return Err(BadSequenceLength);
    }
    var integers: seq<Byte> := [];
    for i := 0 to 2
      invariant i == 0 ==> integers == [] && offset == header.value.1
      invariant i == 1 ==> ReadInteger(value, header.value.1) == Ok((integers, offset))
      invariant i == 2 ==> ReadBoth(value, header.value.1) == Ok((integers, offset))
    {
      var integer := ReadInteger(value, offset);
      if integer.Err? {
        return Err(integer.error);
      }
      EmptyEnds(integer.value.0);
      integers := integers + integer.value.0;
      offset := integer.value.1;
    }
    if offset != |value| {
      return Err(TrailingBytes);
    }
    raw := Ok(integers);
  }

  // ---- Values survive stripping and padding ----

  lemma UnsignedOne(a: Byte)
    ensures Unsigned([a]) == a
  {
    assert [a][..0] == [];
  }

  lemma UnsignedTwo(a: Byte, b: Byte)
    ensures Unsigned([a, b]) == 256 * a + b
  {
    assert [a, b][..1] == [a];
    UnsignedOne(a);
  }

  lemma {:induction false} UnsignedCons(first: Byte, bytes: seq<Byte>)
    ensures Unsigned([first] + bytes) == first * Power(|bytes|) + Unsigned(bytes)
    decreases |bytes|
  {
    if bytes == [] {
      assert ([first] + bytes)[..0] == [];
    } else {
      var last := |bytes| - 1;
      assert ([first] + bytes)[..last + 1] == [first] + bytes[..last];
      UnsignedCons(first, bytes[..last]);
      Scale(first, Power(last));
    }
  }

  lemma Scale(a: int, b: int)
    ensures a * (256 * b) == 256 * (a * b)
  {
  }

  lemma {:induction false} UnsignedStripped(bytes: seq<Byte>)
    ensures Unsigned(StripZeros(bytes)) == Unsigned(bytes) && |StripZeros(bytes)| <= |bytes|
    ensures StripZeros(bytes) != [] ==> StripZeros(bytes)[0] != 0
    decreases |bytes|
  {
    if bytes != [] && bytes[0] == 0 {
      UnsignedCons(0, bytes[1..]);
      assert bytes == [0] + bytes[1..];
      UnsignedStripped(bytes[1..]);
    }
  }

  lemma {:induction false} UnsignedPadded(n: nat, bytes: seq<Byte>)
    ensures Unsigned(Zeros(n) + bytes) == Unsigned(bytes)
    decreases n
  {
    if n == 0 {
      assert Zeros(0) + bytes == bytes;
    } else {
      assert Zeros(n) + bytes == [0] + (Zeros(n - 1) + bytes);
      UnsignedCons(0, Zeros(n - 1) + bytes);
      UnsignedPadded(n - 1, bytes);
    }
  }

  lemma {:induction false} UnsignedBelow(bytes: seq<Byte>)
    ensures Unsigned(bytes) < Power(|bytes|)
    decreases |bytes|
  {
    if bytes != [] {
      UnsignedBelow(bytes[..|bytes| - 1]);
    }
  }

  lemma {:induction false} PowerMonotone(m: nat, n: nat)
    requires m <= n
    ensures 1 <= Power(m) <= Power(n)
    decreases n
  {
    if m < n {
      PowerMonotone(m, n - 1);
    } else if 0 < m {
      PowerMonotone(m - 1, n - 1);
    }
  }

  lemma AtLeastOnce(a: int, b: int)
    requires a >= 1 && b >= 0
    ensures a * b >= b
  {
  }

  /** Without leading zeros, the bytes are as few as the value allows. */
  lemma StrippedFits(bytes: seq<Byte>, width: nat)
    requires bytes != [] && bytes[0] != 0
    ensures |bytes| <= width <==> Unsigned(bytes) < Power(width)
  {
    assert bytes == [bytes[0]] + bytes[1..];
    UnsignedCons(bytes[0], bytes[1..]);
    AtLeastOnce(bytes[0], Power(|bytes| - 1));
    UnsignedBelow(bytes);
    if |bytes| <= width {
      PowerMonotone(|bytes|, width);
    } else {
      PowerMonotone(width, |bytes| - 1);
    }
  }

  lemma {:induction false} BigEndianUnique(bytes: seq<Byte>)
    ensures bytes == BigEndian(Unsigned(bytes), |bytes|)
    decreases |bytes|
  {
    if bytes != [] {
      BigEndianUnique(bytes[..|bytes| - 1]);
      SplitLast(bytes);
    }
  }

  lemma {:induction false} UnsignedBigEndian(x: nat, width: nat)
    requires x < Power(width)
    ensures Unsigned(BigEndian(x, width)) == x && |BigEndian(x, width)| == width
    decreases width
  {
    if width > 0 {
      UnsignedBigEndian(x / 256, width - 1);
      DropLast(BigEndian(x / 256, width - 1), x % 256);
    }
  }

  lemma SignificantValue(bytes: seq<Byte>, width: nat)
    requires bytes != [] && width > 0
    ensures Unsigned(Significant(bytes)) == Unsigned(bytes)
    ensures |Significant(bytes)| <= width <==> Unsigned(bytes) < Power(width)
  {
    UnsignedStripped(bytes);
    PowerMonotone(0, width);
    UnsignedOne(0);
    if StripZeros(bytes) != [] {
      StrippedFits(StripZeros(bytes), width);
    }
  }

  lemma PaddedIsBigEndian(bytes: seq<Byte>, width: nat)
    requires |bytes| <= width
    ensures Zeros(width - |bytes|) + bytes == BigEndian(Unsigned(bytes), width)
  {
    UnsignedPadded(width - |bytes|, bytes);
    BigEndianUnique(Zeros(width - |bytes|) + bytes);
  }

  /** The fixed-width form of an integer's contents. */
  lemma Widens(integer: seq<Byte>)
    requires integer != []
    ensures Widen(integer, |integer|) ==
            if Unsigned(integer) < Power(32) then Ok(BigEndian(Unsigned(integer), 32)) else Err(OversizedInteger)
  {
    SignificantValue(integer, 32);
    if |Significant(integer)| <= 32 {
      PaddedIsBigEndian(Significant(integer), 32);
    }
  }

  // ---- What an encoded signature is ----

  /** Definite lengths in at most two further bytes, not necessarily minimal. */
  predicate EncodesLength(bytes: seq<Byte>, length: nat) {
    || (|bytes| == 1 && bytes[0] == length < 0x80)
    || (|bytes| == 2 && bytes[0] == 0x81 && bytes[1] == length)
    || (|bytes| == 3 && bytes[0] == 0x82 && length == 256 * (bytes[1] as int) + bytes[2] as int)
  }

  datatype Signature = Signature(length: seq<Byte>, rLength: seq<Byte>, r: seq<Byte>, sLength: seq<Byte>, s: seq<Byte>)

  function Integer(length: seq<Byte>, contents: seq<Byte>): seq<Byte> {
    [0x02] + length + contents
  }

  function Size(length: seq<Byte>, contents: seq<Byte>): nat {
    1 + |length| + |contents|
  }

  function Encoded(signature: Signature): seq<Byte> {
    [0x30] + signature.length + Integer(signature.rLength, signature.r) + Integer(signature.sLength, signature.s)
  }

  predicate WellFormed(signature: Signature) {
    && signature.r != [] && signature.s != []
    && EncodesLength(signature.rLength, |signature.r|) && EncodesLength(signature.sLength, |signature.s|)
    && EncodesLength(signature.length, Size(signature.rLength, signature.r) + Size(signature.sLength, signature.s))
  }

  function Raw(signature: Signature): seq<Byte> {
    BigEndian(Unsigned(signature.r), 32) + BigEndian(Unsigned(signature.s), 32)
  }

  predicate Fits(signature: Signature) {
    Unsigned(signature.r) < Power(32) && Unsigned(signature.s) < Power(32)
  }

  // ---- Parsing what was encoded ----

  predicate HasAt(value: seq<Byte>, offset: nat, piece: seq<Byte>) {
    offset + |piece| <= |value| && value[offset..offset + |piece|] == piece
  }

  lemma HasBoth(value: seq<Byte>, offset: nat, a: seq<Byte>, b: seq<Byte>)
    requires HasAt(value, offset, a + b)
    ensures HasAt(value, offset, a) && HasAt(value, offset + |a|, b)
  {
    assert (a + b)[..|a|] == a && (a + b)[|a|..] == b;
  }

  lemma HasByte(value: seq<Byte>, offset: nat, piece: seq<Byte>, i: nat)
    requires HasAt(value, offset, piece) && i < |piece|
    ensures value[offset + i] == piece[i]
  {
  }

  lemma ReadsLength(value: seq<Byte>, offset: nat, bytes: seq<Byte>, length: nat)
    requires HasAt(value, offset, bytes) && EncodesLength(bytes, length)
    ensures ReadLength(value, offset) == Ok((length, offset + |bytes|))
  {
    HasByte(value, offset, bytes, 0);
    if |bytes| == 2 {
      HasByte(value, offset, bytes, 1);
      assert value[offset + 1..offset + 2] == [bytes[1]];
      UnsignedOne(bytes[1]);
    } else if |bytes| == 3 {
      HasByte(value, offset, bytes, 1);
      HasByte(value, offset, bytes, 2);
      assert value[offset + 1..offset + 3] == [bytes[1], bytes[2]];
      UnsignedTwo(bytes[1], bytes[2]);
    }
  }

  /** An INTEGER stands at the offset. */
  predicate IntegerAt(value: seq<Byte>, offset: nat, length: seq<Byte>, contents: seq<Byte>) {
    && offset < |value| && value[offset] == 0x02
    && HasAt(value, offset + 1, length) && HasAt(value, offset + 1 + |length|, contents)
  }

  lemma IntegerLayout(value: seq<Byte>, offset: nat, length: seq<Byte>, contents: seq<Byte>)
    requires HasAt(value, offset, Integer(length, contents))
    ensures IntegerAt(value, offset, length, contents)
  {
    HasBoth(value, offset, [0x02] + length, contents);
    HasBoth(value, offset, [0x02], length);
    HasByte(value, offset, [0x02], 0);
  }

  lemma SliceIs(value: seq<Byte>, start: nat, piece: seq<Byte>)
    requires HasAt(value, start, piece)
    ensures Slice(value, start, |piece|) == piece
  {
  }

  lemma ReadsInteger(value: seq<Byte>, offset: nat, length: seq<Byte>, contents: seq<Byte>)
    requires IntegerAt(value, offset, length, contents)
    requires contents != [] && EncodesLength(length, |contents|)
    ensures ReadInteger(value, offset) == WithEnd(Widen(contents, |contents|), offset + Size(length, contents))
  {
    ReadsLength(value, offset + 1, length, |contents|);
    SliceIs(value, offset + 1 + |length|, contents);
  }

  /** Where the parts of a signature are. */
  predicate LaidOut(value: seq<Byte>, signature: Signature) {
    var Signature(length, rLength, r, sLength, s) := signature;
    var first := 1 + |length|;
    var second := first + Size(rLength, r);
    && value != [] && value[0] == 0x30 && HasAt(value, 1, length)
    && IntegerAt(value, first, rLength, r) && IntegerAt(value, second, sLength, s)
    && |value| == second + Size(sLength, s)
  }

  lemma EncodedPieces(length: seq<Byte>, first: seq<Byte>, second: seq<Byte>)
    ensures var value := [0x30] + length + first + second;
            && value[0] == 0x30 && HasAt(value, 1, length) && HasAt(value, 1 + |length|, first)
            && HasAt(value, 1 + |length| + |first|, second) && |value| == 1 + |length| + |first| + |second|
  {
    var value := [0x30] + length + first + second;
    assert HasAt(value, 0, value);
    HasBoth(value, 0, [0x30] + length + first, second);
    HasBoth(value, 0, [0x30] + length, first);
    HasBoth(value, 0, [0x30], length);
    HasByte(value, 0, [0x30], 0);
  }

  lemma EncodedLayout(signature: Signature)
    ensures LaidOut(Encoded(signature), signature)
  {
    var Signature(length, rLength, r, sLength, s) := signature;
    var first := Integer(rLength, r);
    EncodedPieces(length, first, Integer(sLength, s));
    IntegerLayout(Encoded(signature), 1 + |length|, rLength, r);
    IntegerLayout(Encoded(signature), 1 + |length| + |first|, sLength, s);
  }

  function Concatenated(a: Result<seq<Byte>, DerError>, b: Result<seq<Byte>, DerError>): Result<seq<Byte>, DerError> {
    match a
    case Err(error) => Err(error)
    case Ok(r) =>
      match b
      case Err(error) => Err(error)
      case Ok(s) => Ok(r + s)
  }

  function WidenBoth(signature: Signature): Result<seq<Byte>, DerError> {
    Concatenated(Widen(signature.r, |signature.r|), Widen(signature.s, |signature.s|))
  }

  lemma WidensBoth(signature: Signature)
    requires signature.r != [] && signature.s != []
    ensures WidenBoth(signature) == if Fits(signature) then Ok(Raw(signature)) else Err(OversizedInteger)
  {
    Widens(signature.r);
    Widens(signature.s);
  }

  /** What the parser's parts answer on a laid-out signature. */
  ghost predicate ReadsAs(value: seq<Byte>, offset: nat, first: Result<seq<Byte>, DerError>, middle: nat,
                          second: Result<seq<Byte>, DerError>) {
    && value != [] && value[0] == 0x30 && offset <= |value|
    && ReadLength(value, 1) == Ok((|value| - offset, offset))
    && ReadInteger(value, offset) == WithEnd(first, middle)
    && ReadInteger(value, middle) == WithEnd(second, |value|)
  }

  lemma WholeSequence(value: seq<Byte>, offset: nat, first: Result<seq<Byte>, DerError>, middle: nat,
                      second: Result<seq<Byte>, DerError>)
    requires ReadsAs(value, offset, first, middle, second)
    ensures DerToRaw(value) == Concatenated(first, second)
  {
  }

  lemma LaidOutReads(value: seq<Byte>, length: seq<Byte>, rLength: seq<Byte>, r: seq<Byte>, sLength: seq<Byte>, s: seq<Byte>,
                     offset: nat, middle: nat)
    requires value != [] && value[0] == 0x30 && HasAt(value, 1, length) && offset == 1 + |length| <= |value|
    requires EncodesLength(length, |value| - offset)
    requires r != [] && EncodesLength(rLength, |r|) && IntegerAt(value, offset, rLength, r)
    requires s != [] && EncodesLength(sLength, |s|) && IntegerAt(value, middle, sLength, s)
    requires middle == offset + Size(rLength, r) && |value| == middle + Size(sLength, s)
    ensures ReadsAs(value, offset, Widen(r, |r|), middle, Widen(s, |s|))
  {
    ReadsLength(value, 1, length, |value| - offset);
    ReadsInteger(value, offset, rLength, r);
    ReadsInteger(value, middle, sLength, s);
  }

  lemma ParsesLaidOut(value: seq<Byte>, signature: Signature)
    requires WellFormed(signature) && LaidOut(value, signature)
    ensures DerToRaw(value) == WidenBoth(signature)
  {
    var Signature(length, rLength, r, sLength, s) := signature;
    var offset := 1 + |length|;
    var middle := offset + Size(rLength, r);
    LaidOutReads(value, length, rLength, r, sLength, s, offset, middle);
    WholeSequence(value, offset, Widen(r, |r|), middle, Widen(s, |s|));
  }

  /** A well-formed signature is accepted exactly when both integers fit 32 bytes;
      then the result holds their two values. */
  lemma ParsesEncoded(signature: Signature)
    requires WellFormed(signature)
    ensures DerToRaw(Encoded(signature)) == if Fits(signature) then Ok(Raw(signature)) else Err(OversizedInteger)
  {
    EncodedLayout(signature);
    ParsesLaidOut(Encoded(signature), signature);
    WidensBoth(signature);
  }

  // ---- Whatever is accepted was encoded ----

  lemma LengthRead(value: seq<Byte>, offset: nat)
    requires ReadLength(value, offset).Ok?
    ensures var (length, start) := ReadLength(value, offset).value;
            offset < start <= |value| && EncodesLength(value[offset..start], length)
  {
    if value[offset] >= 0x80 {
      var count := value[offset] % 0x80;
      var bytes := value[offset + 1..offset + 1 + count];
      if count == 1 {
        assert bytes == [bytes[0]];
        UnsignedOne(bytes[0]);
      } else {
        assert bytes == [bytes[0], bytes[1]];
        UnsignedTwo(bytes[0], bytes[1]);
      }
    }
  }

  /** The length, the contents and the end of an INTEGER that was read. */
  lemma IntegerRead(value: seq<Byte>, offset: nat) returns (start: nat, end: nat)
    requires ReadInteger(value, offset).Ok?
    ensures offset + 1 < start < end <= |value| && value[offset] == 0x02
    ensures EncodesLength(value[offset + 1..start], end - start)
    ensures ReadInteger(value, offset) == WithEnd(Widen(value[start..end], end - start), end)
  {
    LengthRead(value, offset + 1);
    start := ReadLength(value, offset + 1).value.1;
    end := start + ReadLength(value, offset + 1).value.0;
    assert Slice(value, start, end - start) == value[start..end];
  }

  lemma IntegerPieces(value: seq<Byte>, offset: nat, start: nat, end: nat)
    requires offset + 1 <= start <= end <= |value| && value[offset] == 0x02
    ensures value[offset..end] == Integer(value[offset + 1..start], value[start..end])
  {
  }

  lemma WidenedFits(contents: seq<Byte>, raw: seq<Byte>)
    requires contents != [] && Widen(contents, |contents|) == Ok(raw)
    ensures Unsigned(contents) < Power(32) && raw == BigEndian(Unsigned(contents), 32)
  {
    Widens(contents);
  }

  lemma Pieces(value: seq<Byte>, a: nat, b: nat)
    requires 1 <= a <= b <= |value|
    ensures value == [value[0]] + value[1..a] + value[a..b] + value[b..]
  {
  }

  /** An accepted input is a sequence of two integers and nothing else. */
  lemma AcceptedReads(value: seq<Byte>) returns (offset: nat, first: seq<Byte>, middle: nat, second: seq<Byte>)
    requires DerToRaw(value).Ok?
    ensures ReadsAs(value, offset, Ok(first), middle, Ok(second))
    ensures DerToRaw(value) == Ok(first + second)
  {
    offset := ReadLength(value, 1).value.1;
    first, middle := ReadInteger(value, offset).value.0, ReadInteger(value, offset).value.1;
    second := ReadInteger(value, middle).value.0;
  }

  /** The signature whose parts start at these offsets. */
  function SignatureAt(value: seq<Byte>, offset: nat, rStart: nat, middle: nat, sStart: nat): Signature
    requires 1 <= offset < rStart <= middle < sStart <= |value|
  {
    Signature(value[1..offset], value[offset + 1..rStart], value[rStart..middle], value[middle + 1..sStart],
              value[sStart..|value|])
  }

  lemma Composed(value: seq<Byte>, offset: nat, rStart: nat, middle: nat, sStart: nat)
    requires 1 <= offset < rStart <= middle < sStart <= |value|
    requires value[0] == 0x30 && value[offset] == 0x02 && value[middle] == 0x02
    ensures value == Encoded(SignatureAt(value, offset, rStart, middle, sStart))
  {
    Pieces(value, offset, middle);
    IntegerPieces(value, offset, rStart, middle);
    IntegerPieces(value, middle, sStart, |value|);
    assert value[middle..|value|] == value[middle..];
  }

  lemma ShapedAt(value: seq<Byte>, offset: nat, rStart: nat, middle: nat, sStart: nat)
    requires 1 <= offset < rStart < middle < sStart < |value| && offset + 1 < rStart && middle + 1 < sStart
    requires EncodesLength(value[1..offset], |value| - offset)
    requires EncodesLength(value[offset + 1..rStart], middle - rStart)
    requires EncodesLength(value[middle + 1..sStart], |value| - sStart)
    ensures WellFormed(SignatureAt(value, offset, rStart, middle, sStart))
  {
    var signature := SignatureAt(value, offset, rStart, middle, sStart);
    assert |signature.r| == middle - rStart && |signature.s| == |value| - sStart;
    assert Size(signature.rLength, signature.r) == middle - offset && Size(signature.sLength, signature.s) == |value| - middle;
  }

  /** One integer's part of a signature. */
  lemma IntegerPart(value: seq<Byte>, offset: nat, raw: seq<Byte>, end: nat) returns (start: nat)
    requires ReadInteger(value, offset) == Ok((raw, end))
    ensures offset + 1 < start < end <= |value| && value[offset] == 0x02
    ensures EncodesLength(value[offset + 1..start], end - start)
    ensures Unsigned(value[start..end]) < Power(32) && raw == BigEndian(Unsigned(value[start..end]), 32)
  {
    var last: nat;
    start, last := IntegerRead(value, offset);
    WidenedFits(value[start..end], raw);
  }

  lemma ReadParts(value: seq<Byte>, offset: nat, first: seq<Byte>, middle: nat, second: seq<Byte>) returns (signature: Signature)
    requires ReadsAs(value, offset, Ok(first), middle, Ok(second))
    ensures WellFormed(signature) && Fits(signature) && value == Encoded(signature)
    ensures first + second == Raw(signature)
  {
    LengthRead(value, 1);
    var rStart := IntegerPart(value, offset, first, middle);
    var sStart := IntegerPart(value, middle, second, |value|);
    Composed(value, offset, rStart, middle, sStart);
    ShapedAt(value, offset, rStart, middle, sStart);
    signature := SignatureAt(value, offset, rStart, middle, sStart);
  }

  lemma AcceptedParts(value: seq<Byte>) returns (signature: Signature)
    requires DerToRaw(value).Ok?
    ensures WellFormed(signature) && Fits(signature) && value == Encoded(signature)
    ensures DerToRaw(value) == Ok(Raw(signature))
  {
    var offset, first, middle, second := AcceptedReads(value);
    signature := ReadParts(value, offset, first, middle, second);
  }

  /** Every accepted input is a well-formed signature, consumed to the end, and the
      64 bytes hold its two unsigned values. */
  lemma AcceptedIsEncoded(value: seq<Byte>) returns (signature: Signature)
    requires DerToRaw(value).Ok?
    ensures WellFormed(signature) && Fits(signature) && value == Encoded(signature)
    ensures var raw := DerToRaw(value).value;
            && |raw| == 64 && Unsigned(raw[..32]) == Unsigned(signature.r) && Unsigned(raw[32..]) == Unsigned(signature.s)
  {
    signature := AcceptedParts(value);
    RawValues(signature.r, signature.s);
  }

  lemma RawValues(r: seq<Byte>, s: seq<Byte>)
    requires Unsigned(r) < Power(32) && Unsigned(s) < Power(32)
    ensures var raw := BigEndian(Unsigned(r), 32) + BigEndian(Unsigned(s), 32);
            && |raw| == 64 && Unsigned(raw[..32]) == Unsigned(r) && Unsigned(raw[32..]) == Unsigned(s)
  {
    var first, second := BigEndian(Unsigned(r), 32), BigEndian(Unsigned(s), 32);
    UnsignedBigEndian(Unsigned(r), 32);
    UnsignedBigEndian(Unsigned(s), 32);
    assert (first + second)[..32] == first && (first + second)[32..] == second;
  }

  // ---- The round trip ----

  /** The contents X.690 section 8.3 gives a non-negative INTEGER: the fewest bytes
      whose first bit is zero. */
  function Minimal(x: nat): (bytes: seq<Byte>)
    ensures bytes != []
  {
    if x < 128 then [x] else Minimal(x / 256) + [x % 256]
  }

  /** A signature of short contents, with every length in one byte. */
  function Short(r: seq<Byte>, s: seq<Byte>): Signature {
    Signature([(|r| + |s| + 4) % 256], [|r| % 256], r, [|s| % 256], s)
  }

  function DerEncode(r: nat, s: nat): seq<Byte> {
    Encoded(Short(Minimal(r), Minimal(s)))
  }

  lemma ShortIsWellFormed(r: seq<Byte>, s: seq<Byte>)
    requires 1 <= |r| <= 33 && 1 <= |s| <= 33
    ensures WellFormed(Short(r, s))
  {
  }

  lemma {:induction false} MinimalValue(x: nat, width: nat)
    requires x < Power(width)
    ensures Unsigned(Minimal(x)) == x && |Minimal(x)| <= width + 1
    ensures Minimal(x)[0] < 0x80 && (|Minimal(x)| > 1 && Minimal(x)[0] == 0 ==> Minimal(x)[1] >= 0x80)
    decreases width
  {
    if x < 128 {
      UnsignedOne(x);
    } else {
      MinimalValue(x / 256, width - 1);
      DropLast(Minimal(x / 256), x % 256);
    }
  }

  /** For all r and s below 2 to the 256, their DER encoding becomes the 64 bytes of
      r followed by s that RFC 7518 section 3.4 asks for. */
  lemma RoundTrip(r: nat, s: nat)
    requires r < BOUND && s < BOUND
    ensures DerToRaw(DerEncode(r, s)) == Ok(BigEndian(r, 32) + BigEndian(s, 32))
  {
    PowerOf32();
    MinimalValue(r, 32);
    MinimalValue(s, 32);
    ShortIsWellFormed(Minimal(r), Minimal(s));
    ParsesEncoded(Short(Minimal(r), Minimal(s)));
  }
}
