/** The KNX payloads of values: KNX Standard 03_07_02 Datapoint Types,
    section 3.10 for the two-octet float of DPT 9.001. */
module KnxPayloads {
  import opened Values

  type Byte = b: nat | b < 256

  const KIND_BOOL: nat := 1
  const KIND_PERCENT: nat := 2
  const KIND_TEMPERATURE: nat := 3

  /** A value as it crosses the C interface; temperatures are hundredths of a
      degree in a signed 32-bit scalar. */
  datatype AbiValue = AbiValue(dpt: Dpt, kind: nat, reserved: nat, reserved2: nat, scalar: int)

  // ----- scaling --------------------------------------------------------------------------------------

  function Pow2(e: nat): (r: nat)
    ensures r >= 1
  {
    if e == 0 then 1 else 2 * Pow2(e - 1)
  }

  function CeilDiv(n: nat, d: nat): nat
    requires d > 0
  {
    (n + d - 1) / d
  }

  /** `sign(v) * ceil(|v| / 2^e)`. */
  function Scaled(v: int, e: nat): int {
    if v >= 0 then CeilDiv(v, Pow2(e)) else -(CeilDiv(-v, Pow2(e)) as int)
  }

  predicate Fits(m: int) { -2048 <= m <= 2047 }

  /** One step of the loop; division truncates towards zero. */
  function Halved(m: int): int {
    if m >= 0 then (m + 1) / 2 else -((1 - m) / 2)
  }

  /** The mantissa first fits at exponent `e`. */
  ghost predicate LeastExponent(v: int, e: nat) {
    e <= 15 && Fits(Scaled(v, e)) && forall k: nat :: k < e ==> !Fits(Scaled(v, k))
  }

  lemma CeilBounds(n: nat, d: nat)
    requires d > 0
    ensures n <= CeilDiv(n, d) * d < n + d
  {
    var m := n + d - 1;
    assert m == (m / d) * d + m % d;
  }

  lemma CeilIs(n: nat, d: nat, q: nat)
    requires d > 0 && n <= q * d < n + d
    ensures CeilDiv(n, d) == q
  {
    CeilBounds(n, d);
    var c := CeilDiv(n, d);
    ProductsApart(c, q, d);
  }

  lemma ProductsApart(a: int, b: int, d: nat)
    requires d > 0
    ensures a < b ==> a * d + d <= b * d
    ensures b < a ==> b * d + d <= a * d
  {
    if a < b { ProductIsNat(b - a - 1, d); assert (b - a - 1) * d == b * d - a * d - d; }
    if b < a { ProductIsNat(a - b - 1, d); assert (a - b - 1) * d == a * d - b * d - d; }
  }

  lemma ProductIsNat(a: nat, b: nat)
    ensures a * b >= 0
  {
  }

  lemma CeilTwice(n: nat, d: nat)
    requires d > 0
    ensures CeilDiv(n, 2 * d) == (CeilDiv(n, d) + 1) / 2
  {
    CeilBounds(n, d);
    var c := CeilDiv(n, d);
    var q := (c + 1) / 2;
    assert c <= 2 * q <= c + 1;
    assert q * (2 * d) == (2 * q) * d;
    ProductsApart(2 * q, c, d);
    if 2 * q == c + 1 { assert (c + 1) * d == c * d + d; }
    CeilIs(n, 2 * d, q);
  }

  /** Halving repeatedly is scaling once. */
  lemma ScaledNext(v: int, e: nat)
    ensures Scaled(v, e + 1) == Halved(Scaled(v, e))
  {
    CeilTwice(if v >= 0 then v else -v, Pow2(e));
  }

  // ----- payloads ---------------------------------------------------------------------------------------

  /** Sign bit, four exponent bits, and the low eleven bits of the mantissa. */
  function RawFloat(m: int, e: nat): (r: nat)
    requires Fits(m) && e <= 15
    ensures r < 0x1_0000
  {
    (if m < 0 then 0x8000 else 0) + e * 0x800 + m % 0x800
  }

  function FloatBytes(m: int, e: nat): seq<Byte>
    requires Fits(m) && e <= 15
  {
    [RawFloat(m, e) / 256, RawFloat(m, e) % 256]
  }

  ghost function TemperatureBytes(v: int): Option<seq<Byte>> {
    if e :| LeastExponent(v, e) then Some(FloatBytes(Scaled(v, e), e)) else None
  }

  /** The payload of a value, if it has one. */
  ghost function PayloadOf(value: AbiValue): Option<seq<Byte>> {
    if value.reserved != 0 || value.reserved2 != 0 then None
    else if value.dpt == DPT_BOOL && value.kind == KIND_BOOL && (value.scalar == 0 || value.scalar == 1) then Some([value.scalar as Byte])
    else if value.dpt == DPT_PERCENT && value.kind == KIND_PERCENT && 0 <= value.scalar <= 100 then Some([PercentByte(value.scalar)])
    else if value.dpt == DPT_TEMPERATURE && value.kind == KIND_TEMPERATURE then TemperatureBytes(value.scalar)
    else None
  }

  function PercentByte(percent: nat): Byte
    requires percent <= 100
  {
    (percent * 255 + 50) / 100
  }

  lemma LeastIsUnique(v: int, e: nat)
    requires LeastExponent(v, e)
    ensures TemperatureBytes(v) == Some(FloatBytes(Scaled(v, e), e))
  {
    var other: nat :| LeastExponent(v, other) && TemperatureBytes(v) == Some(FloatBytes(Scaled(v, other), other));
    OneLeast(v, e, other);
    OneLeast(v, other, e);
  }

  lemma OneLeast(v: int, e: nat, f: nat)
    requires LeastExponent(v, e) && LeastExponent(v, f)
    ensures e <= f
  {
    assert f < e ==> !Fits(Scaled(v, f));
  }

  // ----- where the arithmetic leaves 32 bits ----------------------------------------------------------

  predicate FitsI32(x: int) { I32_MIN <= x <= I32_MAX }

  /** What the loop divides by two. */
  function Adjusted(m: int): int { if m >= 0 then m + 1 else m - 1 }

  /** The loop runs a step at exponent `e`. */
  ghost predicate Steps(v: int, e: nat) { e < 15 && forall k: nat :: k <= e ==> !Fits(Scaled(v, k)) }

  /** Every adjusted mantissa the loop computes fits a signed 32-bit integer. */
  ghost predicate NeverOverflows(v: int) {
    forall e: nat :: Steps(v, e) ==> FitsI32(Adjusted(Scaled(v, e)))
  }

  lemma {:induction false} ScaledWithin(v: int, e: nat)
    requires FitsI32(v) && e > 0
    ensures I32_MIN < Scaled(v, e) < I32_MAX
    decreases e
  {
    ScaledNext(v, e - 1);
    if e > 1 { ScaledWithin(v, e - 1); }
  }

  /** The adjustment overflows at the two ends of the 32-bit range, and nowhere
      else. */
  lemma OverflowsExactlyAtTheEnds(v: int)
    requires FitsI32(v)
    ensures NeverOverflows(v) <==> I32_MIN < v < I32_MAX
  {
    assert Scaled(v, 0) == v;
    if I32_MIN < v < I32_MAX {
      forall e: nat | Steps(v, e) ensures FitsI32(Adjusted(Scaled(v, e))) {
        if e > 0 { ScaledWithin(v, e); }
      }
    } else {
      assert Steps(v, 0) && !FitsI32(Adjusted(Scaled(v, 0)));
    }
  }

  /** The hottest and the coldest scalar overflow, although neither has a
      payload. */
  lemma EndsOverflow()
    ensures !NeverOverflows(I32_MAX) && !NeverOverflows(I32_MIN)
    ensures TemperatureBytes(I32_MAX).None? && TemperatureBytes(I32_MIN).None?
  {
    OverflowsExactlyAtTheEnds(I32_MAX);
    OverflowsExactlyAtTheEnds(I32_MIN);
    EncodedExactlyInRange(I32_MAX);
    EncodedExactlyInRange(I32_MIN);
  }

  // ----- the encoder ------------------------------------------------------------------------------------

  /** The scaling loop on any 32-bit scalar. It is not `defined` when a step
      overflows, which the C++ standard leaves without a meaning. */
  method ScaleMantissa(v: int) returns (defined: bool, mantissa: int, exponent: nat)
    requires FitsI32(v)
    ensures defined <==> NeverOverflows(v)
    ensures defined ==> exponent <= 15 && mantissa == Scaled(v, exponent)
    ensures defined ==> (Fits(mantissa) <==> exists e :: LeastExponent(v, e)) && (Fits(mantissa) ==> LeastExponent(v, exponent))
  {
    defined, mantissa, exponent := true, v, 0;
    while (mantissa > 2047 || mantissa < -2048) && exponent < 15
      invariant exponent <= 15 && mantissa == Scaled(v, exponent) && FitsI32(mantissa)
      invariant forall k: nat :: k < exponent ==> !Fits(Scaled(v, k)) && FitsI32(Adjusted(Scaled(v, k)))
    {
      var adjusted := if mantissa >= 0 then mantissa + 1 else mantissa - 1;
      if adjusted < I32_MIN || adjusted > I32_MAX {
        assert Steps(v, exponent);
        return false, mantissa, exponent;
      }
      ScaledNext(v, exponent);
      mantissa := if adjusted >= 0 then adjusted / 2 else -(-adjusted / 2);
      exponent := exponent + 1;
    }
    forall e: nat | Steps(v, e) ensures FitsI32(Adjusted(Scaled(v, e))) { assert e < exponent; }
    if Fits(mantissa) {
      assert LeastExponent(v, exponent);
    } else {
      assert forall e: nat :: e <= 15 ==> !Fits(Scaled(v, e));
    }
  }

  /** The scaling of this value is reached and overflows. */
  ghost predicate Overflows(value: AbiValue) {
    && value.reserved == 0 && value.reserved2 == 0
    && value.dpt == DPT_TEMPERATURE && value.kind == KIND_TEMPERATURE && !NeverOverflows(value.scalar)
  }

  method EncodeValue(value: AbiValue, payload: array?<Byte>) returns (defined: bool, ok: bool, size: nat, dpt: Dpt)
    requires payload != null ==> payload.Length >= 2
    requires FitsI32(value.scalar)
    modifies if payload == null then {} else {payload}
    ensures defined <==> payload == null || !Overflows(value)
    ensures ok <==> defined && payload != null && PayloadOf(value).Some?
    ensures ok ==> dpt == value.dpt && size == |PayloadOf(value).value| && size <= payload.Length
                   && payload[..size] == PayloadOf(value).value && payload[size..] == old(payload[size..])
    ensures payload != null && !ok ==> payload[..] == old(payload[..])
  {
    defined, ok, size, dpt := true, false, 0, Dpt(0, 0);
    if payload == null || value.reserved != 0 || value.reserved2 != 0 { return; }
    dpt := value.dpt;
    if dpt == DPT_BOOL && value.kind == KIND_BOOL && (value.scalar == 0 || value.scalar == 1) {
      payload[0] := if value.scalar == 0 then 0 else 1;
      return true, true, 1, dpt;
    }
    if dpt == DPT_PERCENT && value.kind == KIND_PERCENT && 0 <= value.scalar <= 100 {
      payload[0] := PercentByte(value.scalar);
      return true, true, 1, dpt;
    }
    if dpt == DPT_TEMPERATURE && value.kind == KIND_TEMPERATURE {
      var mantissa, exponent;
      defined, mantissa, exponent := ScaleMantissa(value.scalar);
      if !defined || mantissa > 2047 || mantissa < -2048 { return; }
      LeastIsUnique(value.scalar, exponent);
      var raw := RawFloat(mantissa, exponent);
      payload[0] := raw / 256;
      payload[1] := raw % 256;
      return true, true, 2, dpt;
    }
  }

  // ----- reading payloads back --------------------------------------------------------------------------

  function PercentValue(payload: seq<Byte>): nat {
    if |payload| == 1 then (payload[0] as int * 100 + 127) / 255 else 0
  }

  function TemperatureCenti(payload: seq<Byte>): int {
    if |payload| != 2 then 0
    else DecodeRaw(payload[0] as int * 256 + payload[1] as int)
  }

  function DecodeRaw(raw: nat): int {
    var mantissa := raw % 0x800 - if raw >= 0x8000 then 0x800 else 0;
    mantissa * Pow2(raw / 0x800 % 16)
  }

  lemma RawFields(m: int, e: nat)
    requires Fits(m) && e <= 15
    ensures var raw := RawFloat(m, e);
            raw % 0x800 == m % 0x800 && raw / 0x800 % 16 == e && (raw >= 0x8000 <==> m < 0)
  {
    var raw, high := RawFloat(m, e), e + if m < 0 then 16 else 0;
    assert raw == high * 0x800 + m % 0x800;
    assert raw / 0x800 == high;
  }

  lemma FloatRoundTrip(m: int, e: nat)
    requires Fits(m) && e <= 15
    ensures TemperatureCenti(FloatBytes(m, e)) == m * Pow2(e)
  {
    hide DecodeRaw, RawFloat, Pow2;
    var raw := RawFloat(m, e);
    assert raw == (raw / 256) * 256 + raw % 256;
    DecodedRaw(m, e);
  }

  lemma DecodedRaw(m: int, e: nat)
    requires Fits(m) && e <= 15
    ensures DecodeRaw(RawFloat(m, e)) == m * Pow2(e)
  {
    hide RawFloat, Pow2;
    RawFields(m, e);
    LowBits(m);
  }

  lemma LowBits(m: int)
    requires Fits(m)
    ensures m % 0x800 == if m < 0 then m + 0x800 else m
  {
  }

  /** The switch a receiver reads: the low bit of the one octet. */
  function BoolOf(payload: seq<Byte>): bool { |payload| == 1 && payload[0] % 2 != 0 }

  /** A value has a payload exactly if its reserved fields are clear, its kind is
      that of its datapoint type, and its scalar is in the range of the type. */
  lemma PayloadExactly(value: AbiValue)
    ensures PayloadOf(value).Some? <==>
      && value.reserved == 0 && value.reserved2 == 0
      && (|| (value.dpt == DPT_BOOL && value.kind == KIND_BOOL && 0 <= value.scalar <= 1)
          || (value.dpt == DPT_PERCENT && value.kind == KIND_PERCENT && 0 <= value.scalar <= 100)
          || (value.dpt == DPT_TEMPERATURE && value.kind == KIND_TEMPERATURE && -2048 * 32_768 <= value.scalar <= 2047 * 32_768))
  {
    EncodedExactlyInRange(value.scalar);
  }

  /** A receiver reads the switch and the percentage that were sent, and no octet
      stands for a percentage more closely. */
  lemma PayloadReads(value: AbiValue)
    requires PayloadOf(value).Some?
    ensures value.dpt == DPT_BOOL ==> (BoolOf(PayloadOf(value).value) <==> value.scalar == 1)
    ensures value.dpt == DPT_PERCENT ==> PercentValue(PayloadOf(value).value) == value.scalar
    ensures value.dpt == DPT_PERCENT ==> -50 <= 100 * PayloadOf(value).value[0] - 255 * value.scalar <= 50
  {
    if value.dpt == DPT_PERCENT {
      PercentRoundTrip(value.scalar);
      var b := PercentByte(value.scalar);
      assert 100 * b <= value.scalar * 255 + 50 < 100 * b + 100;
    }
  }

  /** Every percentage survives its octet. */
  lemma PercentRoundTrip(percent: nat)
    requires percent <= 100
    ensures PercentValue([PercentByte(percent)]) == percent
  {
    var b := PercentByte(percent);
    assert 100 * b <= percent * 255 + 50 < 100 * b + 100;
  }

  // ----- which temperatures have a payload ----------------------------------------------------------------

  lemma PowersOfTwo()
    ensures Pow2(15) == 32_768
  {
    assert Pow2(3) == 8;
    assert Pow2(6) == 64;
    assert Pow2(9) == 512;
    assert Pow2(12) == 4096;
  }

  /** Larger exponents never need a larger mantissa. */
  lemma {:induction false} ScaledShrinks(v: int, e: nat, f: nat)
    requires e <= f && Fits(Scaled(v, e))
    ensures Fits(Scaled(v, f))
    decreases f
  {
    if e < f {
      ScaledShrinks(v, e, f - 1);
      ScaledNext(v, f - 1);
    }
  }

  lemma {:induction false} LeastExists(v: int, e: nat) returns (least: nat)
    requires e <= 15 && Fits(Scaled(v, e))
    ensures LeastExponent(v, least) && least <= e
  {
    if e > 0 && Fits(Scaled(v, e - 1)) {
      least := LeastExists(v, e - 1);
    } else {
      least := e;
      forall k: nat | k < e ensures !Fits(Scaled(v, k)) {
        if Fits(Scaled(v, k)) { ScaledShrinks(v, k, e - 1); }
      }
    }
  }

  /** A temperature is encoded exactly within the range of the format. */
  lemma EncodedExactlyInRange(v: int)
    ensures TemperatureBytes(v).Some? <==> -2048 * 32_768 <= v <= 2047 * 32_768
  {
    PowersOfTwo();
    var n: nat := if v >= 0 then v else -v;
    CeilBounds(n, 32_768);
    if -2048 * 32_768 <= v <= 2047 * 32_768 {
      var least := LeastExists(v, 15);
    } else if e: nat :| LeastExponent(v, e) {
      ScaledShrinks(v, e, 15);
    }
  }

  // ----- the payload for invalid data -----------------------------------------------------------------------

  /** The octets that datapoint type 9 reserves for invalid data. */
  const INVALID_DATA: seq<Byte> := [0x7F, 0xFF]

  lemma InvalidFields(m: int, e: nat)
    requires Fits(m) && e <= 15
    ensures FloatBytes(m, e) == INVALID_DATA <==> m == 2047 && e == 15
  {
    var raw := RawFloat(m, e);
    assert raw == (raw / 256) * 256 + raw % 256;
    RawFields(m, e);
  }

  /** Exactly the temperatures above 2046 of the largest units that still have a
      payload are written as invalid data. */
  lemma WrittenAsInvalid(v: int)
    ensures TemperatureBytes(v) == Some(INVALID_DATA) <==> 2046 * 32_768 < v <= 2047 * 32_768
  {
    PowersOfTwo();
    EncodedExactlyInRange(v);
    if e: nat :| LeastExponent(v, e) {
      LeastIsUnique(v, e);
      InvalidFields(Scaled(v, e), e);
      hide Pow2, CeilDiv, FloatBytes;
      ScaledBounds(v, e);
      if 2046 * 32_768 < v && e < 15 {
        PowGrows(e + 1, 15);
        PowDoubles(e);
        ProductGrows(Scaled(v, e), 2047, Pow2(e));
      }
    }
  }

  lemma PowDoubles(e: nat)
    ensures Pow2(e + 1) == 2 * Pow2(e)
  {
  }

  // ----- how close the decoded temperature is ----------------------------------------------------------------

  /** What a receiver decodes. */
  ghost function Received(v: int): int
    requires TemperatureBytes(v).Some?
  {
    TemperatureCenti(TemperatureBytes(v).value)
  }

  lemma ReceivedIs(v: int) returns (e: nat)
    requires TemperatureBytes(v).Some?
    ensures LeastExponent(v, e) && Received(v) == Scaled(v, e) * Pow2(e)
  {
    e :| LeastExponent(v, e);
    LeastIsUnique(v, e);
    FloatRoundTrip(Scaled(v, e), e);
  }

  /** The decoded temperature lies within one unit of the least exponent, away
      from zero. */
  lemma ReceivedIsClose(v: int) returns (e: nat)
    requires TemperatureBytes(v).Some?
    ensures LeastExponent(v, e)
    ensures v >= 0 ==> v <= Received(v) <= v + Pow2(e) - 1
    ensures v < 0 ==> v - (Pow2(e) - 1) <= Received(v) <= v
  {
    hide Received, CeilDiv, Pow2, LeastExponent, TemperatureBytes;
    e := ReceivedIs(v);
    ScaledBounds(v, e);
  }

  lemma ScaledBounds(v: int, e: nat)
    ensures v >= 0 ==> v <= Scaled(v, e) * Pow2(e) < v + Pow2(e)
    ensures v < 0 ==> v - Pow2(e) < Scaled(v, e) * Pow2(e) <= v
  {
    hide CeilDiv, Pow2;
    var n: nat, d := if v >= 0 then v else -v, Pow2(e);
    CeilBounds(n, d);
    NegatedProduct(CeilDiv(n, d), d);
  }

  lemma NegatedProduct(a: int, d: int)
    ensures (-a) * d == -(a * d)
  {
  }

  lemma {:induction false} PowSplits(e: nat, f: nat)
    requires e <= f
    ensures Pow2(f) == Pow2(f - e) * Pow2(e)
    decreases f
  {
    if e < f { PowSplits(e, f - 1); }
  }

  /** Every value the format can hold is carried exactly. */
  lemma RepresentableIsExact(m: int, k: nat)
    requires Fits(m) && k <= 15
    ensures TemperatureBytes(m * Pow2(k)).Some? && Received(m * Pow2(k)) == m * Pow2(k)
  {
    var v := m * Pow2(k);
    ScaledMultiple(m, k, k);
    var least := LeastExists(v, k);
    var e := ReceivedIs(v);
    assert e <= k;
    PowSplits(e, k);
    ScaledMultiple(m, k, e);
  }

  lemma ScaledMultiple(m: int, k: nat, e: nat)
    requires e <= k
    ensures Scaled(m * Pow2(k), e) == m * Pow2(k - e) && Scaled(m * Pow2(k), e) * Pow2(e) == m * Pow2(k)
  {
    hide Pow2, CeilDiv;
    var n: nat, p, d := if m >= 0 then m else -m, Pow2(k - e), Pow2(e);
    PowSplits(e, k);
    ProductIsNat(n, p);
    Regroup(n, p, d);
    Regroup(m, p, d);
    NegatedProduct(n, Pow2(k));
    NegatedProduct(n, p);
    CeilIs((n * p) * d, d, n * p);
    if m < 0 { ProductPositive(n, Pow2(k)); }
  }

  lemma ProductPositive(a: nat, b: nat)
    requires a > 0 && b > 0
    ensures a * b > 0
  {
  }

  lemma Regroup(a: int, b: int, c: int)
    ensures (a * b) * c == a * (b * c)
  {
  }

  /** Decoding any two octets and encoding the result keeps the temperature. */
  lemma ReencodingIsStable(payload: seq<Byte>)
    requires |payload| == 2
    ensures TemperatureBytes(TemperatureCenti(payload)).Some? && Received(TemperatureCenti(payload)) == TemperatureCenti(payload)
  {
    var raw := payload[0] as int * 256 + payload[1] as int;
    RepresentableIsExact(raw % 0x800 - (if raw >= 0x8000 then 0x800 else 0), raw / 0x800 % 16);
  }

  // ----- order ---------------------------------------------------------------------------------------------

  lemma CeilGrows(a: nat, b: nat, d: nat)
    requires a <= b && d > 0
    ensures CeilDiv(a, d) <= CeilDiv(b, d)
  {
    CeilBounds(a, d);
    CeilBounds(b, d);
    ProductsApart(CeilDiv(a, d), CeilDiv(b, d), d);
  }

  lemma {:induction false} PowGrows(e: nat, f: nat)
    requires e <= f
    ensures Pow2(e) <= Pow2(f)
    decreases f
  {
    if e < f { PowGrows(e, f - 1); }
  }

  /** Magnitudes scaled to their least exponents under a mantissa limit keep
      their order. */
  lemma MagnitudesInOrder(a: nat, e: nat, b: nat, f: nat, limit: nat)
    requires a <= b
    requires CeilDiv(a, Pow2(e)) <= limit && forall k: nat :: k < e ==> CeilDiv(a, Pow2(k)) > limit
    requires CeilDiv(b, Pow2(f)) <= limit && forall k: nat :: k < f ==> CeilDiv(b, Pow2(k)) > limit
    ensures CeilDiv(a, Pow2(e)) * Pow2(e) <= CeilDiv(b, Pow2(f)) * Pow2(f)
  {
    hide CeilDiv, Pow2;
    CeilGrows(a, b, Pow2(f));
    assert e <= f;
    if e == f {
      ProductGrows(CeilDiv(a, Pow2(e)), CeilDiv(b, Pow2(e)), Pow2(e));
    } else {
      var step := Pow2(f - 1);
      CeilBounds(b, step);
      CeilBounds(b, Pow2(f));
      PowGrows(e, f - 1);
      ProductsApart(limit, CeilDiv(b, step), step);
      ProductGrows(limit + 1, CeilDiv(b, step), step);
      ProductGrows(CeilDiv(a, Pow2(e)), limit, Pow2(e));
      ProductGrows(Pow2(e), step, limit);
      assert (limit + 1) * step == limit * step + step;
    }
  }

  lemma ProductGrows(a: int, b: int, d: nat)
    requires a <= b
    ensures a * d <= b * d
  {
    ProductIsNat(b - a, d);
    assert (b - a) * d == b * d - a * d;
  }

  /** The magnitude a receiver decodes, under the mantissa limit of its sign. */
  lemma ReceivedMagnitude(v: int, limit: nat) returns (e: nat)
    requires TemperatureBytes(v).Some? && limit == if v >= 0 then 2047 else 2048
    ensures var n: nat := if v >= 0 then v else -v;
            && CeilDiv(n, Pow2(e)) <= limit && (forall k: nat :: k < e ==> CeilDiv(n, Pow2(k)) > limit)
            && Received(v) == if v >= 0 then CeilDiv(n, Pow2(e)) * Pow2(e) else -(CeilDiv(n, Pow2(e)) * Pow2(e))
  {
    hide CeilDiv, Pow2, Received, TemperatureBytes;
    e := ReceivedIs(v);
    var n: nat := if v >= 0 then v else -v;
    NegatedProduct(CeilDiv(n, Pow2(e)), Pow2(e));
    forall k: nat | k < e ensures CeilDiv(n, Pow2(k)) > limit {
      assert !Fits(Scaled(v, k));
    }
  }

  /** Warmer temperatures are never received as colder. */
  lemma ReceivedInOrder(v: int, w: int)
    requires v <= w && TemperatureBytes(v).Some? && TemperatureBytes(w).Some?
    ensures Received(v) <= Received(w)
  {
    hide CeilDiv, Pow2, Received, TemperatureBytes, LeastExponent;
    var closeV := ReceivedIsClose(v);
    var closeW := ReceivedIsClose(w);
    if 0 <= v {
      var e := ReceivedMagnitude(v, 2047);
      var f := ReceivedMagnitude(w, 2047);
      MagnitudesInOrder(v, e, w, f, 2047);
    } else if w < 0 {
      var e := ReceivedMagnitude(v, 2048);
      var f := ReceivedMagnitude(w, 2048);
      MagnitudesInOrder(-w, f, -v, e, 2048);
    }
  }
}
