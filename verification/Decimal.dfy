/** The other NUMERIC decoder: a bounded mantissa and a scale. */
module Decimals {
  import opened Protocol
  import opened Numerics
  import opened NumericValues

  /** A mantissa of at most 96 bits and a scale of at most 28. */
  datatype Decimal = Decimal(mantissa: int, scale: nat)

  const MANTISSA_LIMIT := 0x1_00000000_00000000_00000000
  const MAX_SCALE := 28

  /** The accumulator has 128 bits, one of them for the sign. */
  const I128 := 0x1_00000000_00000000_00000000_00000000
  const I128_LIMIT := 0x80000000_00000000_00000000_00000000

  predicate InI128(v: int) {
    0 - I128_LIMIT <= v < I128_LIMIT
  }

  /** What is left of an integer in 128 bits. */
  function Wrap128(v: int): (w: int)
    ensures InI128(w)
    ensures InI128(v) ==> w == v
  {
    (v + I128_LIMIT) % I128 - I128_LIMIT
  }

  lemma WrapShift(v: int, k: int)
    ensures Wrap128(v + k * I128) == Wrap128(v)
  {
    ShiftMod(v + I128_LIMIT, k, I128);
  }

  lemma ShiftMod(x: int, k: int, m: nat)
    requires m > 0
    ensures (x + k * m) % m == x % m
  {
    var y := x + k * m;
    assert (y / m - x / m - k) * m == x % m - y % m;
    Scales(y / m - x / m - k, m);
  }

  /** Wrapping at every step is wrapping once at the end. */
  lemma WrapStep(a: int, d: int)
    ensures Wrap128(Wrap128(a) * 10000 + d) == Wrap128(a * 10000 + d)
  {
    var q := (a + I128_LIMIT) / I128;
    assert Wrap128(a) == a - q * I128;
    WrapShift(a * 10000 + d, -q * 10000);
  }

  function Magnitude(m: int): (a: nat)
    ensures a == m || a == -m
  {
    if m < 0 then -m else m
  }

  predicate Representable(m: int): (fits: bool)
    ensures fits <==> -0x1_00000000_00000000_00000000 < m < 0x1_00000000_00000000_00000000
  {
    Magnitude(m) < MANTISSA_LIMIT
  }

  /** Digits as the decoder reads them, without a sign. */
  function RawDigits(bytes: seq<Octet>, count: nat): (digits: seq<int>)
    requires |bytes| >= 2 * count
    ensures |digits| == count
  {
    seq(count, i requires 0 <= i < count => U16(bytes[2 * i], bytes[2 * i + 1]))
  }

  function Signed(e: Encoding, m: int): int {
    if e.sign == NUMERIC_NEG then -m else m
  }

  /** The mantissa the decoder accumulates: a build that checks its arithmetic
      stops at an overflow, one that does not wraps around. */
  function Mantissa(digits: seq<int>, checked: bool): int {
    if checked then Horner(digits) else Wrap128(Horner(digits))
  }

  /** The decoder can represent the mantissa, and scale it, without rounding. */
  predicate Fits(m: int, exponent: int) {
    && Representable(m)
    && (exponent > 0 ==> Representable(m * Pow10(exponent)))
    && -exponent <= 28
  }

  /** To the nearest, and half to even, on the magnitude. */
  function Rounded(m: nat, p: nat): nat
    requires p > 0
  {
    var q, r := m / p, m % p;
    if 2 * r > p || (2 * r == p && q % 2 == 1) then q + 1 else q
  }

  lemma Nearest(m: nat, p: nat, q: nat, r: nat)
    requires m == q * p + r && r < p
    ensures 2 * r <= p ==> 0 - p <= 2 * (q * p - m) <= 0 && (2 * r < p ==> 2 * (q * p - m) > 0 - p)
    ensures 2 * r >= p ==> 0 <= 2 * ((q + 1) * p - m) <= p && (2 * r > p ==> 2 * ((q + 1) * p - m) < p)
  {
    assert (q + 1) * p == q * p + p;
  }

  function RoundDp(d: Decimal, places: nat): Decimal {
    if d.scale <= places then d
    else
      var q := Rounded(Magnitude(d.mantissa), Pow10(d.scale - places));
      Decimal(if d.mantissa < 0 then 0 - q else q, places)
  }

  /** Nothing of that many places is nearer, and of two equally near the one
      with an even mantissa is taken. */
  lemma RoundsToNearest(d: Decimal, places: nat)
    ensures d.scale <= places ==> RoundDp(d, places) == d
    ensures d.scale > places ==>
              var r, p := RoundDp(d, places), Pow10(d.scale - places);
              var off := r.mantissa * p - d.mantissa;
              r.scale == places && 0 - p <= 2 * off <= p && (2 * off == 0 - p || 2 * off == p ==> r.mantissa % 2 == 0)
  {
    hide Rounded, Pow10;
    if d.scale > places {
      var m, p := Magnitude(d.mantissa), Pow10(d.scale - places);
      Halfway(m, p);
      Negated(Rounded(m, p), p);
    }
  }

  lemma Halfway(m: nat, p: nat)
    requires p > 0
    ensures var off := Rounded(m, p) * p - m;
            0 - p <= 2 * off <= p && (2 * off == 0 - p || 2 * off == p ==> Rounded(m, p) % 2 == 0)
  {
    var q, r := m / p, m % p;
    assert m == q * p + r;
    Nearest(m, p, q, r);
  }

  lemma Negated(q: int, p: int)
    ensures (0 - q) * p == 0 - q * p && (0 - q) % 2 == q % 2
  {
  }

  method ReadRaw(bytes: seq<Octet>, count: nat) returns (digits: seq<int>)
    requires |bytes| >= 2 * count
    ensures digits == RawDigits(bytes, count)
  {
    digits := [];
    var remaining := bytes;
    for i := 0 to count
      invariant remaining == bytes[2 * i..] && digits == RawDigits(bytes, i)
    {
      digits := digits + [U16(remaining[0], remaining[1])];
      remaining := remaining[2..];
    }
  }

  predicate AllNatural(digits: seq<int>) {
    forall d <- digits :: d >= 0
  }

  /** The Horner loop. It overflows iff the whole number does. */
  method Accumulate(digits: seq<int>, checked: bool) returns (r: Outcome<int>)
    requires AllNatural(digits)
    ensures r == if checked && !InI128(Horner(digits)) then Dropped else Done(Mantissa(digits, checked))
  {
    var value := 0;
    for i := 0 to |digits|
      invariant value == Mantissa(digits[..i], checked) && (checked ==> InI128(value))
      invariant Horner(digits[..i]) >= 0
    {
      assert digits[..i + 1][..i] == digits[..i] && digits[i] in digits;
      WrapStep(Horner(digits[..i]), digits[i]);
      var next := value * 10000 + digits[i];
      if checked && !InI128(next) {
        HornerGrows(digits, i + 1);
        return Dropped;
      }
      value := if checked then next else Wrap128(next);
    }
    assert digits[..|digits|] == digits;
    return Done(value);
  }

  lemma {:induction false} HornerGrows(digits: seq<int>, n: nat)
    requires AllNatural(digits) && n <= |digits|
    ensures Horner(digits) >= Horner(digits[..n]) >= 0
    decreases |digits|
  {
    if n < |digits| {
      var init := digits[..|digits| - 1];
      assert forall d <- init :: d in digits;
      assert init[..n] == digits[..n] && digits[|digits| - 1] in digits;
      HornerGrows(init, n);
    } else if n > 0 {
      var init := digits[..n - 1];
      assert forall d <- init :: d in digits;
      assert digits[..n] == digits && digits[n - 1] in digits && init[..n - 1] == init;
      HornerGrows(init, n - 1);
    }
  }

  /** Multiply by ten, checked, `exponent` times. */
  method ScaleUp(value: int, exponent: nat) returns (r: Outcome<Decimal>)
    requires Representable(value)
    ensures var m := value * Pow10(exponent);
            r == if Representable(m) then Done(Decimal(m, 0)) else Fail(Decode)
  {
    var decimal := Decimal(value, 0);
    for i := 0 to exponent
      invariant decimal == Decimal(value * Pow10(i), 0) && Representable(decimal.mantissa)
    {
      Rearranged(value, Pow10(i));
      if !Representable(decimal.mantissa * 10) {
        Grows(value, i + 1, exponent);
        return Fail(Decode);
      }
      decimal := decimal.(mantissa := decimal.mantissa * 10);
    }
    return Done(decimal);
  }

  lemma Rearranged(v: int, p: int)
    ensures v * p * 10 == v * (10 * p)
  {
  }

  lemma {:induction false} Grows(v: int, a: nat, b: nat)
    requires a <= b && !Representable(v * Pow10(a))
    ensures !Representable(v * Pow10(b))
    decreases b
  {
    if a < b {
      Grows(v, a, b - 1);
      Rearranged(v, Pow10(b - 1));
    }
  }

  /** The number a decimal stands for. */
  function NumberIn(d: Decimal): real {
    d.mantissa as real * Power(0 - d.scale)
  }

  /** The decimal is the number encoded. */
  predicate Means(d: Decimal, e: Encoding) {
    NumberIn(d) == Encoded(e)
  }

  /** Mantissa and exponent as a decimal, before rounding. */
  function Unrounded(m: int, exponent: int): Decimal {
    if exponent > 0 then Decimal(m * Pow10(exponent), 0) else Decimal(m, -exponent)
  }

  function RoundedTo(d: Decimal, dscale: nat): Decimal {
    if dscale > 0 then RoundDp(d, dscale) else d
  }

  lemma RawNatural(bytes: seq<Octet>, count: nat)
    requires |bytes| >= 2 * count
    ensures AllNatural(RawDigits(bytes, count))
  {
  }

  lemma GroupsInRange(e: Encoding)
    requires Canonical(e)
    ensures AllGroups(e.digits)
  {
  }

  /** The digits are all there. */
  method DecodeDigits(bytes: seq<Octet>, checked: bool) returns (r: Outcome<Decimal>)
    requires HasHeader(bytes) && 0 < 2 * CountOf(bytes) <= |bytes| - 8
    ensures var count := CountOf(bytes);
            var digits, exponent := RawDigits(bytes[8..], count), 4 * (I16(bytes[2], bytes[3]) - count + 1);
            && (r.Done? <==> Fits(Mantissa(digits, checked), exponent))
            && (r.Dropped? <==> !Representable(Mantissa(digits, checked)))
            && (r.Done? && Canonical(Decoded(bytes)) ==>
                  (Means(r.value, Decoded(bytes)) <==> InI128(Horner(Decoded(bytes).digits))))
            && (r.Done? && U16(bytes[6], bytes[7]) > 0 ==> r.value.scale <= U16(bytes[6], bytes[7]))
    ensures r.Fail? ==> r.error == Decode
  {
    hide Means, Horner, Fits, Mantissa, Representable, Canonical, AllNatural, RoundedTo, Unrounded, InI128, Same;
    hide RawDigits, DigitsIn, AllGroups;
    var digits := ReadRaw(bytes[8..], CountOf(bytes));
    var e := Encoding(U16(bytes[4], bytes[5]), I16(bytes[2], bytes[3]), U16(bytes[6], bytes[7]), digits);
    RawNatural(bytes[8..], CountOf(bytes));
    r := ToDecimal(e, checked);
    if Canonical(Decoded(bytes)) {
      GroupsInRange(Decoded(bytes));
      RawIsSigned(bytes[8..], CountOf(bytes));
      if r.Done? {
        MeansIff(e, checked);
      }
    }
  }

  /** Decode an encoding. The decoder panics on a mantissa beyond 96 bits and
      fails beyond its other limits; otherwise a canonical number is decoded
      exactly, rounding or not, iff its digits fit the accumulator. */
  method FromBinary(numeric: bool, bytes: seq<Octet>, checked: bool) returns (r: Outcome<Decimal>)
    ensures !numeric || !HasHeader(bytes) ==> r == Fail(Decode)
    ensures numeric && HasHeader(bytes) ==>
              var count := CountOf(bytes);
              if U16(bytes[4], bytes[5]) == NUMERIC_NAN then r == Fail(Decode)
              else if count == 0 then r == Done(Decimal(0, 0))
              else if count < 0 then
                r == if !checked && |bytes| - 8 < USIZE + 2 * count then Fail(Decode) else Dropped
              else if |bytes| - 8 < 2 * count then r == Fail(Decode)
              else
                var digits, exponent := RawDigits(bytes[8..], count), 4 * (I16(bytes[2], bytes[3]) - count + 1);
                && (r.Done? <==> Fits(Mantissa(digits, checked), exponent))
                && (r.Dropped? <==> !Representable(Mantissa(digits, checked)))
                && (r.Done? && Canonical(Decoded(bytes)) ==>
                      (Means(r.value, Decoded(bytes)) <==> InI128(Horner(Decoded(bytes).digits))))
                && (r.Done? && U16(bytes[6], bytes[7]) > 0 ==> r.value.scale <= U16(bytes[6], bytes[7]))
    ensures forall e | numeric && Sendable(e) && bytes == Sent(e) ::
              if e.sign == 0xC000 then r == Fail(Decode)
              else if e.digits == [] then r == Done(Decimal(0, 0))
              else if Canonical(e) then
                && (r.Done? <==> Fits(Mantissa(e.digits, checked), 4 * (e.weight - |e.digits| + 1)))
                && (r.Done? ==> (Means(r.value, e) <==> InI128(Horner(e.digits))))
              else true
    ensures r.Fail? ==> r.error == Decode
  {
    hide Means, Horner, Fits, Mantissa, Representable, Canonical, RawDigits, Sent, Sendable, DigitsIn;
    forall e | Sendable(e) && bytes == Sent(e)
      ensures HasHeader(bytes) && CountOf(bytes) == |e.digits| && Decoded(bytes) == e && |bytes| == 8 + 2 * |e.digits|
      ensures U16(bytes[4], bytes[5]) == e.sign
      ensures Canonical(e) ==> RawDigits(bytes[8..], |e.digits|) == e.digits
    {
      SentIsDecoded(e);
      if Canonical(e) {
        GroupsInRange(e);
        RawIsSigned(bytes[8..], |e.digits|);
      }
    }
    if !numeric || |bytes| < 8 {
      return Fail(Decode);
    }
    var ndigits := AsUsize(I16(bytes[0], bytes[1]));
    var sign := U16(bytes[4], bytes[5]);
    if sign == NUMERIC_NAN {
      return Fail(Decode);
    }
    if ndigits == 0 {
      return Done(Decimal(0, 0));
    }
    if checked && ndigits * 2 >= USIZE {
      return Dropped;
    }
    if |bytes| - 8 < ndigits * 2 % USIZE {
      return Fail(Decode);
    }
    if 2 * ndigits > MAX_ALLOCATION {
      return Dropped;  // the allocation panics
    }
    r := DecodeDigits(bytes, checked);
  }

  /** Below 10000 the two readings of a digit agree. */
  lemma RawIsSigned(bytes: seq<Octet>, count: nat)
    requires |bytes| >= 2 * count && AllGroups(DigitsIn(bytes, count))
    ensures RawDigits(bytes, count) == DigitsIn(bytes, count)
  {
    forall i | 0 <= i < count ensures RawDigits(bytes, count)[i] == DigitsIn(bytes, count)[i] {
      assert DigitsIn(bytes, count)[i] in DigitsIn(bytes, count);
    }
  }

  method ToDecimal(e: Encoding, checked: bool) returns (r: Outcome<Decimal>)
    requires e.digits != [] && AllNatural(e.digits)
    ensures var m := Mantissa(e.digits, checked);
            && (r.Done? <==> Fits(m, Exponent(e)))
            && (r.Dropped? <==> !Representable(m))
            && (r.Done? ==> r.value == RoundedTo(Unrounded(Signed(e, m), Exponent(e)), e.dscale))
            && (r.Done? && e.dscale > 0 ==> r.value.scale <= e.dscale)
    ensures r.Fail? ==> r.error == Decode
  {
    hide Horner, RoundDp;
    var accumulated :- Accumulate(e.digits, checked);
    var value := accumulated;
    var exponent := (e.weight - |e.digits| + 1) * 4;
    if e.sign == NUMERIC_NEG {
      value := if checked then -value else Wrap128(-value);
    }
    if !Representable(value) {
      return Dropped;
    }
    SignMoves(e, Mantissa(e.digits, checked), if exponent > 0 then Pow10(exponent) else 1);
    var decimal := Decimal(value, 0);
    if exponent > 0 {
      decimal :- ScaleUp(value, exponent);
    } else if exponent < 0 {
      if -exponent > MAX_SCALE {
        return Fail(Decode);
      }
      decimal := decimal.(scale := -exponent);
    }
    if e.dscale > 0 {
      RoundsToNearest(decimal, e.dscale);
      decimal := RoundDp(decimal, e.dscale);
    }
    return Done(decimal);
  }

  lemma SignMoves(e: Encoding, m: int, p: nat)
    ensures Signed(e, m) * p == Signed(e, m * p)
  {
  }

  lemma {:induction false} HornerNonNegative(digits: seq<int>)
    requires AllGroups(digits)
    ensures Horner(digits) >= 0
  {
    if digits != [] {
      assert digits[|digits| - 1] in digits;
      assert forall d <- digits[..|digits| - 1] :: d in digits;
      HornerNonNegative(digits[..|digits| - 1]);
    }
  }

  /** What lies behind the display scale divides out. */
  lemma PastDivides(e: Encoding, past: nat)
    requires Canonical(e) && e.digits != [] && past > 0 && past == 4 * (|e.digits| - 1 - e.weight) - e.dscale
    ensures Horner(e.digits) >= 0 && Horner(e.digits) % Pow10(past) == 0
  {
    var init, last, p := Horner(e.digits[..|e.digits| - 1]), e.digits[|e.digits| - 1], Pow10(past);
    HornerNonNegative(e.digits);
    assert Pow10(1) == 10 && Pow10(2) == 100 && Pow10(3) == 1000;
    Multiples(init, last);
  }

  lemma Multiples(init: int, last: int)
    ensures last % 10 == 0 ==> (init * 10000 + last) % 10 == 0
    ensures last % 100 == 0 ==> (init * 10000 + last) % 100 == 0
    ensures last % 1000 == 0 ==> (init * 10000 + last) % 1000 == 0
  {
    Multiple(init * 1000, last, 10);
    Multiple(init * 100, last, 100);
    Multiple(init * 10, last, 1000);
  }

  lemma Multiple(k: int, last: int, p: nat)
    requires p > 0
    ensures last % p == 0 ==> (k * p + last) % p == 0
  {
    if last % p == 0 {
      var x := k + last / p;
      assert k * p + last == x * p;
      TimesMod(x, p);
    }
  }

  lemma TimesMod(x: int, p: nat)
    requires p > 0
    ensures x * p % p == 0
  {
    var q, r := x * p / p, x * p % p;
    assert (x - q) * p == r;
    Scales(x - q, p);
  }

  lemma Scales(y: int, p: int)
    requires p > 0
    ensures (y >= 1 ==> y * p >= p) && (y <= -1 ==> y * p <= 0 - p)
  {
  }

  lemma RoundedWhole(m: nat, p: nat)
    requires p > 0 && m % p == 0
    ensures Rounded(m, p) * p == m
  {
  }

  /** Rounding to the display scale drops nothing but zeros. */
  lemma RoundingIsExact(e: Encoding)
    requires Canonical(e) && e.digits != []
    ensures Means(RoundedTo(Unrounded(Signed(e, Horner(e.digits)), Exponent(e)), e.dscale), e)
  {
    var d := RoundedTo(Unrounded(Signed(e, Horner(e.digits)), Exponent(e)), e.dscale);
    RoundedSame(e);
    SameIsMeant(e, d);
  }

  lemma SameIsMeant(e: Encoding, d: Decimal)
    ensures Means(d, e) <==> Same(d.mantissa, 0 - d.scale, Signed(e, Horner(e.digits)), Exponent(e))
  {
    hide Horner, Power, Same, Encoded;
    EncodedIs(e);
    SameIsEqual(d.mantissa, 0 - d.scale, Signed(e, Horner(e.digits)), Exponent(e));
  }

  lemma RoundedSame(e: Encoding)
    requires Canonical(e) && e.digits != []
    ensures var d := RoundedTo(Unrounded(Signed(e, Horner(e.digits)), Exponent(e)), e.dscale);
            Same(d.mantissa, 0 - d.scale, Signed(e, Horner(e.digits)), Exponent(e))
  {
    var d := Unrounded(Signed(e, Horner(e.digits)), Exponent(e));
    if d.scale > e.dscale && e.dscale > 0 {
      var past := d.scale - e.dscale;
      PastDivides(e, past);
      hide Horner, Pow10, Canonical, Rounded;
      var h, p := Horner(e.digits), Pow10(past);
      RoundedWhole(h, p);
      var q: int := Rounded(h, p);
      assert Magnitude(d.mantissa) == h;
      assert (0 - q) * p == 0 - q * p;
      assert h == 0 ==> q == 0;
    }
  }

  /** What was decoded is the number iff nothing wrapped around. */
  lemma MeansIff(e: Encoding, checked: bool)
    requires Canonical(e) && e.digits != [] && Fits(Mantissa(e.digits, checked), Exponent(e))
    ensures Means(RoundedTo(Unrounded(Signed(e, Mantissa(e.digits, checked)), Exponent(e)), e.dscale), e)
            <==> InI128(Horner(e.digits))
  {
    assert AllGroups(e.digits);
    hide Horner, Canonical, Means, RoundedTo, Unrounded;
    var h, m := Horner(e.digits), Mantissa(e.digits, checked);
    if InI128(h) {
      RoundingIsExact(e);
    } else {
      HornerNonNegative(e.digits);
      SameIsMeant(e, RoundedTo(Unrounded(Signed(e, m), Exponent(e)), e.dscale));
      TooSmall(e, m);
    }
  }

  /** No mantissa of 96 bits, rounded or not, makes up for one beyond 128. */
  lemma TooSmall(e: Encoding, m: int)
    requires Fits(m, Exponent(e)) && Horner(e.digits) >= I128_LIMIT
    ensures var d := RoundedTo(Unrounded(Signed(e, m), Exponent(e)), e.dscale);
            !Same(d.mantissa, 0 - d.scale, Signed(e, Horner(e.digits)), Exponent(e))
  {
    var h, x := Horner(e.digits), Exponent(e);
    var d0 := Unrounded(Signed(e, m), x);
    hide Horner;
    if x > 0 {
      SignMoves(e, m, Pow10(x));
      SignMoves(e, h, Pow10(x));
      Larger(Magnitude(m), h, Pow10(x));
      hide Pow10;
      assert Magnitude(Signed(e, m) * Pow10(x)) == Magnitude(m) * Pow10(x) by {
        MagnitudeTimes(Signed(e, m), Pow10(x));
      }
    } else if d0.scale > e.dscale && e.dscale > 0 {
      var past := d0.scale - e.dscale;
      SmallPower(past);
      hide Pow10;
      NearlyWhole(Magnitude(m), Pow10(past));
      var q: int := Rounded(Magnitude(m), Pow10(past));
      assert (0 - q) * Pow10(past) == 0 - q * Pow10(past);
    } else {
      assert Pow10(0) == 1;
    }
  }

  lemma Larger(a: nat, h: nat, p: nat)
    requires a < h && p > 0
    ensures a * p < h * p
  {
  }

  lemma MagnitudeTimes(m: int, p: nat)
    ensures Magnitude(m * p) == Magnitude(m) * p
  {
    assert (-m) * p == -(m * p);
    if m >= 0 {
      assert m * p >= 0;
    } else {
      assert (-m) * p >= 0;
    }
  }

  lemma NearlyWhole(m: nat, p: nat)
    requires p > 0
    ensures Rounded(m, p) * p <= m + p
  {
    var q := m / p;
    assert q * p <= m && (q + 1) * p == q * p + p;
  }

  lemma SmallPower(k: nat)
    requires k <= MAX_SCALE
    ensures Pow10(k) <= MANTISSA_LIMIT
  {
    PowUpTo(k, MAX_SCALE);
    PowAdd(14, 14);
    assert Pow10(7) == 10000000;
    PowAdd(7, 7);
  }

  lemma {:induction false} PowUpTo(a: nat, b: nat)
    requires a <= b
    ensures Pow10(a) <= Pow10(b)
    decreases b
  {
    if a < b {
      PowUpTo(a, b - 1);
    }
  }

  /** A text and a decimal are one number. */
  predicate Agree(s: string, d: Decimal) {
    match Read(s)
    case None => false
    case Some(number) => NumberOf(number) == NumberIn(d)
  }

  /** The two decoders agree: whenever a canonical number has a decimal, the
      decimal is the number its text denotes. */
  lemma DecodersAgree(e: Encoding, d: Decimal)
    requires Canonical(e) && (if e.digits == [] then d == Decimal(0, 0) else Means(d, e))
    ensures AllGroups(e.digits) && Agree(Printed(e), d)
  {
    hide Read, Printed, Power;
    PrintedIsExact(e);
  }

  /** Both decoders on the same bytes: whenever there is a decimal, it is the
      number the text denotes iff the digits fit the accumulator. */
  method DecodeBoth(bytes: seq<Octet>, checked: bool) returns (s: Outcome<string>, d: Outcome<Decimal>)
    ensures HasHeader(bytes) && 0 <= 2 * CountOf(bytes) <= |bytes| - 8 && Canonical(Decoded(bytes)) ==>
              && s.Done? && Denotes(s.value, Decoded(bytes))
              && (d.Done? ==> (Agree(s.value, d.value) <==> InI128(Horner(Decoded(bytes).digits))))
    ensures forall e | Sendable(e) && Canonical(e) && bytes == Sent(e) ::
              && s.Done? && Denotes(s.value, e)
              && (d.Done? ==> (Agree(s.value, d.value) <==> InI128(Horner(e.digits))))
              && (e.sign == 0 ==> Encoded(e) == SumOf(e, |e.digits|))
              && (e.sign == 0x4000 ==> Encoded(e) == -SumOf(e, |e.digits|))
  {
    forall e | Sendable(e) && bytes == Sent(e)
      ensures HasHeader(bytes) && CountOf(bytes) == |e.digits| && Decoded(bytes) == e && |bytes| == 8 + 2 * |e.digits|
    {
      SentIsDecoded(e);
    }
    hide Sent, Sendable;
    hide Printed, Read, Horner, Pow10, Power, SumOf;
    s := NumericToString(bytes);
    d := FromBinary(true, bytes, checked);
    if HasHeader(bytes) && 0 <= 2 * CountOf(bytes) <= |bytes| - 8 && Canonical(Decoded(bytes)) {
      PrintedIsExact(Decoded(bytes));
      if CountOf(bytes) == 0 {
        NoDigits(Decoded(bytes));
      }
    }
  }

  lemma NoDigits(e: Encoding)
    requires e.digits == []
    ensures Encoded(e) == 0.0 && Horner(e.digits) == 0
  {
  }

  /** 2^128 + 1, in base 10000. */
  const BEYOND := Encoding(0, 9, 0, [340, 2823, 6692, 938, 4634, 6337, 4607, 4317, 6821, 1457])

  /** A build that does not check its arithmetic decodes it as 1. */
  method WrapsAround() returns (r: Outcome<Decimal>)
    ensures Canonical(BEYOND) && r == Done(Decimal(1, 0)) && !Means(r.value, BEYOND)
  {
    BeyondIs();
    assert Canonical(BEYOND);
    hide Horner, Canonical, Means;
    r := ToDecimal(BEYOND, false);
    MeansIff(BEYOND, false);
  }

  lemma BeyondIs()
    ensures Horner(BEYOND.digits) == I128 + 1
  {
    var d := BEYOND.digits;
    assert Horner(d[..0]) == 0;
    for i := 0 to 10
      invariant Horner(d[..i]) == [0, 340, 3402823, 34028236692, 340282366920938, 3402823669209384634,
                                   34028236692093846346337, 340282366920938463463374607,
                                   3402823669209384634633746074317, 34028236692093846346337460743176821,
                                   340282366920938463463374607431768211457][i]
    {
      assert d[..i + 1][..i] == d[..i];
    }
    assert d[..10] == d;
  }
}
