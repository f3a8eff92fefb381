/** What printed decimal text means, and that it is the encoded number. */
module NumericValues {
  import opened Protocol
  import opened Numerics

  /** Sign, digits and the number of digits behind the point. */
  datatype Number = Number(negative: bool, mantissa: nat, scale: nat)

  /** The digits at the start of a text. */
  function Lead(s: string): (d: string)
    ensures |d| <= |s| && d == s[..|d|] && AllDigits(d)
    ensures |d| < |s| ==> !IsDigit(s[|d|])
  {
    if s == "" || !IsDigit(s[0]) then "" else [s[0]] + Lead(s[1..])
  }

  /** Read `[-] digits [. digits]`. */
  function Read(s: string): Option<Number> {
    var negative := s != "" && s[0] == '-';
    var body := if negative then s[1..] else s;
    var whole := Lead(body);
    var rest := body[|whole|..];
    if whole == "" then None
    else if rest == "" then Some(Number(negative, Value(whole), 0))
    else
      var fraction := Lead(rest[1..]);
      if rest[0] != '.' || fraction == "" || fraction != rest[1..] then None
      else Some(Number(negative, Value(whole + fraction), |fraction|))
  }

  /** 10 to any integer power. */
  function Power(k: int): (p: real)
    ensures p > 0.0
    decreases if k < 0 then -k else k
  {
    if k == 0 then 1.0 else if k > 0 then 10.0 * Power(k - 1) else Power(k + 1) / 10.0
  }

  /** The first `n` digits of an encoding: the one with index `i` counts
      10000^(weight - i). */
  function SumOf(e: Encoding, n: nat): real
    requires n <= |e.digits|
  {
    if n == 0 then 0.0 else SumOf(e, n - 1) + e.digits[n - 1] as real * Power(4 * (e.weight - (n - 1)))
  }

  /** The number encoded. */
  function Encoded(e: Encoding): real {
    if e.sign == NUMERIC_NEG then -SumOf(e, |e.digits|) else SumOf(e, |e.digits|)
  }

  function NumberOf(number: Number): real {
    var magnitude := number.mantissa as real * Power(0 - number.scale);
    if number.negative then -magnitude else magnitude
  }

  /** m * 10^a and n * 10^b are one number. */
  predicate Same(m: int, a: int, n: int, b: int) {
    if a >= b then m * Pow10(a - b) == n else m == n * Pow10(b - a)
  }

  /** Base-10000 digits as one number: each shifts those before it. */
  function Horner(digits: seq<int>): int {
    if digits == [] then 0 else Horner(digits[..|digits| - 1]) * 10000 + digits[|digits| - 1]
  }

  /** The exponent of ten that belongs to `Horner(digits)`. */
  function Exponent(e: Encoding): int {
    4 * (e.weight - |e.digits| + 1)
  }

  // -- Powers and values

  lemma {:induction false} PowAdd(a: nat, b: nat)
    ensures Pow10(a + b) == Pow10(a) * Pow10(b)
  {
    if b > 0 {
      PowAdd(a, b - 1);
      Rearrange(Pow10(a), Pow10(b - 1));
    }
  }

  lemma Rearrange(x: nat, y: nat)
    ensures 10 * (x * y) == x * (10 * y)
  {
  }

  lemma PowerDown(k: int)
    ensures Power(k) == 10.0 * Power(k - 1)
  {
  }

  lemma PowerZero(x: real)
    ensures Power(0) == 1.0 && x == x * 1.0
  {
  }

  lemma {:induction false} PowerAdd(a: int, b: nat)
    ensures Power(a + b) == Power(a) * Power(b)
  {
    hide *;
    if b == 0 {
      PowerZero(Power(a));
    } else {
      PowerAdd(a, b - 1);
      PowerDown(a + b);
      PowerDown(b);
      Swap(10.0, Power(a), Power(b - 1));
    }
  }

  lemma Swap(x: real, y: real, z: real)
    ensures x * (y * z) == y * (x * z)
  {
  }

  lemma {:induction false} PowerIsPow10(k: nat)
    ensures Power(k) == Pow10(k) as real
  {
    if k > 0 {
      PowerIsPow10(k - 1);
    }
  }

  /** `Same` is equality of numbers. */
  lemma SameIsEqual(m: int, a: int, n: int, b: int)
    ensures Same(m, a, n, b) <==> m as real * Power(a) == n as real * Power(b)
  {
    if a >= b {
      Lifted(m, a, n, b);
    } else {
      Lifted(n, b, m, a);
    }
  }

  lemma Lifted(m: int, a: int, n: int, b: int)
    requires a >= b
    ensures m * Pow10(a - b) == n <==> m as real * Power(a) == n as real * Power(b)
  {
    hide *;
    PowerAdd(b, a - b);
    PowerIsPow10(a - b);
    var q, p := Pow10(a - b), Power(b);
    ScaledInts(m, q, p, n, Power(a));
  }

  lemma ScaledInts(m: int, q: int, p: real, n: int, pq: real)
    requires p > 0.0 && pq == p * q as real
    ensures m * q == n <==> m as real * pq == n as real * p
  {
    CastProduct(m, q);
    CastEqual(m * q, n);
    Scaled(m as real, q as real, p, n as real);
  }

  lemma CastProduct(m: int, q: int)
    ensures (m * q) as real == m as real * q as real
  {
  }

  lemma CastEqual(x: int, y: int)
    ensures x == y <==> x as real == y as real
  {
  }

  lemma Scaled(m: real, q: real, p: real, n: real)
    requires p > 0.0
    ensures m * q == n <==> m * (p * q) == n * p
  {
    assert m * (p * q) == (m * q) * p;
    if (m * q) * p == n * p {
      assert (m * q - n) * p == 0.0;
    }
  }

  /** The digits as one number, scaled by their exponent, are their sum. */
  lemma {:induction false} HornerIsSum(e: Encoding, n: nat)
    requires n <= |e.digits|
    ensures SumOf(e, n) == Horner(e.digits[..n]) as real * Power(4 * (e.weight - n + 1))
  {
    hide *;
    SumUnfolds(e, n);
    if n > 0 {
      var k, h, d := 4 * (e.weight - n + 1), Horner(e.digits[..n - 1]), e.digits[n - 1];
      HornerIsSum(e, n - 1);
      PowerAdd(k, 4);
      PowerFour();
      assert 4 * (e.weight - (n - 1) + 1) == k + 4 && 4 * (e.weight - (n - 1)) == k;
      Gathered(h as real, d as real, Power(k));
      CastSum(h, d);
    }
  }

  lemma SumUnfolds(e: Encoding, n: nat)
    requires n <= |e.digits|
    ensures n == 0 ==> SumOf(e, n) == 0.0 && Horner(e.digits[..n]) == 0 && 0 as real * Power(4 * (e.weight + 1)) == 0.0
    ensures n > 0 ==>
              && SumOf(e, n) == SumOf(e, n - 1) + e.digits[n - 1] as real * Power(4 * (e.weight - (n - 1)))
              && Horner(e.digits[..n]) == Horner(e.digits[..n - 1]) * 10000 + e.digits[n - 1]
  {
    hide Power;
    if n > 0 {
      assert e.digits[..n][..n - 1] == e.digits[..n - 1];
    }
  }

  lemma PowerFour()
    ensures Power(4) == 10000.0
  {
    PowerDown(4);
    PowerDown(3);
    PowerDown(2);
    PowerDown(1);
  }

  lemma CastSum(h: int, d: int)
    ensures (h * 10000 + d) as real == h as real * 10000.0 + d as real
  {
  }

  lemma Gathered(h: real, d: real, p: real)
    ensures h * (p * 10000.0) + d * p == (h * 10000.0 + d) * p
  {
  }

  /** An encoded number in terms of its digits taken as one. */
  lemma EncodedIs(e: Encoding)
    ensures Encoded(e) ==
            (if e.sign == NUMERIC_NEG then -Horner(e.digits) else Horner(e.digits)) as real * Power(Exponent(e))
  {
    HornerIsSum(e, |e.digits|);
    assert e.digits[..|e.digits|] == e.digits;
    hide Horner, Power, SumOf;
    assert (-Horner(e.digits)) as real == -(Horner(e.digits) as real);
    NegatedTimes(Horner(e.digits) as real, Power(Exponent(e)));
  }

  lemma NegatedTimes(x: real, y: real)
    ensures (-x) * y == -(x * y)
  {
  }

  lemma {:induction false} ValueConcat(a: string, b: string)
    requires AllDigits(a) && AllDigits(b)
    ensures AllDigits(a + b) && Value(a + b) == Value(a) * Pow10(|b|) + Value(b)
    decreases |b|
  {
    DigitsConcat(a, b);
    if b == "" {
      assert a + b == a;
    } else {
      var b' := b[..|b| - 1];
      assert forall c <- b' :: c in b;
      assert (a + b)[..|a + b| - 1] == a + b';
      ValueConcat(a, b');
      Shift(Value(a), Pow10(|b'|), Value(b'));
    }
  }

  lemma DigitsConcat(a: string, b: string)
    ensures AllDigits(a + b) <==> AllDigits(a) && AllDigits(b)
  {
    assert forall c <- a :: c in a + b;
    assert forall c <- b :: c in a + b;
    assert forall c <- a + b :: c in a || c in b;
  }

  lemma Shift(x: int, p: int, y: int)
    ensures 10 * (x * p + y) == x * (10 * p) + 10 * y
  {
  }

  lemma {:induction false} ValueZeros(k: nat)
    ensures Value(Zeros(k)) == 0
  {
    if k > 0 {
      assert Zeros(k)[..k - 1] == Zeros(k - 1);
      ValueZeros(k - 1);
    }
  }

  lemma {:induction false} ValueText(d: nat)
    ensures Value(ToText(d)) == d
  {
    if d >= 10 {
      ValueText(d / 10);
      assert ToText(d)[..|ToText(d)| - 1] == ToText(d / 10);
    } else {
      assert ToText(d)[..0] == "";
    }
  }

  lemma ValueSnoc(s: string, d: nat)
    requires AllDigits(s) && d < 10
    ensures AllDigits(s + [DigitChar(d)]) && Value(s + [DigitChar(d)]) == 10 * Value(s) + d
  {
    DigitsConcat(s, [DigitChar(d)]);
    assert (s + [DigitChar(d)])[..|s|] == s;
  }

  lemma FourSpelled(d: int)
    requires IsGroup(d)
    ensures Four(d) ==
            "" + [DigitChar(d / 1000)] + [DigitChar(d / 100 % 10)] + [DigitChar(d / 10 % 10)] + [DigitChar(d % 10)]
  {
    hide DigitChar;
  }

  lemma FourSum(d: nat)
    ensures 10 * (d / 10) + d % 10 == d
    ensures d / 10 == 10 * (d / 100) + d / 10 % 10
    ensures d / 100 == 10 * (d / 1000) + d / 100 % 10
  {
    assert d / 10 / 10 == d / 100;
    assert d / 100 / 10 == d / 1000;
  }

  lemma ValueFour(d: int)
    requires IsGroup(d)
    ensures Value(Four(d)) == d
  {
    assert Value("") == 0;
    FourSpelled(d);
    FourSum(d);
    hide Value, DigitChar, Four;
    var a, b, c := d / 1000, d / 100, d / 10;
    ValueSnoc("", a);
    ValueSnoc("" + [DigitChar(a)], b % 10);
    ValueSnoc("" + [DigitChar(a)] + [DigitChar(b % 10)], c % 10);
    ValueSnoc("" + [DigitChar(a)] + [DigitChar(b % 10)] + [DigitChar(c % 10)], d % 10);
  }

  // -- The value of a run of groups

  /** The first `hi` groups as one number, zeros where none were sent. */
  function Padded(digits: seq<int>, hi: int): (v: nat)
    requires AllGroups(digits)
    decreases hi
  {
    if hi <= 0 then 0 else Padded(digits, hi - 1) * 10000 + Group(digits, hi - 1)
  }

  lemma {:induction false} PaddedIsHorner(digits: seq<int>, hi: nat)
    requires AllGroups(digits)
    ensures hi <= |digits| ==> Padded(digits, hi) == Horner(digits[..hi])
    ensures hi >= |digits| ==> Padded(digits, hi) == Horner(digits) * Pow10(4 * (hi - |digits|))
    decreases hi
  {
    if hi > 0 {
      PaddedIsHorner(digits, hi - 1);
    }
    if 0 < hi <= |digits| {
      assert digits[..hi][..hi - 1] == digits[..hi - 1];
    }
    if hi == |digits| {
      assert digits[..hi] == digits;
    } else if hi > |digits| {
      Pow10Of4(4 * (hi - 1 - |digits|));
      Regroup(Horner(digits), Pow10(4 * (hi - 1 - |digits|)));
    }
  }

  lemma Pow10Of4(k: nat)
    ensures Pow10(k + 4) == 10000 * Pow10(k)
  {
    PowAdd(k, 4);
    assert Pow10(4) == 10000;
  }

  lemma Regroup(h: int, p: int)
    ensures h * p * 10000 == h * (10000 * p)
  {
  }

  /** Text before a run of groups, and the groups. */
  lemma {:induction false} ValueOfRun(text: string, digits: seq<int>, lo: int, hi: int)
    requires AllGroups(digits) && AllDigits(text) && lo <= hi && Value(text) == Padded(digits, lo)
    ensures AllDigits(text + Run(digits, lo, hi)) && Value(text + Run(digits, lo, hi)) == Padded(digits, hi)
    decreases hi - lo
  {
    hide Value, Run, Padded, Four;
    RunUnfolds(digits, lo, hi);
    if lo == hi {
      assert text + "" == text;
    } else {
      ValueOfRun(text, digits, lo, hi - 1);
      PaddedUnfolds(digits, hi);
      GroupAppended(text + Run(digits, lo, hi - 1), Group(digits, hi - 1));
      Associate(text, Run(digits, lo, hi - 1), Four(Group(digits, hi - 1)));
    }
  }

  lemma PaddedUnfolds(digits: seq<int>, hi: int)
    requires AllGroups(digits)
    ensures Padded(digits, hi) == Padded(digits, hi - 1) * 10000 + Group(digits, hi - 1)
  {
  }

  lemma GroupAppended(s: string, d: int)
    requires AllDigits(s) && IsGroup(d)
    ensures AllDigits(s + Four(d)) && Value(s + Four(d)) == Value(s) * 10000 + d
  {
    hide Value;
    ValueConcat(s, Four(d));
    ValueFour(d);
    assert Pow10(4) == 10000;
  }

  /** Everything printed, and enough groups behind it. */
  lemma ValueOfWhole(e: Encoding)
    requires Canonical(e) && e.digits != []
    ensures AllGroups(e.digits) && Value(Whole(e)) == Padded(e.digits, e.weight + 1)
  {
    if e.weight < 0 {
      assert "0"[..0] == "";
    } else {
      ValueText(Group(e.digits, 0));
      assert Padded(e.digits, 1) == Padded(e.digits, 0) * 10000 + Group(e.digits, 0);
      ValueOfRun(ToText(Group(e.digits, 0)), e.digits, 1, e.weight + 1);
    }
  }

  lemma SplitAt(s: string, k: nat)
    requires k <= |s|
    ensures s == s[..k] + s[k..]
  {
  }

  /** Past the display scale only zeros were left out. */
  lemma TailIsZero(e: Encoding)
    requires Canonical(e) && e.digits != []
    ensures AllGroups(e.digits) && e.weight + 1 + e.dscale >= |e.digits|
    ensures Run(e.digits, e.weight + 1, e.weight + 1 + e.dscale) == Fraction(e) + Zeros(3 * e.dscale)
  {
    TailOf(e);
    hide Run, Canonical, Zeros;
    SplitAt(Run(e.digits, e.weight + 1, e.weight + 1 + e.dscale), e.dscale);
  }

  lemma TailOf(e: Encoding)
    requires Canonical(e) && e.digits != []
    ensures AllGroups(e.digits) && e.weight + 1 + e.dscale >= |e.digits|
    ensures Run(e.digits, e.weight + 1, e.weight + 1 + e.dscale)[e.dscale..] == Zeros(3 * e.dscale)
  {
    LastZeros(e);
    var lo, end, n := e.weight + 1, e.weight + 1 + e.dscale, |e.digits|;
    hide Run, Canonical, Four, Zeros;
    if lo >= n {
      RunOfZeros(e.digits, lo, end);
      CutZeros(4 * e.dscale, e.dscale);
    } else {
      TailOfLast(e.digits, lo, end, e.dscale);
    }
  }

  /** The groups sent end inside the fraction: past them come zeros only. */
  lemma TailOfLast(digits: seq<int>, lo: int, end: int, k: nat)
    requires AllGroups(digits) && digits != [] && lo < |digits| <= end
    requires |Run(digits, lo, |digits| - 1)| <= k <= |Run(digits, lo, |digits|)| + 4 * (end - |digits|)
    requires var i := k - |Run(digits, lo, |digits| - 1)|;
             i < 4 ==> Four(Group(digits, |digits| - 1))[i..] == Zeros(4 - i)
    ensures k <= |Run(digits, lo, end)| && Run(digits, lo, end)[k..] == Zeros(|Run(digits, lo, end)| - k)
  {
    hide *;
    var n := |digits|;
    RunSplit(digits, lo, n, end);
    RunOfZeros(digits, n, end);
    RunUnfolds(digits, lo, n);
    CutTail(Run(digits, lo, n - 1), Four(Group(digits, n - 1)), 4 * (end - n), k);
  }

  lemma CutZeros(n: nat, k: nat)
    requires k <= n
    ensures Zeros(n)[k..] == Zeros(n - k)
  {
  }

  lemma CutTail(a: string, f: string, z: nat, k: nat)
    requires |f| == 4 && |a| <= k <= |a| + 4 + z
    requires k < |a| + 4 ==> f[k - |a|..] == Zeros(|a| + 4 - k)
    ensures (a + f + Zeros(z))[k..] == Zeros(|a| + 4 + z - k)
  {
    var s := a + f + Zeros(z);
    forall i | k <= i < |s| ensures s[i] == '0' {
      if i < |a| + 4 {
        assert f[k - |a|..][i - k] == '0';
      }
    }
  }

  lemma LowZeros(d: nat)
    ensures d % 100 == 0 ==> d % 10 == 0 && d / 10 % 10 == 0
    ensures d % 1000 == 0 ==> d % 100 == 0 && d / 100 % 10 == 0
  {
    if d % 100 == 0 {
      Hundreds(d, d / 100);
    }
    if d % 1000 == 0 {
      Thousands(d, d / 1000);
    }
  }

  lemma Hundreds(d: nat, q: nat)
    requires d == 100 * q
    ensures d % 10 == 0 && d / 10 == 10 * q && d / 10 % 10 == 0
  {
  }

  lemma Thousands(d: nat, q: nat)
    requires d == 1000 * q
    ensures d % 100 == 0 && d / 100 == 10 * q && d / 100 % 10 == 0
  {
  }

  lemma LastZeros(e: Encoding)
    requires Canonical(e) && e.digits != []
    ensures var past := 4 * (|e.digits| - 1 - e.weight) - e.dscale;
            past > 0 ==> past < 4 && Four(Group(e.digits, |e.digits| - 1))[4 - past..] == Zeros(past)
  {
    var d := Group(e.digits, |e.digits| - 1);
    assert Pow10(1) == 10 && Pow10(2) == 100 && Pow10(3) == 1000;
    LowZeros(d);
    FourEnds(d);
  }

  lemma FourEnds(d: int)
    requires IsGroup(d)
    ensures d % 10 == 0 ==> Four(d)[3..] == Zeros(1)
    ensures d % 10 == 0 && d / 10 % 10 == 0 ==> Four(d)[2..] == Zeros(2)
    ensures d % 10 == 0 && d / 10 % 10 == 0 && d / 100 % 10 == 0 ==> Four(d)[1..] == Zeros(3)
  {
  }

  // -- Reading back what was printed

  lemma {:induction false} LeadOf(d: string, rest: string)
    requires AllDigits(d) && (rest == "" || !IsDigit(rest[0]))
    ensures Lead(d + rest) == d
  {
    if d == "" {
      assert d + rest == rest;
    } else {
      assert d[0] in d && (d + rest)[1..] == d[1..] + rest;
      assert forall c <- d[1..] :: c in d;
      LeadOf(d[1..], rest);
    }
  }

  lemma ReadsBack(negative: bool, whole: string, fraction: string)
    requires AllDigits(whole) && AllDigits(fraction) && whole != ""
    ensures AllDigits(whole + fraction)
    ensures Read((if negative then "-" else "") + whole + if fraction == "" then "" else "." + fraction)
            == Some(Number(negative, Value(whole + fraction), |fraction|))
  {
    DigitsConcat(whole, fraction);
    var tail := if fraction == "" then "" else "." + fraction;
    var s := (if negative then "-" else "") + whole + tail;
    assert whole[0] in whole;
    assert (if negative then s[1..] else s) == whole + tail;
    LeadOf(whole, tail);
    assert (whole + tail)[|whole|..] == tail;
    if fraction == "" {
      assert whole + "" == whole;
    } else {
      LeadOf(fraction, "");
      assert fraction + "" == fraction && tail[1..] == fraction;
    }
  }

  /** From powers of ten on both sides to one number. */
  lemma Cancel(m: nat, a: nat, n: nat, b: nat)
    requires m * Pow10(a) == n * Pow10(b)
    ensures forall x, y | x - y == a - b :: Same(m, x, n, y)
  {
    hide Pow10;
    if a >= b {
      PowAdd(a - b, b);
      CancelFactor(m * Pow10(a - b), n, Pow10(b), m, Pow10(a - b));
    } else {
      PowAdd(b - a, a);
      CancelFactor(n * Pow10(b - a), m, Pow10(a), n, Pow10(b - a));
    }
  }

  lemma CancelFactor(p: nat, q: nat, f: nat, m: nat, g: nat)
    requires f > 0 && p == m * g && m * (g * f) == q * f
    ensures p == q
  {
    assert m * (g * f) == (m * g) * f;
    assert (p - q) * f == 0;
  }

  /** A text that reads as the number encoded, with exactly `dscale` digits
      behind the point. */
  predicate Denotes(s: string, e: Encoding) {
    match Read(s)
    case None => false
    case Some(number) => number.scale == e.dscale && NumberOf(number) == Encoded(e)
  }

  /** Whatever canonical encoding is printed, its text reads back as exactly
      `dscale` fraction digits and as the number encoded. */
  lemma PrintedIsExact(e: Encoding)
    requires Canonical(e)
    ensures AllGroups(e.digits) && Denotes(Printed(e), e)
  {
    hide Read, Run, Value, Same, Power, SumOf, Horner, Printed, Whole, Fraction;
    if e.digits == [] {
      ZeroIsExact(e);
    } else {
      PrintedValue(e);
      PrintedReads(e);
      var m := Value(Whole(e) + Fraction(e));
      SameIsEqual(m, 0 - e.dscale, Horner(e.digits), Exponent(e));
      EncodedIs(e);
      NegatedTimes(m as real, Power(0 - e.dscale));
      NegatedTimes(Horner(e.digits) as real, Power(Exponent(e)));
      assert (-Horner(e.digits)) as real == -(Horner(e.digits) as real);
    }
  }

  lemma PrintedReads(e: Encoding)
    requires AllGroups(e.digits) && e.digits != []
    ensures AllDigits(Whole(e) + Fraction(e))
    ensures Read(Printed(e)) == Some(Number(e.sign == NUMERIC_NEG, Value(Whole(e) + Fraction(e)), e.dscale))
  {
    hide Read, Whole, Fraction, Value;
    ReadsBack(e.sign == NUMERIC_NEG, Whole(e), Fraction(e));
  }

  lemma ZeroIsExact(e: Encoding)
    requires e.digits == []
    ensures Denotes(Printed(e), e)
  {
    hide Read, Power;
    ReadsBack(false, "0", Zeros(e.dscale));
    ValueZeros(e.dscale);
    ValueConcat("0", Zeros(e.dscale));
    assert "0"[..0] == "";
  }

  lemma PrintedValue(e: Encoding)
    requires Canonical(e) && e.digits != []
    ensures AllGroups(e.digits) && AllDigits(Whole(e) + Fraction(e))
    ensures Same(Value(Whole(e) + Fraction(e)), 0 - e.dscale, Horner(e.digits), Exponent(e))
  {
    hide Value, Run, Whole, Fraction, Canonical, Four, Padded, Same;
    var end, n, past := e.weight + 1 + e.dscale, |e.digits|, 3 * e.dscale;
    ValueOfWhole(e);
    TailIsZero(e);
    ValueOfRun(Whole(e), e.digits, e.weight + 1, end);
    DigitsConcat(Whole(e), Fraction(e));
    var printed := Whole(e) + Fraction(e);
    assert Whole(e) + Run(e.digits, e.weight + 1, end) == printed + Zeros(past);
    ValueConcat(printed, Zeros(past));
    ValueZeros(past);
    PaddedIsHorner(e.digits, end);
    Cancel(Value(printed), past, Horner(e.digits), 4 * (end - n));
  }
}
