/** NUMERIC in binary: base-10000 digits, printed as decimal text. */
module Numerics {
  import opened Protocol

  const NUMERIC_NEG := 0x4000
  const NUMERIC_NAN := 0xC000
  const NUMERIC_PINF := 0xD000
  const NUMERIC_NINF := 0xF000

  function U16(hi: Octet, lo: Octet): (v: nat)
    ensures v < 0x1_0000 && v / 256 == hi && v % 256 == lo
  {
    hi * 256 + lo
  }

  function I16(hi: Octet, lo: Octet): (v: int)
    ensures -0x8000 <= v < 0x8000
  {
    if U16(hi, lo) < 0x8000 then U16(hi, lo) else U16(hi, lo) - 0x1_0000
  }

  /** An encoding: the header and the digits behind it. */
  datatype Encoding = Encoding(sign: nat, weight: int, dscale: nat, digits: seq<int>)

  predicate HasHeader(bytes: seq<Octet>) {
    |bytes| >= 8
  }

  function CountOf(bytes: seq<Octet>): int
    requires HasHeader(bytes)
  {
    I16(bytes[0], bytes[1])
  }

  /** A machine word, and the most bytes that can be allocated at once. */
  const USIZE := 0x1_0000_0000_0000_0000
  const MAX_ALLOCATION := 0x7FFF_FFFF_FFFF_FFFF

  /** A 16-bit count cast to a machine word: a negative one becomes huge. */
  function AsUsize(n: int): nat
    requires n >= -0x8000
  {
    if n < 0 then n + USIZE else n
  }

  function DigitsIn(bytes: seq<Octet>, count: nat): (digits: seq<int>)
    requires |bytes| >= 2 * count
    ensures |digits| == count
  {
    seq(count, i requires 0 <= i < count => I16(bytes[2 * i], bytes[2 * i + 1]))
  }

  function Decoded(bytes: seq<Octet>): Encoding
    requires HasHeader(bytes) && 0 <= 2 * CountOf(bytes) <= |bytes| - 8
  {
    Encoding(U16(bytes[4], bytes[5]), I16(bytes[2], bytes[3]), U16(bytes[6], bytes[7]),
             DigitsIn(bytes[8..], CountOf(bytes)))
  }

  // -- What a server sends

  /** The fields fit their two bytes each. */
  predicate Sendable(e: Encoding) {
    && |e.digits| < 0x8000 && -0x8000 <= e.weight < 0x8000 && e.sign < 0x1_0000 && e.dscale < 0x1_0000
    && forall d <- e.digits :: -0x8000 <= d < 0x8000
  }

  /** Two bytes, the high one first. */
  function TwoBytes(v: int): (b: seq<Octet>)
    requires -0x8000 <= v < 0x1_0000
    ensures |b| == 2
  {
    var u := if v < 0 then v + 0x1_0000 else v;
    [u / 256, u % 256]
  }

  function DigitBytes(digits: seq<int>): (b: seq<Octet>)
    requires forall d <- digits :: -0x8000 <= d < 0x8000
    ensures |b| == 2 * |digits|
  {
    if digits == [] then []
    else
      assert digits[0] in digits && forall d <- digits[1..] :: d in digits;
      TwoBytes(digits[0]) + DigitBytes(digits[1..])
  }

  /** The number of digits, the weight, the sign and the display scale, and the
      digits behind them. */
  function Sent(e: Encoding): (b: seq<Octet>)
    requires Sendable(e)
    ensures |b| == 8 + 2 * |e.digits|
  {
    TwoBytes(|e.digits|) + TwoBytes(e.weight) + TwoBytes(e.sign) + TwoBytes(e.dscale) + DigitBytes(e.digits)
  }

  lemma TwoBytesBack(v: int)
    requires -0x8000 <= v < 0x1_0000
    ensures v >= 0 ==> U16(TwoBytes(v)[0], TwoBytes(v)[1]) == v
    ensures v < 0x8000 ==> I16(TwoBytes(v)[0], TwoBytes(v)[1]) == v
  {
  }

  /** Digit `i` is sent as the bytes `2 * i` and `2 * i + 1`. */
  lemma {:induction false} DigitAt(digits: seq<int>, i: nat)
    requires i < |digits| && forall d <- digits :: -0x8000 <= d < 0x8000
    ensures var b := DigitBytes(digits); digits[i] in digits && [b[2 * i], b[2 * i + 1]] == TwoBytes(digits[i])
    decreases digits
  {
    assert digits[0] in digits && forall d <- digits[1..] :: d in digits;
    var rest := DigitBytes(digits[1..]);
    assert DigitBytes(digits) == TwoBytes(digits[0]) + rest;
    hide TwoBytes, DigitBytes;
    if i > 0 {
      DigitAt(digits[1..], i - 1);
      assert (TwoBytes(digits[0]) + rest)[2 * i] == rest[2 * (i - 1)];
      assert (TwoBytes(digits[0]) + rest)[2 * i + 1] == rest[2 * (i - 1) + 1];
    }
  }

  lemma DigitsBack(digits: seq<int>)
    requires forall d <- digits :: -0x8000 <= d < 0x8000
    ensures DigitsIn(DigitBytes(digits), |digits|) == digits
  {
    hide DigitsIn, DigitBytes;
    forall i | 0 <= i < |digits| ensures DigitsIn(DigitBytes(digits), |digits|)[i] == digits[i] {
      DigitBack(digits, i);
    }
  }

  lemma DigitBack(digits: seq<int>, i: nat)
    requires i < |digits| && forall d <- digits :: -0x8000 <= d < 0x8000
    ensures DigitsIn(DigitBytes(digits), |digits|)[i] == digits[i]
  {
    hide TwoBytes, I16, U16, DigitBytes, DigitsIn;
    DigitAt(digits, i);
    var b := DigitBytes(digits);
    DigitsInAt(b, |digits|, i);
    PairBack(digits[i], b[2 * i], b[2 * i + 1]);
  }

  lemma DigitsInAt(bytes: seq<Octet>, count: nat, i: nat)
    requires i < count && |bytes| >= 2 * count
    ensures DigitsIn(bytes, count)[i] == I16(bytes[2 * i], bytes[2 * i + 1])
  {
  }

  lemma PairBack(v: int, hi: Octet, lo: Octet)
    requires -0x8000 <= v < 0x8000 && [hi, lo] == TwoBytes(v)
    ensures I16(hi, lo) == v
  {
    TwoBytesBack(v);
    assert [hi, lo][0] == hi && [hi, lo][1] == lo;
  }

  /** What is sent is what is decoded. */
  lemma SentIsDecoded(e: Encoding)
    requires Sendable(e)
    ensures HasHeader(Sent(e)) && CountOf(Sent(e)) == |e.digits| && Decoded(Sent(e)) == e
    ensures U16(Sent(e)[4], Sent(e)[5]) == e.sign
  {
    DigitsBack(e.digits);
    TwoBytesBack(|e.digits|);
    TwoBytesBack(e.weight);
    TwoBytesBack(e.sign);
    TwoBytesBack(e.dscale);
    hide TwoBytes, I16, U16, DigitBytes;
    var b := Sent(e);
    assert b[..2] == TwoBytes(|e.digits|) && b[2..4] == TwoBytes(e.weight) && b[4..6] == TwoBytes(e.sign);
    assert b[6..8] == TwoBytes(e.dscale) && b[8..] == DigitBytes(e.digits);
    assert b[0] == b[..2][0] && b[1] == b[..2][1] && b[2] == b[2..4][0] && b[3] == b[2..4][1];
    assert b[4] == b[4..6][0] && b[5] == b[4..6][1] && b[6] == b[6..8][0] && b[7] == b[6..8][1];
  }

  // -- Decimal text

  function Pow10(k: nat): (p: nat)
    ensures p > 0
  {
    if k == 0 then 1 else 10 * Pow10(k - 1)
  }

  function DigitChar(d: nat): (c: char)
    requires d < 10
    ensures '0' <= c <= '9'
  {
    '0' + d as char
  }

  predicate IsDigit(c: char) {
    '0' <= c <= '9'
  }

  predicate AllDigits(s: string) {
    forall c <- s :: IsDigit(c)
  }

  /** The number a run of decimal digits writes. */
  function Value(s: string): nat
    requires AllDigits(s)
  {
    if s == "" then 0
    else
      assert forall c <- s[..|s| - 1] :: c in s;
      assert s[|s| - 1] in s;
      10 * Value(s[..|s| - 1]) + (s[|s| - 1] - '0') as nat
  }

  function ToText(d: nat): (s: string)
    ensures s != "" && AllDigits(s)
  {
    if d < 10 then [DigitChar(d)] else ToText(d / 10) + [DigitChar(d % 10)]
  }

  function Zeros(k: nat): (s: string)
    ensures |s| == k && AllDigits(s) && forall i | 0 <= i < k :: s[i] == '0'
  {
    seq(k, _ => '0')
  }

  /** Decimal text of at least four characters, the sign, if any, among them. */
  function Format04(d: int): string {
    if d >= 0 then
      var s := ToText(d);
      if |s| < 4 then Zeros(4 - |s|) + s else s
    else
      var s := ToText(-d);
      "-" + if |s| < 3 then Zeros(3 - |s|) + s else s
  }

  predicate IsGroup(d: int) {
    0 <= d < 10000
  }

  /** A group as exactly four digits. */
  function Four(d: int): (s: string)
    requires IsGroup(d)
    ensures |s| == 4 && AllDigits(s)
  {
    [DigitChar(d / 1000), DigitChar(d / 100 % 10), DigitChar(d / 10 % 10), DigitChar(d % 10)]
  }

  lemma TextSteps(d: nat)
    ensures d < 10 ==> ToText(d) == [DigitChar(d)]
    ensures d >= 10 ==> ToText(d) == ToText(d / 10) + [DigitChar(d % 10)]
  {
  }

  lemma FormatsFour(d: int)
    requires IsGroup(d)
    ensures Format04(d) == Four(d)
  {
    hide ToText, DigitChar;
    assert DigitChar(0) == '0' by {
      ZeroChar();
    }
    TextSteps(d);
    TextSteps(d / 10);
    TextSteps(d / 100);
    TextSteps(d / 1000);
  }

  lemma ZeroChar()
    ensures DigitChar(0) == '0'
  {
  }

  // -- What is to be printed

  predicate AllGroups(digits: seq<int>) {
    forall d <- digits :: IsGroup(d)
  }

  /** Finite, its first and last group not zero, and no decimal digit of the
      last group that lies behind the display scale. */
  predicate Canonical(e: Encoding) {
    && AllGroups(e.digits)
    && e.sign != NUMERIC_NAN && e.sign != NUMERIC_PINF && e.sign != NUMERIC_NINF
    && (e.digits != [] ==>
          && e.digits[0] != 0 && e.digits[|e.digits| - 1] != 0
          && var past := 4 * (|e.digits| - 1 - e.weight) - e.dscale;
          (past > 0 ==> past < 4 && e.digits[|e.digits| - 1] % Pow10(past) == 0))
  }

  /** The group `j` places after the first one; zero where none was sent. */
  function Group(digits: seq<int>, j: int): (d: int)
    requires AllGroups(digits)
    ensures IsGroup(d)
  {
    if 0 <= j < |digits| then
      assert digits[j] in digits;
      digits[j]
    else 0
  }

  /** Groups `lo` up to `hi`, four digits each. */
  function Run(digits: seq<int>, lo: int, hi: int): (s: string)
    requires AllGroups(digits)
    ensures |s| == (if lo < hi then 4 * (hi - lo) else 0) && AllDigits(s)
    decreases hi - lo
  {
    if lo >= hi then "" else Run(digits, lo, hi - 1) + Four(Group(digits, hi - 1))
  }

  function Whole(e: Encoding): (s: string)
    requires AllGroups(e.digits) && e.digits != []
    ensures s != "" && AllDigits(s)
  {
    if e.weight < 0 then "0" else ToText(Group(e.digits, 0)) + Run(e.digits, 1, e.weight + 1)
  }

  function Fraction(e: Encoding): (s: string)
    requires AllGroups(e.digits)
    ensures |s| == e.dscale && AllDigits(s)
  {
    var s := Run(e.digits, e.weight + 1, e.weight + 1 + e.dscale)[..e.dscale];
    assert forall c <- s :: c in Run(e.digits, e.weight + 1, e.weight + 1 + e.dscale);
    s
  }

  function Sign(e: Encoding): string {
    if e.sign == NUMERIC_NEG && e.digits != [] then "-" else ""
  }

  function Printed(e: Encoding): string
    requires AllGroups(e.digits)
  {
    Sign(e) + (if e.digits == [] then "0" else Whole(e))
    + if e.dscale == 0 then "" else "." + if e.digits == [] then Zeros(e.dscale) else Fraction(e)
  }

  // -- Runs of groups

  lemma RunUnfolds(digits: seq<int>, lo: int, hi: int)
    requires AllGroups(digits)
    ensures Run(digits, lo, hi) == if lo >= hi then "" else Run(digits, lo, hi - 1) + Four(Group(digits, hi - 1))
  {
  }

  lemma {:induction false} RunSplit(digits: seq<int>, lo: int, mid: int, hi: int)
    requires AllGroups(digits) && lo <= mid <= hi
    ensures Run(digits, lo, hi) == Run(digits, lo, mid) + Run(digits, mid, hi)
    decreases hi - mid
  {
    hide *;
    RunUnfolds(digits, mid, hi);
    if mid < hi {
      RunSplit(digits, lo, mid, hi - 1);
      RunUnfolds(digits, lo, hi);
      Associate(Run(digits, lo, mid), Run(digits, mid, hi - 1), Four(Group(digits, hi - 1)));
    }
  }

  lemma {:induction false} RunOfZeros(digits: seq<int>, lo: int, hi: int)
    requires AllGroups(digits) && lo <= hi && (hi <= 0 || lo >= |digits|)
    ensures Run(digits, lo, hi) == Zeros(4 * (hi - lo))
    decreases hi - lo
  {
    if lo < hi {
      RunOfZeros(digits, lo, hi - 1);
      assert Four(0) == "0000";
    }
  }

  /** The fraction is what was printed of the groups so far, padded. */
  lemma FractionIs(e: Encoding, hi: int, k: nat)
    requires AllGroups(e.digits) && hi > e.weight && k <= e.dscale && k <= 4 * (hi - e.weight - 1)
    requires k == e.dscale || (k == 4 * (hi - e.weight - 1) && hi >= |e.digits|)
    ensures Fraction(e) == Run(e.digits, e.weight + 1, hi)[..k] + Zeros(e.dscale - k)
  {
    hide *;
    FractionCut(e);
    var lo, end := e.weight + 1, e.weight + 1 + e.dscale;
    if hi <= end {
      RunSplit(e.digits, lo, hi, end);
      if k < e.dscale {
        RunOfZeros(e.digits, hi, end);
        CutInZeros(Run(e.digits, lo, hi), 4 * (end - hi), e.dscale);
      } else {
        CutEarly(Run(e.digits, lo, hi), Run(e.digits, hi, end), k);
      }
    } else {
      RunSplit(e.digits, lo, end, hi);
      CutEarly(Run(e.digits, lo, end), Run(e.digits, end, hi), k);
    }
  }

  lemma FractionCut(e: Encoding)
    requires AllGroups(e.digits)
    ensures Fraction(e) == Run(e.digits, e.weight + 1, e.weight + 1 + e.dscale)[..e.dscale]
  {
  }

  lemma CutInZeros(a: string, z: nat, k: nat)
    requires |a| <= k <= |a| + z
    ensures (a + Zeros(z))[..k] == a[..|a|] + Zeros(k - |a|)
  {
  }

  lemma CutEarly(a: string, b: string, k: nat)
    requires k <= |a|
    ensures (a + b)[..k] == a[..k] + Zeros(0)
  {
  }

  // -- The printer

  method ReadDigits(bytes: seq<Octet>, count: nat) returns (r: Outcome<seq<int>>)
    ensures r == if |bytes| < 2 * count then Fail(Decode) else Done(DigitsIn(bytes, count))
  {
    var digits: seq<int> := [];
    var remaining := bytes;
    for i := 0 to count
      invariant |bytes| >= 2 * i && remaining == bytes[2 * i..] && digits == DigitsIn(bytes, i)
    {
      if |remaining| < 2 {
        return Fail(Decode);
      }
      digits := digits + [I16(remaining[0], remaining[1])];
      remaining := remaining[2..];
    }
    return Done(digits);
  }

  /** Append characters while fewer than `dscale` fraction digits are written.
      The text is `first + done` so far. */
  method PushUpTo(result: string, s: string, written: nat, dscale: nat, ghost first: string, ghost done: string)
    returns (result': string, written': nat, ghost done': string)
    requires result == first + done
    ensures result' == first + done'
    ensures written' == if written >= dscale then written else if written + |s| <= dscale then written + |s| else dscale
    ensures done' == done + s[..written' - written]
  {
    result', written', done' := result, written, done;
    for i := 0 to |s|
      invariant written' == if written >= dscale then written else if written + i <= dscale then written + i else dscale
      invariant result' == first + done' && done' == done + s[..written' - written]
    {
      if written' < dscale {
        result' := result' + [s[i]];
        done' := done' + [s[i]];
        written' := written' + 1;
      }
    }
  }

  /** Append text behind `first + done`. */
  method Push(result: string, s: string, ghost first: string, ghost done: string)
    returns (result': string, ghost done': string)
    requires result == first + done
    ensures result' == first + done' && done' == done + s
  {
    result', done' := result + s, done + s;
  }

  method PadFraction(result: string, written: int, dscale: nat, ghost first: string, ghost done: string)
    returns (result': string)
    requires result == first + done
    ensures result' == first + (done + Zeros(if written < dscale then dscale - written else 0))
  {
    result' := result;
    var w := written;
    ghost var done' := done;
    while w < dscale
      invariant written <= w && (w <= dscale || w == written)
      invariant result' == first + done' && done' == done + Zeros(w - written)
    {
      result', done' := Push(result', "0", first, done');
      assert Zeros(w + 1 - written) == Zeros(w - written) + "0";
      w := w + 1;
    }
  }

  function ToString(d: int): string {
    if d >= 0 then ToText(d) else "-" + ToText(-d)
  }

  method Repeat(result: string, s: string, count: int) returns (result': string)
    requires s == "0"
    ensures result' == result + Zeros(if count > 0 then count else 0)
  {
    result' := result;
    var i := 0;
    while i < count
      invariant 0 <= i && (i <= count || i == 0) && result' == result + Zeros(i)
    {
      result' := result' + s;
      assert Zeros(i + 1) == Zeros(i) + "0";
      i := i + 1;
    }
  }

  lemma RunStep(e: Encoding, lo: int, i: nat)
    requires Canonical(e) && i < |e.digits| && lo <= i
    ensures AllGroups(e.digits)
    ensures Run(e.digits, lo, i + 1) == Run(e.digits, lo, i) + Format04(e.digits[i])
    ensures |Format04(e.digits[i])| == 4
  {
    assert e.digits[i] in e.digits;
    FormatsFour(e.digits[i]);
  }

  /** Below one the last group reaches into the display scale. */
  lemma BelowOne(e: Encoding)
    requires Canonical(e) && e.weight < 0 && e.digits != []
    ensures AllGroups(e.digits) && e.dscale > 0 && 4 * (|e.digits| - e.weight - 2) < e.dscale
    ensures Run(e.digits, e.weight + 1, 0) == Zeros(-4 * (e.weight + 1))
  {
    RunOfZeros(e.digits, e.weight + 1, 0);
  }

  lemma CutAppended(run: string, s: string, before: nat, written: nat)
    requires before == |run| && before <= written <= before + |s|
    ensures run[..before] + s[..written - before] == (run + s)[..written]
  {
  }

  /** The fraction below one, printed up to group `i`: whole groups, the last
      of them only up to the display scale. */
  ghost predicate PrintedTo(e: Encoding, i: nat, written: int, done: string)
    requires AllGroups(e.digits)
  {
    var lo := e.weight + 1;
    if i < |e.digits| then
      written == 4 * (i - lo) && done == Run(e.digits, lo, i)
    else
      && 0 <= written <= e.dscale && written <= 4 * (i - lo)
      && (written == e.dscale || written == 4 * (i - lo))
      && done == Run(e.digits, lo, i)[..written]
  }

  lemma PrintedOn(e: Encoding, i: nat, written: nat, done: string, written': nat)
    requires Canonical(e) && e.weight < 0 && e.digits != [] && i < |e.digits|
    requires AllGroups(e.digits) && PrintedTo(e, i, written, done)
    requires written' == if i < |e.digits| - 1 || written + 4 <= e.dscale then written + 4 else e.dscale
    ensures var s := Format04(e.digits[i]);
            |s| == 4 && written <= written' <= written + 4
            && PrintedTo(e, i + 1, written', done + s[..written' - written])
  {
    BelowOne(e);
    RunStep(e, e.weight + 1, i);
    hide Run, Canonical, Format04, AllGroups;
    var s := Format04(e.digits[i]);
    CutAppended(Run(e.digits, e.weight + 1, i), s, written, written');
    assert s[..4] == s;
    WholeCut(Run(e.digits, e.weight + 1, i));
  }

  /** What stands before the last group leaves room for more of it. */
  lemma BeforeLast(e: Encoding, i: nat, written: int, done: string)
    requires Canonical(e) && e.weight < 0 && e.digits != [] && i < |e.digits|
    requires AllGroups(e.digits) && PrintedTo(e, i, written, done)
    ensures 0 < e.dscale && written < e.dscale && |Format04(e.digits[i])| == 4
  {
    BelowOne(e);
    RunStep(e, e.weight + 1, i);
    hide Run, Canonical, Format04, AllGroups;
  }

  lemma WholeCut(s: string)
    ensures s[..|s|] == s
  {
  }

  lemma PrintedNone(e: Encoding)
    requires Canonical(e) && e.weight < 0 && e.digits != []
    ensures AllGroups(e.digits) && PrintedTo(e, 0, -4 * (e.weight + 1), Zeros(-4 * (e.weight + 1)))
  {
    BelowOne(e);
  }

  lemma PrintedAll(e: Encoding, written: nat, done: string)
    requires Canonical(e) && e.weight < 0 && e.digits != []
    requires AllGroups(e.digits) && PrintedTo(e, |e.digits|, written, done)
    ensures done + Zeros(if written < e.dscale then e.dscale - written else 0) == Fraction(e)
  {
    hide Run, Fraction, Canonical, AllGroups, Zeros;
    FractionIs(e, |e.digits|, written);
  }

  /** All groups behind the decimal point. */
  method PrintBelowOne(result: string, e: Encoding) returns (result': string)
    requires e.weight < 0 && e.digits != []
    ensures Canonical(e) ==> result' == result + "0." + Fraction(e)
  {
    hide *;
    ghost var ok := Canonical(e);
    if ok {
      PrintedNone(e);
    }
    var ndigits := |e.digits|;
    var intDigits := (e.weight + 1) * 4;
    result' := Repeat(result + "0.", "0", -intDigits);
    var fracDigitsWritten := -intDigits;
    ghost var start := result + "0.";
    ghost var done := Zeros(-intDigits);
    for i := 0 to ndigits
      invariant fracDigitsWritten >= 0 && result' == start + done
      invariant ok ==> PrintedTo(e, i, fracDigitsWritten, done)
    {
      var s := Format04(e.digits[i]);
      ghost var before, sofar := fracDigitsWritten, done;
      if ok {
        BeforeLast(e, i, before, done);
      }
      if i == ndigits - 1 && e.dscale > 0 {
        result', fracDigitsWritten, done := PushUpTo(result', s, fracDigitsWritten, e.dscale, start, done);
      } else {
        result', done := Push(result', s, start, done);
        fracDigitsWritten := fracDigitsWritten + 4;
      }
      if ok {
        PrintedOn(e, i, before, sofar, fracDigitsWritten);
        WholeCut(s);
      }
    }
    result' := PadFraction(result', fracDigitsWritten, e.dscale, start, done);
    if ok {
      PrintedAll(e, fracDigitsWritten, done);
    }
  }

  /** The groups sent for the whole part, after the first. */
  method PushGroups(result: string, e: Encoding) returns (result': string, dIdx: nat, ghost done: string)
    requires e.weight >= 0 && e.digits != []
    ensures 1 <= dIdx <= e.weight + 1 && (dIdx == e.weight + 1 || dIdx == |e.digits|)
    ensures result' == result + done
    ensures Canonical(e) ==> AllGroups(e.digits) && done == Run(e.digits, 1, dIdx)
  {
    ghost var ok := Canonical(e);
    assert ok ==> AllGroups(e.digits) && Run(e.digits, 1, 1) == "";
    hide Run, Canonical, Format04, AllGroups;
    result', dIdx, done := result, 1, "";
    while dIdx <= e.weight && dIdx < |e.digits|
      invariant 1 <= dIdx <= |e.digits| && dIdx <= e.weight + 1
      invariant result' == result + done && (ok ==> done == Run(e.digits, 1, dIdx))
    {
      if ok {
        RunStep(e, 1, dIdx);
      }
      result', done := Push(result', Format04(e.digits[dIdx]), result, done);
      dIdx := dIdx + 1;
    }
  }

  /** Zeros for the groups of the whole part that were not sent. */
  method PadGroups(result: string, e: Encoding, from: nat, ghost first: string, ghost done: string)
    returns (result': string, dIdx: nat, ghost done': string)
    requires 1 <= from <= e.weight + 1 && (from == e.weight + 1 || from == |e.digits|) && result == first + done
    requires Canonical(e) ==> AllGroups(e.digits) && done == Run(e.digits, 1, from)
    ensures dIdx == e.weight + 1 && result' == first + done'
    ensures Canonical(e) ==> done' == Run(e.digits, 1, dIdx)
  {
    ghost var ok := Canonical(e);
    hide Run, Canonical;
    result', dIdx, done' := result, from, done;
    while dIdx <= e.weight
      invariant from <= dIdx <= e.weight + 1
      invariant result' == first + done' && (ok ==> done' == Run(e.digits, 1, dIdx))
    {
      if ok {
        RunPads(e.digits, 1, dIdx);
      }
      result', done' := Push(result', "0000", first, done');
      dIdx := dIdx + 1;
    }
  }

  /** The groups before the decimal point, zeros where none were sent. */
  method PrintWhole(result: string, e: Encoding) returns (result': string, dIdx: nat)
    requires e.weight >= 0 && e.digits != []
    ensures dIdx == e.weight + 1
    ensures Canonical(e) ==> result' == result + Whole(e)
  {
    if Canonical(e) {
      assert AllGroups(e.digits) && e.digits[0] in e.digits && ToString(e.digits[0]) == ToText(Group(e.digits, 0));
    }
    hide Run, Canonical, ToText, ToString;
    ghost var done;
    var first := result + ToString(e.digits[0]);
    result', dIdx, done := PushGroups(first, e);
    result', dIdx, done := PadGroups(result', e, dIdx, first, done);
    Associate(result, ToString(e.digits[0]), done);
  }

  lemma Associate(a: string, b: string, c: string)
    ensures a + b + c == a + (b + c)
  {
  }

  /** Some groups before the decimal point. */
  method PrintFromOne(result: string, e: Encoding) returns (result': string)
    requires e.weight >= 0 && e.digits != []
    ensures Canonical(e) ==> result' == result + Whole(e) + if e.dscale == 0 then "" else "." + Fraction(e)
  {
    hide Whole, Fraction, Canonical;
    var dIdx;
    result', dIdx := PrintWhole(result, e);
    if e.dscale > 0 {
      result' := PrintFraction(result' + ".", e, dIdx);
    }
  }

  lemma RunPads(digits: seq<int>, lo: int, i: int)
    requires AllGroups(digits) && |digits| <= i && lo <= i
    ensures Run(digits, lo, i + 1) == Run(digits, lo, i) + "0000"
  {
    assert Four(0) == "0000";
  }

  lemma NoneCut(e: Encoding, from: int)
    requires Canonical(e)
    ensures AllGroups(e.digits) && Run(e.digits, from, from)[..0] == ""
  {
  }

  /** The groups of the fraction, up to the display scale. */
  method PushFraction(result: string, e: Encoding, from: nat)
    returns (result': string, dIdx: nat, written: nat, ghost done: string)
    requires e.weight >= 0 && e.digits != [] && from == e.weight + 1
    ensures result' == result + done && from <= dIdx && written <= e.dscale
    ensures Canonical(e) ==>
              && AllGroups(e.digits) && written <= 4 * (dIdx - from)
              && (written == e.dscale || (written == 4 * (dIdx - from) && dIdx >= |e.digits|))
              && done == Run(e.digits, from, dIdx)[..written]
  {
    hide *;
    ghost var ok := Canonical(e);
    if ok {
      NoneCut(e, from);
    }
    result', dIdx, written, done := result, from, 0, "";
    while dIdx < |e.digits| && written < e.dscale
      invariant from <= dIdx && written <= e.dscale
      invariant ok ==> written <= 4 * (dIdx - from) && (written == e.dscale || written == 4 * (dIdx - from))
      invariant result' == result + done && (ok ==> done == Run(e.digits, from, dIdx)[..written])
    {
      var s := Format04(e.digits[dIdx]);
      ghost var before := written;
      if ok {
        RunStep(e, from, dIdx);
      }
      result', written, done := PushUpTo(result', s, written, e.dscale, result, done);
      if ok {
        CutAppended(Run(e.digits, from, dIdx), s, before, written);
      }
      dIdx := dIdx + 1;
    }
  }

  method PrintFraction(result: string, e: Encoding, from: nat) returns (result': string)
    requires e.weight >= 0 && e.digits != [] && e.dscale > 0 && from == e.weight + 1
    ensures Canonical(e) ==> result' == result + Fraction(e)
  {
    hide Run, Fraction, Canonical, AllGroups;
    var dIdx, fracDigitsWritten;
    ghost var done;
    result', dIdx, fracDigitsWritten, done := PushFraction(result, e, from);
    result' := PadFraction(result', fracDigitsWritten, e.dscale, result, done);
    if Canonical(e) {
      FractionIs(e, dIdx, fracDigitsWritten);
    }
  }

  method PrintZero(dscale: nat) returns (result: string)
    ensures result == if dscale == 0 then "0" else "0." + Zeros(dscale)
  {
    if dscale > 0 {
      result := PadFraction("0.", 0, dscale, "0.", "");
      assert "" + Zeros(dscale) == Zeros(dscale);
    } else {
      result := "0";
    }
  }

  method PrintFinite(e: Encoding) returns (result: string)
    requires e.digits != []
    ensures Canonical(e) ==> result == Printed(e)
  {
    hide Fraction, Canonical;
    result := "";
    if e.sign == NUMERIC_NEG {
      result := result + "-";
    }
    assert result == Sign(e);
    var intDigits := (e.weight + 1) * 4;
    if intDigits <= 0 {
      ghost var sign := result;
      result := PrintBelowOne(result, e);
      if Canonical(e) {
        BelowOne(e);
        Associate(sign, "0", "." + Fraction(e));
        Associate(sign, "0.", Fraction(e));
      }
    } else {
      result := PrintFromOne(result, e);
    }
  }

  lemma ZeroPrinted(e: Encoding)
    requires e.digits == []
    ensures Printed(e) == if e.dscale == 0 then "0" else "0." + Zeros(e.dscale)
  {
    assert "" + "0" + "" == "0";
    assert "" + "0" + ("." + Zeros(e.dscale)) == "0." + Zeros(e.dscale);
  }

  /** Print an encoding. A canonical one is printed as specified; the three
      special values by name; missing digits are an error, and on a negative
      number of digits the allocation panics. */
  method NumericToString(bytes: seq<Octet>) returns (r: Outcome<string>)
    ensures !HasHeader(bytes) ==> r == Fail(Decode)
    ensures HasHeader(bytes) ==>
              var sign, count := U16(bytes[4], bytes[5]), CountOf(bytes);
              if sign == NUMERIC_NAN then r == Done("NaN")
              else if sign == NUMERIC_PINF then r == Done("Infinity")
              else if sign == NUMERIC_NINF then r == Done("-Infinity")
              else if count < 0 then r == Dropped
              else if |bytes| - 8 < 2 * count then r == Fail(Decode)
              else r.Done? && (Canonical(Decoded(bytes)) ==> r == Done(Printed(Decoded(bytes))))
    ensures forall e | Sendable(e) && bytes == Sent(e) ::
              if e.sign == 0xC000 then r == Done("NaN")
              else if e.sign == 0xD000 then r == Done("Infinity")
              else if e.sign == 0xF000 then r == Done("-Infinity")
              else r.Done? && (Canonical(e) ==> r == Done(Printed(e)))
  {
    hide Printed, Canonical, Sent, Sendable;
    forall e | Sendable(e) && bytes == Sent(e)
      ensures HasHeader(bytes) && CountOf(bytes) == |e.digits| && Decoded(bytes) == e && |bytes| == 8 + 2 * |e.digits|
      ensures U16(bytes[4], bytes[5]) == e.sign
    {
      SentIsDecoded(e);
    }
    if |bytes| < 8 {
      return Fail(Decode);
    }
    var ndigits := AsUsize(I16(bytes[0], bytes[1]));
    var weight := I16(bytes[2], bytes[3]);
    var sign := U16(bytes[4], bytes[5]);
    var dscale := U16(bytes[6], bytes[7]);
    if sign == NUMERIC_NAN {
      return Done("NaN");
    }
    if sign == NUMERIC_PINF {
      return Done("Infinity");
    }
    if sign == NUMERIC_NINF {
      return Done("-Infinity");
    }
    if ndigits == 0 {
      ZeroPrinted(Encoding(sign, weight, dscale, []));
      assert DigitsIn(bytes[8..], 0) == [];
      var zero := PrintZero(dscale);
      return Done(zero);
    }
    if 2 * ndigits > MAX_ALLOCATION {
      return Dropped;  // the allocation panics
    }
    var digits :- ReadDigits(bytes[8..], ndigits);
    var result := PrintFinite(Encoding(sign, weight, dscale, digits));
    r := Done(result);
  }
}
