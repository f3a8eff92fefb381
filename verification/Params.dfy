/** Integer parameters: range-checked encoding for a target type, NULLs, and
    the iterator that takes the block of values apart again. */
module Params {
  import opened Protocol
  import opened Codec

  const INT8: nat := 20
  const INT2: nat := 21
  const INT4: nat := 23

  /** The width of an integer type in bytes; none for any other type. */
  function Width(oid: nat): (w: nat)
    ensures w == 0 || w == 2 || w == 4 || w == 8
  {
    if oid == INT2 then 2 else if oid == INT4 then 4 else if oid == INT8 then 8 else 0
  }

  function Pow256(w: nat): (p: nat)
    ensures p > 0
  {
    if w == 0 then 1 else 256 * Pow256(w - 1)
  }

  /** The values of a signed type of `w` bytes. */
  predicate InWidth(v: int, w: nat) {
    0 - Pow256(w) <= 2 * v < Pow256(w)
  }

  datatype Kind = I8 | I16 | I32 | I64 | U8 | U16 | U32 | U64 {
    /** The values of this type. */
    predicate Holds(v: int) {
      match this
      case I8 => InWidth(v, 1)
      case I16 => InWidth(v, 2)
      case I32 => InWidth(v, 4)
      case I64 => InWidth(v, 8)
      case U8 => 0 <= v < Pow256(1)
      case U16 => 0 <= v < Pow256(2)
      case U32 => 0 <= v < Pow256(4)
      case U64 => 0 <= v < Pow256(8)
    }

    /** Where the encoder converts with a check; elsewhere it casts. */
    predicate Checks(oid: nat) {
      match this
      case I32 => oid == INT2
      case I64 => oid == INT2 || oid == INT4
      case U16 => oid == INT2
      case U32 => oid == INT2 || oid == INT4
      case U64 => true
      case _ => false
    }
  }

  // -- Two's complement, big-endian

  function Unsigned(b: seq<Octet>): (v: nat)
    ensures v < Pow256(|b|)
  {
    if b == [] then 0 else Unsigned(b[..|b| - 1]) * 256 + b[|b| - 1]
  }

  function Bytes(v: nat, w: nat): (b: seq<Octet>)
    ensures |b| == w
  {
    if w == 0 then [] else Bytes(v / 256, w - 1) + [v % 256]
  }

  /** The low `w` bytes of an integer: what a cast keeps of it. */
  function Twos(v: int, w: nat): (b: seq<Octet>)
    ensures |b| == w
  {
    Bytes(v % Pow256(w), w)
  }

  function Signed(b: seq<Octet>): int {
    var u := Unsigned(b);
    if 2 * u < Pow256(|b|) then u else u - Pow256(|b|)
  }

  /** High byte first: each byte is a digit in base 256. */
  lemma {:induction false} BytesAt(v: nat, w: nat, i: nat)
    requires i < w
    ensures Bytes(v, w)[i] == v / Pow256(w - 1 - i) % 256
    decreases w
  {
    if i < w - 1 {
      BytesAt(v / 256, w - 1, i);
      DivideTwice(v, Pow256(w - 2 - i));
    }
  }

  lemma DivideTwice(v: nat, p: nat)
    requires p > 0
    ensures v / 256 / p == v / (256 * p)
  {
    var q, s := v / 256 / p, v / 256 % p;
    var rest := 256 * s + v % 256;
    assert v / 256 == p * q + s;
    assert v == 256 * (v / 256) + v % 256;
    assert v == (256 * p) * q + rest;
    assert rest < 256 * p;
    Quotient(v, 256 * p, q, rest);
  }

  lemma Quotient(v: nat, m: nat, q: nat, r: nat)
    requires v == m * q + r && r < m
    ensures v / m == q
  {
    var d := v / m - q;
    assert d * m == r - v % m;
    AtLeast(d, m);
  }

  lemma AtLeast(d: int, m: nat)
    ensures d >= 1 ==> d * m >= m
    ensures d <= -1 ==> d * m <= 0 - m
  {
    if d >= 1 {
      assert d * m == m + (d - 1) * m;
    } else if d <= -1 {
      assert d * m == 0 - m - (0 - d - 1) * m;
    }
  }

  lemma {:induction false} BytesRoundTrip(v: nat, w: nat)
    requires v < Pow256(w)
    ensures Unsigned(Bytes(v, w)) == v
  {
    if w > 0 {
      BytesRoundTrip(v / 256, w - 1);
      assert Bytes(v, w)[..w - 1] == Bytes(v / 256, w - 1);
    }
  }

  lemma TwosRoundTrip(v: int, w: nat)
    requires InWidth(v, w)
    ensures Signed(Twos(v, w)) == v
  {
    var p := Pow256(w);
    ModSigned(v, p);
    BytesRoundTrip(v % p, w);
  }

  /** Bytes are what a cast keeps of the value they mean. */
  lemma BytesBack(b: seq<Octet>)
    ensures Twos(Signed(b), |b|) == b
  {
    var u, p := Unsigned(b), Pow256(|b|);
    UnsignedBack(b);
    hide Unsigned, Pow256, Bytes;
    SignedMod(u, p);
  }

  lemma {:induction false} UnsignedBack(b: seq<Octet>)
    ensures Bytes(Unsigned(b), |b|) == b
  {
    if b != [] {
      UnsignedBack(b[..|b| - 1]);
      assert Unsigned(b) / 256 == Unsigned(b[..|b| - 1]) && Unsigned(b) % 256 == b[|b| - 1];
    }
  }

  lemma SignedMod(u: nat, p: nat)
    requires u < p
    ensures u % p == u && (u - p) % p == u
  {
  }

  lemma ModSigned(v: int, p: nat)
    requires p > 0 && 0 - p <= 2 * v < p
    ensures v % p == if v >= 0 then v else v + p
  {
  }

  // -- One value

  datatype Value = Value(kind: Kind, v: int) {
    predicate Ok() {
      kind.Holds(v)
    }
  }

  type Param = Option<Value>

  predicate AllOk(params: seq<Param>) {
    forall i | 0 <= i < |params| :: params[i].Some? ==> params[i].value.Ok()
  }

  /** A parameter can be written as the target type. */
  predicate Encodable(p: Param, oid: nat) {
    p.None? || (Width(oid) > 0 && InWidth(p.value.v, Width(oid)))
  }

  /** A length and the value, or the length -1. */
  function Item(p: Param, oid: nat): seq<Octet> {
    match p
    case None => Twos(-1, 4)
    case Some(value) => Twos(Width(oid), 4) + Twos(value.v, Width(oid))
  }

  /** No cast ever truncates: without a check every value of the source type is
      one of the target type. */
  lemma CastsFit(value: Value, oid: nat)
    requires value.Ok() && Width(oid) > 0 && !value.kind.Checks(oid)
    ensures InWidth(value.v, Width(oid))
  {
    assert Pow256(1) == 0x100 && Pow256(2) == 0x1_0000 && Pow256(3) == 0x100_0000 && Pow256(4) == 0x1_0000_0000;
    assert Pow256(5) == 0x100_0000_0000 && Pow256(6) == 0x1_0000_0000_0000;
    assert Pow256(7) == 0x100_0000_0000_0000 && Pow256(8) == 0x1_0000_0000_0000_0000;
  }

  /** The two's complement of `v`, its digits in base 256 from the highest on. */
  predicate HighByteFirst(v: int, b: seq<Octet>) {
    forall i | 0 <= i < |b| :: b[i] == v % Pow256(|b|) / Pow256(|b| - 1 - i) % 256
  }

  lemma Powers()
    ensures Pow256(0) == 1 && Pow256(1) == 0x100 && Pow256(2) == 0x1_0000 && Pow256(3) == 0x100_0000
    ensures Pow256(4) == 0x1_0000_0000 && Pow256(8) == 0x1_0000_0000_0000_0000
  {
    assert Pow256(5) == 0x100_0000_0000 && Pow256(6) == 0x1_0000_0000_0000;
    assert Pow256(7) == 0x100_0000_0000_0000;
  }

  lemma TwosHigh(v: int, w: nat)
    ensures HighByteFirst(v, Twos(v, w))
  {
    hide Bytes;
    forall i | 0 <= i < w ensures Twos(v, w)[i] == v % Pow256(w) / Pow256(w - 1 - i) % 256 {
      BytesAt(v % Pow256(w), w, i);
    }
  }

  /** Four bytes, one by one. */
  lemma FourBytes(v: int)
    ensures var u, b := v % 0x1_0000_0000, Twos(v, 4);
            b == [u / 0x100_0000 % 256, u / 0x1_0000 % 256, u / 0x100 % 256, u % 256]
  {
    Powers();
    TwosHigh(v, 4);
    hide Twos, Pow256;
  }

  /** The four bytes of a length, and those of the length -1. */
  lemma LengthBytes(w: nat)
    ensures w < 256 ==> Twos(w, 4) == [0, 0, 0, w]
    ensures Twos(-1, 4) == [255, 255, 255, 255]
  {
    hide Twos;
    FourBytes(w);
    FourBytes(-1);
    assert (-1) % 0x1_0000_0000 == 0xFFFF_FFFF;
    if w < 256 {
      OneByte(w);
    }
  }

  lemma OneByte(w: nat)
    requires w < 256
    ensures w % 0x1_0000_0000 == w && w / 0x100_0000 == 0 && w / 0x1_0000 == 0 && w / 0x100 == 0 && w % 256 == w
  {
  }

  lemma Ranges(v: int)
    ensures InWidth(v, 2) <==> -0x8000 <= v < 0x8000
    ensures InWidth(v, 4) <==> -0x8000_0000 <= v < 0x8000_0000
    ensures InWidth(v, 8) <==> -0x8000_0000_0000_0000 <= v < 0x8000_0000_0000_0000
  {
    Powers();
  }

  /** Encode one parameter for a target type. */
  method Encode(p: Param, oid: nat, buf: Buffer) returns (r: Outcome<()>)
    requires p.Some? ==> p.value.Ok()
    modifies buf
    ensures r.Done? <==>
              || p.None?
              || (oid == 21 && -0x8000 <= p.value.v < 0x8000)
              || (oid == 23 && -0x8000_0000 <= p.value.v < 0x8000_0000)
              || (oid == 20 && -0x8000_0000_0000_0000 <= p.value.v < 0x8000_0000_0000_0000)
    ensures old(buf.data) <= buf.data
    ensures r.Done? ==>
              var item := buf.data[|old(buf.data)|..];
              if p.None? then item == [255, 255, 255, 255]
              else
                var w := if oid == 21 then 2 else if oid == 23 then 4 else 8;
                |item| == 4 + w && item[..4] == [0, 0, 0, w] && HighByteFirst(p.value.v, item[4..])
    ensures r == if Encodable(p, oid) then Done(()) else Fail(Error.Encode)
    ensures r.Done? ==> buf.data == old(buf.data) + Item(p, oid)
    ensures !r.Done? ==> buf.data == old(buf.data)
  {
    hide Twos, InWidth, Kind.Holds, Kind.Checks, HighByteFirst;
    LengthBytes(Width(oid));
    if p.Some? {
      Ranges(p.value.v);
      TwosHigh(p.value.v, Width(oid));
    }
    if p.None? {
      buf.data := buf.data + Twos(-1, 4);
      return Done(());
    }
    var value := p.value;
    if oid != INT2 && oid != INT4 && oid != INT8 {
      return Fail(Error.Encode);
    }
    if value.kind.Checks(oid) {
      if !InWidth(value.v, Width(oid)) {
        return Fail(Error.Encode);
      }
    } else {
      CastsFit(value, oid);
    }
    var width := Width(oid);
    buf.data := buf.data + Twos(width, 4);
    buf.data := buf.data + Twos(value.v, width);
    assert buf.data[|old(buf.data)|..][4..] == Twos(value.v, width);
    return Done(());
  }

  // -- The block of values

  function Block(params: seq<Param>, oids: seq<nat>): seq<Octet>
    requires |params| == |oids|
  {
    if params == [] then [] else Item(params[0], oids[0]) + Block(params[1..], oids[1..])
  }

  lemma {:induction false} BlockSnoc(params: seq<Param>, oids: seq<nat>, p: Param, oid: nat)
    requires |params| == |oids|
    ensures Block(params + [p], oids + [oid]) == Block(params, oids) + Item(p, oid)
  {
    if params == [] {
      assert [p][1..] == [] && [oid][1..] == [] && params + [p] == [p] && oids + [oid] == [oid];
    } else {
      assert (params + [p])[1..] == params[1..] + [p] && (oids + [oid])[1..] == oids[1..] + [oid];
      BlockSnoc(params[1..], oids[1..], p, oid);
    }
  }

  predicate AllEncodable(params: seq<Param>, oids: seq<nat>)
    requires |params| == |oids|
  {
    forall i | 0 <= i < |params| :: Encodable(params[i], oids[i])
  }

  lemma Appended(a: seq<Octet>, b: seq<Octet>, c: seq<Octet>)
    ensures a + b + c == a + (b + c)
    ensures a <= a + b + c
  {
  }

  lemma BlockStep(params: seq<Param>, oids: seq<nat>, i: nat)
    requires |params| == |oids| && i < |params|
    ensures Block(params[..i + 1], oids[..i + 1]) == Block(params[..i], oids[..i]) + Item(params[i], oids[i])
    ensures AllEncodable(params[..i + 1], oids[..i + 1]) <==>
            AllEncodable(params[..i], oids[..i]) && Encodable(params[i], oids[i])
    ensures AllEncodable(params, oids) ==> Encodable(params[i], oids[i])
  {
    hide Block, Item, Encodable;
    BlockSnoc(params[..i], oids[..i], params[i], oids[i]);
    assert params[..i + 1] == params[..i] + [params[i]] && oids[..i + 1] == oids[..i] + [oids[i]];
  }

  lemma NoneEncoded(params: seq<Param>, oids: seq<nat>)
    requires |params| == |oids|
    ensures Block(params[..0], oids[..0]) == [] && AllEncodable(params[..0], oids[..0])
  {
  }

  /** Parameters and target types are taken in pairs, as far as both go. */
  function Pairs(params: seq<Param>, oids: seq<nat>): (n: nat)
    ensures n <= |params| && n <= |oids|
  {
    if |params| <= |oids| then |params| else |oids|
  }

  /** Encode the parameters, one target type each. It fails iff some value is
      outside its target type, and leaves what was in the buffer alone. What
      has no counterpart is passed over. */
  method EncodeAll(params: seq<Param>, oids: seq<nat>, buf: Buffer) returns (r: Outcome<()>)
    requires AllOk(params)
    modifies buf
    ensures var n := Pairs(params, oids);
            && r == (if AllEncodable(params[..n], oids[..n]) then Done(()) else Fail(Error.Encode))
            && (r.Done? ==> buf.data == old(buf.data) + Block(params[..n], oids[..n]))
    ensures old(buf.data) <= buf.data
  {
    ghost var n := Pairs(params, oids);
    ghost var ps, os := params[..n], oids[..n];
    NoneEncoded(ps, os);
    WholeBlock(ps, os);
    hide Block, Item, Encodable, AllEncodable, Value.Ok;
    ghost var start := buf.data;
    for i := 0 to Pairs(params, oids)
      invariant AllEncodable(ps[..i], os[..i]) && buf.data == start + Block(ps[..i], os[..i])
    {
      BlockStep(ps, os, i);
      var encoded := Encode(params[i], oids[i], buf);
      if !encoded.Done? {
        return encoded;
      }
      Appended(start, Block(ps[..i], os[..i]), Item(params[i], oids[i]));
    }
    return Done(());
  }

  lemma WholeBlock(params: seq<Param>, oids: seq<nat>)
    requires |params| == |oids|
    ensures params[..|params|] == params && oids[..|params|] == oids
  {
  }

  // -- Taking it apart

  /** What the iterator yields next, and what it has left. */
  function NextItem(s: seq<Octet>): (Option<Option<seq<Octet>>>, seq<Octet>) {
    if |s| < 4 then (None, s)
    else
      var len, rest := Signed(s[..4]), s[4..];
      if len == -1 then (Some(None), rest)
      else if len < 0 || |rest| < len then (None, rest)
      else (Some(Some(rest[..len])), rest[len..])
  }

  lemma NextItemShrinks(s: seq<Octet>)
    ensures NextItem(s).0.Some? ==> |NextItem(s).1| < |s|
  {
  }

  /** Everything it yields. */
  function Items(s: seq<Octet>): seq<Option<seq<Octet>>>
    decreases |s|
  {
    NextItemShrinks(s);
    var (item, rest) := NextItem(s);
    if item.None? then [] else [item.value] + Items(rest)
  }

  class DataRowIter {
    var remaining: seq<Octet>

    constructor (columnsData: seq<Octet>)
      ensures remaining == columnsData
    {
      remaining := columnsData;
    }

    method Next() returns (item: Option<Option<seq<Octet>>>)
      modifies this
      ensures (item, remaining) == NextItem(old(remaining))
    {
      if |remaining| < 4 {
        return None;
      }
      var lenBytes := remaining[..4];
      remaining := remaining[4..];
      var len := Signed(lenBytes);
      if len == -1 {
        return Some(None);
      }
      // As an unsigned length a negative one exceeds whatever is left.
      if len < 0 || |remaining| < len {
        return None;
      }
      var value := remaining[..len];
      remaining := remaining[len..];
      return Some(Some(value));
    }
  }

  method Collect(iter: DataRowIter) returns (items: seq<Option<seq<Octet>>>)
    modifies iter
    ensures items == Items(old(iter.remaining))
  {
    items := [];
    while true
      invariant items + Items(iter.remaining) == Items(old(iter.remaining))
      decreases |iter.remaining|
    {
      NextItemShrinks(iter.remaining);
      ghost var s, before := iter.remaining, items;
      var item := iter.Next();
      if item.None? {
        return;
      }
      items := items + [item.value];
      assert before + ([item.value] + Items(iter.remaining)) == items + Items(iter.remaining);
    }
  }

  /** Decoding into a 64-bit integer. */
  function I64FromBinary(oid: nat, bytes: seq<Octet>): (r: Outcome<int>)
    ensures r.Done? <==> Width(oid) > 0 && |bytes| == Width(oid)
    ensures r.Done? ==> InWidth(r.value, 8) && Twos(r.value, |bytes|) == bytes
  {
    if Width(oid) > 0 && |bytes| == Width(oid) then
      BytesBack(bytes);
      assert Pow256(2) == 0x1_0000 && Pow256(4) == 0x1_0000_0000;
      Done(Signed(bytes))
    else Fail(Decode)
  }

  /** The values an encoded block stands for. */
  predicate Decoded(params: seq<Param>, oids: seq<nat>, items: seq<Option<seq<Octet>>>)
    requires |params| == |oids|
  {
    && |items| == |params|
    && forall i | 0 <= i < |params| ::
         match params[i]
         case None => items[i].None?
         case Some(value) => items[i].Some? && I64FromBinary(oids[i], items[i].value) == Done(value.v)
  }

  lemma ItemYielded(p: Param, oid: nat, rest: seq<Octet>)
    requires Encodable(p, oid)
    ensures NextItem(Item(p, oid) + rest).1 == rest
    ensures match p
            case None => NextItem(Item(p, oid) + rest).0 == Some(None)
            case Some(value) =>
              && NextItem(Item(p, oid) + rest).0 == Some(Some(Twos(value.v, Width(oid))))
              && I64FromBinary(oid, Twos(value.v, Width(oid))) == Done(value.v)
  {
    assert Pow256(1) == 0x100 && Pow256(2) == 0x1_0000 && Pow256(3) == 0x100_0000 && Pow256(4) == 0x1_0000_0000;
    hide Pow256, Twos, Signed;
    if p.None? {
      TwosRoundTrip(-1, 4);
      assert (Twos(-1, 4) + rest)[..4] == Twos(-1, 4) && (Twos(-1, 4) + rest)[4..] == rest;
    } else {
      TwosRoundTrip(Width(oid), 4);
      TwosRoundTrip(p.value.v, Width(oid));
      LengthFirst(Twos(Width(oid), 4), Twos(p.value.v, Width(oid)), rest);
    }
  }

  /** A non-negative length, that many bytes, and a rest. */
  lemma LengthFirst(len: seq<Octet>, body: seq<Octet>, rest: seq<Octet>)
    requires |len| == 4 && Signed(len) == |body|
    ensures NextItem(len + body + rest) == (Some(Some(body)), rest)
  {
    hide Signed;
    var s := len + body + rest;
    assert s[..4] == len && s[4..] == body + rest;
    assert s[4..][..|body|] == body && s[4..][|body|..] == rest;
  }

  /** Whatever was encoded comes back: as many items, NULLs in their places,
      every value itself. */
  lemma {:induction false} BlockRoundTrip(params: seq<Param>, oids: seq<nat>)
    requires |params| == |oids| && AllEncodable(params, oids)
    ensures Decoded(params, oids, Items(Block(params, oids)))
    decreases params
  {
    if params != [] {
      var rest := Block(params[1..], oids[1..]);
      assert Encodable(params[0], oids[0]);
      assert AllEncodable(params[1..], oids[1..]);
      ItemYielded(params[0], oids[0], rest);
      BlockRoundTrip(params[1..], oids[1..]);
      assert Block(params, oids) == Item(params[0], oids[0]) + rest;
      hide NextItem, Item, I64FromBinary, Twos, Encodable;
      var items := Items(Block(params, oids));
      assert items == [NextItem(Block(params, oids)).0.value] + Items(rest);
      forall i | 0 <= i < |params|
        ensures match params[i]
                case None => items[i].None?
                case Some(value) => items[i].Some? && I64FromBinary(oids[i], items[i].value) == Done(value.v)
      {
        if i > 0 {
          assert params[i] == params[1..][i - 1] && oids[i] == oids[1..][i - 1] && items[i] == Items(rest)[i - 1];
        }
      }
    }
  }

  /** A whole block there and back. */
  method SendAndReceive(params: seq<Param>, oids: seq<nat>) returns (r: Outcome<seq<Option<seq<Octet>>>>)
    requires AllOk(params)
    ensures var n := Pairs(params, oids);
            && (r.Done? <==> AllEncodable(params[..n], oids[..n]))
            && (r.Done? ==> Decoded(params[..n], oids[..n], r.value))
  {
    ghost var n := Pairs(params, oids);
    var buf := new Buffer();
    var encoded := EncodeAll(params, oids, buf);
    if !encoded.Done? {
      return Fail(Error.Encode);
    }
    var iter := new DataRowIter(buf.data);
    var items := Collect(iter);
    BlockRoundTrip(params[..n], oids[..n]);
    assert [] + Block(params[..n], oids[..n]) == Block(params[..n], oids[..n]);
    return Done(items);
  }
}
