/** The extended query messages a client writes, and what a server reads in
    the one that carries parameters. */
module Frontend {
  import opened Protocol
  import opened Codec
  import opened Params

  const NUMERIC: nat := 1700

  /** The code of the format a parameter is sent in: only NUMERIC is text. */
  function PreferredFormat(oid: nat): (code: nat)
    ensures code <= 1
  {
    if oid == NUMERIC then 0 else 1
  }

  function FormatCodes(oids: seq<nat>): seq<Octet> {
    if oids == [] then [] else Twos(PreferredFormat(oids[0]), 2) + FormatCodes(oids[1..])
  }

  function Oids(oids: seq<nat>): seq<Octet> {
    if oids == [] then [] else Twos(oids[0], 4) + Oids(oids[1..])
  }

  function Cstring(s: seq<Octet>): seq<Octet> {
    s + [0]
  }

  function ParsePayload(name: seq<Octet>, query: seq<Octet>, oids: seq<nat>): seq<Octet> {
    Cstring(name) + Cstring(query) + Twos(|oids|, 2) + Oids(oids)
  }

  /** What precedes the parameter values of a Bind message. */
  function BindHead(portal: seq<Octet>, statement: seq<Octet>, oids: seq<nat>, count: nat): seq<Octet> {
    Cstring(portal) + Cstring(statement) + Twos(count, 2) + FormatCodes(oids) + Twos(count, 2)
  }

  /** One result format, binary. */
  const RESULT_FORMAT := Twos(1, 2) + Twos(1, 2)

  lemma {:induction false} FormatCodesSnoc(oids: seq<nat>, oid: nat)
    ensures FormatCodes(oids + [oid]) == FormatCodes(oids) + Twos(PreferredFormat(oid), 2)
  {
    if oids == [] {
      assert oids + [oid] == [oid] && [oid][1..] == [];
    } else {
      assert (oids + [oid])[1..] == oids[1..] + [oid];
      FormatCodesSnoc(oids[1..], oid);
    }
  }

  lemma {:induction false} OidsSnoc(oids: seq<nat>, oid: nat)
    ensures Oids(oids + [oid]) == Oids(oids) + Twos(oid, 4)
  {
    if oids == [] {
      assert oids + [oid] == [oid] && [oid][1..] == [];
    } else {
      assert (oids + [oid])[1..] == oids[1..] + [oid];
      OidsSnoc(oids[1..], oid);
    }
  }

  /** A Parse message. */
  method WriteParse(buf: Buffer, name: seq<Octet>, query: seq<Octet>, oids: seq<nat>)
    modifies buf
    ensures var m := Message(80, ParsePayload(name, query, oids));
            m.Fits() ==> buf.data == old(buf.data) + Frame(m)
  {
    var msg := new MessageBuilder(buf, 80);
    msg.WriteCstr(name);
    msg.WriteCstr(query);
    msg.WriteBytes(Twos(|oids|, 2));
    ghost var head := msg.Payload();
    assert head == Cstring(name) + Cstring(query) + Twos(|oids|, 2);
    WriteOids(msg, oids);
    msg.Finish();
  }

  method WriteOids(msg: MessageBuilder, oids: seq<nat>)
    requires msg.Valid()
    modifies msg.buf
    ensures msg.Valid() && msg.Before() == old(msg.Before()) && msg.Tag() == old(msg.Tag())
    ensures msg.Payload() == old(msg.Payload()) + Oids(oids)
  {
    ghost var head := msg.Payload();
    assert oids[..0] == [] && Oids([]) == [] && head + [] == head;
    hide Oids, Twos;
    for i := 0 to |oids|
      invariant msg.Valid() && msg.Before() == old(msg.Before()) && msg.Tag() == old(msg.Tag())
      invariant msg.Payload() == head + Oids(oids[..i])
    {
      msg.WriteBytes(Twos(oids[i], 4));
      assert oids[..i + 1] == oids[..i] + [oids[i]];
      OidsSnoc(oids[..i], oids[i]);
      Regrouped(head, Oids(oids[..i]), Twos(oids[i], 4));
    }
    assert oids[..|oids|] == oids;
  }

  /** The payload of a Bind message: a format for every target type, and a
      value for every parameter that has one. */
  function BindPayload(portal: seq<Octet>, statement: seq<Octet>, params: seq<Param>, oids: seq<nat>): seq<Octet> {
    var n := Pairs(params, oids);
    BindHead(portal, statement, oids, |params|) + Block(params[..n], oids[..n]) + RESULT_FORMAT
  }

  /** A Bind message. If a parameter does not encode, the message is left
      unfinished at the end of the buffer: its type byte, a zero length and
      what was written so far. */
  method WriteBind(buf: Buffer, portal: seq<Octet>, statement: seq<Octet>, params: seq<Param>, oids: seq<nat>)
    returns (r: Outcome<()>)
    requires AllOk(params)
    modifies buf
    ensures var n := Pairs(params, oids);
            r == if AllEncodable(params[..n], oids[..n]) then Done(()) else Fail(Error.Encode)
    ensures var m := Message(66, BindPayload(portal, statement, params, oids));
            r.Done? && m.Fits() ==> buf.data == old(buf.data) + Frame(m)
    ensures !r.Done? ==> old(buf.data) + [66, 0, 0, 0, 0] + BindHead(portal, statement, oids, |params|) <= buf.data
  {
    hide Block, Encodable, FormatCodes;
    var msg := new MessageBuilder(buf, 66);
    WriteBindHead(msg, portal, statement, oids, |params|);
    ghost var head := BindHead(portal, statement, oids, |params|);
    ghost var n := Pairs(params, oids);
    ghost var block := Block(params[..n], oids[..n]);
    ghost var start := buf.data;
    assert start == old(buf.data) + [66, 0, 0, 0, 0] + head;
    var _ :- EncodeAll(params, oids, buf);
    assert buf.data == start + block;
    DropAppended(start, block, msg.start + 4);
    assert msg.Valid() && msg.Before() == old(buf.data) && msg.Tag() == 66;
    assert msg.Payload() == head + block;
    msg.WriteBytes(Twos(1, 2));
    msg.WriteBytes(Twos(1, 2));
    assert msg.Payload() == head + block + RESULT_FORMAT;
    msg.Finish();
    return Done(());
  }

  lemma DropAppended(data: seq<Octet>, extra: seq<Octet>, k: nat)
    requires k <= |data|
    ensures (data + extra)[k..] == data[k..] + extra
  {
  }

  /** What was written so far is behind what the buffer held. */
  ghost predicate Written(msg: MessageBuilder, before: seq<Octet>, tag: Octet, data: seq<Octet>, payload: seq<Octet>)
    reads msg, msg.buf
  {
    && msg.Valid() && msg.Before() == before && msg.Tag() == tag
    && msg.Payload() == payload && msg.buf.data == data + payload
  }

  method WriteMore(msg: MessageBuilder, bytes: seq<Octet>, ghost before: seq<Octet>, ghost tag: Octet,
                   ghost data: seq<Octet>, ghost payload: seq<Octet>)
    requires Written(msg, before, tag, data, payload)
    modifies msg.buf
    ensures Written(msg, before, tag, data, payload + bytes)
  {
    msg.WriteBytes(bytes);
    assert data + payload + bytes == data + (payload + bytes);
  }

  method WriteBindHead(msg: MessageBuilder, portal: seq<Octet>, statement: seq<Octet>, oids: seq<nat>, count: nat)
    requires msg.Valid() && msg.Payload() == []
    modifies msg.buf
    ensures msg.Valid() && msg.Before() == old(msg.Before()) && msg.Tag() == old(msg.Tag())
    ensures msg.Payload() == BindHead(portal, statement, oids, count)
    ensures msg.buf.data == old(msg.buf.data) + msg.Payload()
  {
    hide Twos, FormatCodes, PreferredFormat;
    ghost var before, tag, data := msg.Before(), msg.Tag(), msg.buf.data;
    msg.WriteCstr(portal);
    msg.WriteCstr(statement);
    ghost var names := Cstring(portal) + Cstring(statement);
    assert Written(msg, before, tag, data, names);
    WriteMore(msg, Twos(count, 2), before, tag, data, names);
    WriteFormats(msg, oids, before, tag, data, names + Twos(count, 2));
    WriteMore(msg, Twos(count, 2), before, tag, data, names + Twos(count, 2) + FormatCodes(oids));
  }

  method WriteFormats(msg: MessageBuilder, oids: seq<nat>, ghost before: seq<Octet>, ghost tag: Octet,
                      ghost data: seq<Octet>, ghost payload: seq<Octet>)
    requires Written(msg, before, tag, data, payload)
    modifies msg.buf
    ensures Written(msg, before, tag, data, payload + FormatCodes(oids))
  {
    hide Written, Twos, PreferredFormat;
    assert oids[..0] == [] && payload + [] == payload;
    for i := 0 to |oids|
      invariant Written(msg, before, tag, data, payload + FormatCodes(oids[..i]))
    {
      WriteMore(msg, Twos(PreferredFormat(oids[i]), 2), before, tag, data, payload + FormatCodes(oids[..i]));
      assert oids[..i + 1] == oids[..i] + [oids[i]];
      FormatCodesSnoc(oids[..i], oids[i]);
      Regrouped(payload, FormatCodes(oids[..i]), Twos(PreferredFormat(oids[i]), 2));
    }
    assert oids[..|oids|] == oids;
  }

  method WriteEmpty(buf: Buffer, tag: Octet)
    modifies buf
    ensures buf.data == old(buf.data) + [tag, 0, 0, 0, 4]
  {
    var msg := new MessageBuilder(buf, tag);
    msg.Finish();
  }

  // -- What the server reads

  /** Up to the first NUL. */
  function ReadCstring(s: seq<Octet>): Option<(seq<Octet>, seq<Octet>)> {
    if s == [] then None
    else if s[0] == 0 then Some(([], s[1..]))
    else
      match ReadCstring(s[1..])
      case None => None
      case Some((text, rest)) => Some(([s[0]] + text, rest))
  }

  function ReadI16(s: seq<Octet>): Option<(int, seq<Octet>)> {
    if |s| < 2 then None else Some((Signed(s[..2]), s[2..]))
  }

  function ReadCodes(s: seq<Octet>, n: nat): Option<(seq<int>, seq<Octet>)> {
    if n == 0 then Some(([], s))
    else
      match ReadI16(s)
      case None => None
      case Some((code, rest)) =>
        match ReadCodes(rest, n - 1)
        case None => None
        case Some((codes, left)) => Some(([code] + codes, left))
  }

  function ReadValues(s: seq<Octet>, n: nat): Option<(seq<Option<seq<Octet>>>, seq<Octet>)> {
    if n == 0 then Some(([], s))
    else
      var (item, rest) := NextItem(s);
      match item
      case None => None
      case Some(value) =>
        match ReadValues(rest, n - 1)
        case None => None
        case Some((values, left)) => Some(([value] + values, left))
  }

  datatype Bound = Bound(portal: seq<Octet>, statement: seq<Octet>, formats: seq<int>,
                         values: seq<Option<seq<Octet>>>, results: seq<Octet>)

  /** The Bind message, section "Message Formats" of the protocol chapter. */
  function ReadBind(payload: seq<Octet>): Option<Bound> {
    match ReadCstring(payload)
    case None => None
    case Some((portal, afterPortal)) =>
      match ReadCstring(afterPortal)
      case None => None
      case Some((statement, afterNames)) => ReadBindValues(portal, statement, afterNames)
  }

  function ReadBindValues(portal: seq<Octet>, statement: seq<Octet>, s: seq<Octet>): Option<Bound> {
    match ReadI16(s)
    case None => None
    case Some((codeCount, afterCount)) =>
      if codeCount < 0 then None
      else
        match ReadCodes(afterCount, codeCount)
        case None => None
        case Some((codes, afterCodes)) => ReadBindItems(portal, statement, codes, afterCodes)
  }

  function ReadBindItems(portal: seq<Octet>, statement: seq<Octet>, codes: seq<int>, s: seq<Octet>): Option<Bound> {
    match ReadI16(s)
    case None => None
    case Some((valueCount, values)) =>
      if valueCount < 0 then None
      else
        match ReadValues(values, valueCount)
        case None => None
        case Some((items, results)) => Some(Bound(portal, statement, codes, items, results))
  }

  lemma {:induction false} CstringRoundTrip(s: seq<Octet>, rest: seq<Octet>)
    requires 0 !in s
    ensures ReadCstring(Cstring(s) + rest) == Some((s, rest))
  {
    var text := Cstring(s) + rest;
    if s == [] {
      assert text == [0] + rest;
    } else {
      assert text[1..] == Cstring(s[1..]) + rest && text[0] == s[0] && s[0] in s;
      assert forall c <- s[1..] :: c in s;
      CstringRoundTrip(s[1..], rest);
      assert [s[0]] + s[1..] == s;
    }
  }

  lemma I16RoundTrip(v: int, rest: seq<Octet>)
    requires InWidth(v, 2)
    ensures ReadI16(Twos(v, 2) + rest) == Some((v, rest))
  {
    hide Twos, Signed;
    TwosRoundTrip(v, 2);
    var s := Twos(v, 2) + rest;
    assert s[..2] == Twos(v, 2) && s[2..] == rest;
  }

  function Formats(oids: seq<nat>): seq<int> {
    seq(|oids|, i requires 0 <= i < |oids| => PreferredFormat(oids[i]))
  }

  lemma SmallCodes()
    ensures forall v | 0 <= v < 0x8000 :: InWidth(v, 2)
  {
    assert Pow256(1) == 0x100 && Pow256(2) == 0x1_0000;
  }

  lemma CodesStep(s: seq<Octet>, n: nat, code: int, rest: seq<Octet>)
    requires n > 0 && ReadI16(s) == Some((code, rest)) && ReadCodes(rest, n - 1).Some?
    ensures ReadCodes(s, n) == Some(([code] + ReadCodes(rest, n - 1).value.0, ReadCodes(rest, n - 1).value.1))
  {
  }

  lemma CodesSplit(oids: seq<nat>, rest: seq<Octet>)
    ensures oids == [] ==> FormatCodes(oids) + rest == rest && Formats(oids) == []
    ensures oids != [] ==>
              && FormatCodes(oids) + rest == Twos(PreferredFormat(oids[0]), 2) + (FormatCodes(oids[1..]) + rest)
              && [PreferredFormat(oids[0]) as int] + Formats(oids[1..]) == Formats(oids)
              && InWidth(PreferredFormat(oids[0]), 2)
  {
    if oids != [] {
      SmallCodes();
      assert FormatCodes(oids) == Twos(PreferredFormat(oids[0]), 2) + FormatCodes(oids[1..]);
      hide FormatCodes, Twos;
      Regrouped(Twos(PreferredFormat(oids[0]), 2), FormatCodes(oids[1..]), rest);
      FormatsHead(oids);
    }
  }

  lemma Regrouped(a: seq<Octet>, b: seq<Octet>, c: seq<Octet>)
    ensures a + b + c == a + (b + c)
  {
  }

  lemma FormatsHead(oids: seq<nat>)
    requires oids != []
    ensures [PreferredFormat(oids[0]) as int] + Formats(oids[1..]) == Formats(oids)
  {
  }

  lemma NoCodes(s: seq<Octet>)
    ensures ReadCodes(s, 0) == Some(([], s)) && ReadValues(s, 0) == Some(([], s))
  {
  }

  lemma {:induction false} CodesRoundTrip(oids: seq<nat>, rest: seq<Octet>)
    ensures ReadCodes(FormatCodes(oids) + rest, |oids|) == Some((Formats(oids), rest))
  {
    hide *;
    CodesSplit(oids, rest);
    if oids == [] {
      NoCodes(rest);
    } else {
      var tail := FormatCodes(oids[1..]) + rest;
      I16RoundTrip(PreferredFormat(oids[0]), tail);
      CodesRoundTrip(oids[1..], rest);
      CodesStep(FormatCodes(oids) + rest, |oids|, PreferredFormat(oids[0]), tail);
    }
  }

  lemma ValuesStep(s: seq<Octet>, n: nat, value: Option<seq<Octet>>, rest: seq<Octet>)
    requires n > 0 && NextItem(s) == (Some(value), rest) && ReadValues(rest, n - 1).Some?
    ensures ReadValues(s, n) == Some(([value] + ReadValues(rest, n - 1).value.0, ReadValues(rest, n - 1).value.1))
  {
    hide NextItem;
  }

  lemma ValuesSplit(params: seq<Param>, oids: seq<nat>, rest: seq<Octet>)
    requires |params| == |oids| && AllEncodable(params, oids)
    ensures params == [] ==> Block(params, oids) + rest == rest && Decoded(params, oids, [])
    ensures params != [] ==>
              && Encodable(params[0], oids[0]) && AllEncodable(params[1..], oids[1..])
              && Block(params, oids) + rest == Item(params[0], oids[0]) + (Block(params[1..], oids[1..]) + rest)
  {
    hide Item, Encodable;
    if params != [] {
      assert Block(params, oids) == Item(params[0], oids[0]) + Block(params[1..], oids[1..]);
      Regrouped(Item(params[0], oids[0]), Block(params[1..], oids[1..]), rest);
    }
  }

  lemma {:induction false} ValuesRoundTrip(params: seq<Param>, oids: seq<nat>, rest: seq<Octet>)
    requires |params| == |oids| && AllEncodable(params, oids)
    ensures var r := ReadValues(Block(params, oids) + rest, |params|);
            r.Some? && r.value.1 == rest && Decoded(params, oids, r.value.0)
    decreases params
  {
    hide *;
    ValuesSplit(params, oids, rest);
    if params == [] {
      NoCodes(rest);
    } else {
      var tail := Block(params[1..], oids[1..]) + rest;
      var s := Item(params[0], oids[0]) + tail;
      ItemYielded(params[0], oids[0], tail);
      ValuesRoundTrip(params[1..], oids[1..], rest);
      var first := NextItem(s).0.value;
      ValuesStep(s, |params|, first, tail);
      ValuesShift(params, oids, first, ReadValues(tail, |params| - 1).value.0);
    }
  }

  lemma ValuesShift(params: seq<Param>, oids: seq<nat>, first: Option<seq<Octet>>, others: seq<Option<seq<Octet>>>)
    requires |params| == |oids| && params != [] && Decoded(params[1..], oids[1..], others)
    requires match params[0]
             case None => first.None?
             case Some(value) => first.Some? && I64FromBinary(oids[0], first.value) == Done(value.v)
    ensures Decoded(params, oids, [first] + others)
  {
    hide I64FromBinary;
    var items := [first] + others;
    forall i | 0 <= i < |params|
      ensures match params[i]
              case None => items[i].None?
              case Some(value) => items[i].Some? && I64FromBinary(oids[i], items[i].value) == Done(value.v)
    {
      if i > 0 {
        assert params[i] == params[1..][i - 1] && oids[i] == oids[1..][i - 1] && items[i] == others[i - 1];
      }
    }
  }

  /** What is written behind the names, as the server cuts it up. */
  lemma BindCut(portal: seq<Octet>, statement: seq<Octet>, params: seq<Param>, oids: seq<nat>)
    requires 0 !in portal && 0 !in statement && |params| < 0x8000
    ensures var n := Pairs(params, oids);
            var counted := Twos(|params|, 2) + (Block(params[..n], oids[..n]) + RESULT_FORMAT);
            ReadBind(BindPayload(portal, statement, params, oids)) ==
            match ReadCodes(FormatCodes(oids) + counted, |params|)
            case None => None
            case Some((codes, afterCodes)) => ReadBindItems(portal, statement, codes, afterCodes)
  {
    hide *;
    var n := Pairs(params, oids);
    var count := Twos(|params|, 2);
    var codes := FormatCodes(oids) + (count + (Block(params[..n], oids[..n]) + RESULT_FORMAT));
    var named := Cstring(statement) + (count + codes);
    SmallCodes();
    I16RoundTrip(|params|, codes);
    CstringRoundTrip(statement, count + codes);
    CstringRoundTrip(portal, named);
    PayloadCut(portal, statement, params, oids);
    BindSteps(Cstring(portal) + named, portal, named, statement, count + codes, |params|, codes);
  }

  lemma PayloadCut(portal: seq<Octet>, statement: seq<Octet>, params: seq<Param>, oids: seq<nat>)
    ensures var n := Pairs(params, oids);
            var count := Twos(|params|, 2);
            var codes := FormatCodes(oids) + (count + (Block(params[..n], oids[..n]) + RESULT_FORMAT));
            BindPayload(portal, statement, params, oids) == Cstring(portal) + (Cstring(statement) + (count + codes))
  {
    hide Cstring, Twos, FormatCodes, Block;
    var n := Pairs(params, oids);
    Regroup(Cstring(portal), Cstring(statement), Twos(|params|, 2), FormatCodes(oids), Twos(|params|, 2),
            Block(params[..n], oids[..n]), RESULT_FORMAT);
  }

  lemma Regroup(a: seq<Octet>, b: seq<Octet>, c: seq<Octet>, d: seq<Octet>, e: seq<Octet>, f: seq<Octet>,
                g: seq<Octet>)
    ensures a + b + c + d + e + f + g == a + (b + (c + (d + (e + (f + g)))))
  {
    Regrouped(a + b + c + d + e, f, g);
    Regrouped(a + b + c + d, e, f + g);
    Regrouped(a + b + c, d, e + (f + g));
    Regrouped(a + b, c, d + (e + (f + g)));
    Regrouped(a, b, c + (d + (e + (f + g))));
  }

  lemma BindSteps(payload: seq<Octet>, portal: seq<Octet>, named: seq<Octet>, statement: seq<Octet>, s: seq<Octet>,
                  n: nat, codes: seq<Octet>)
    requires ReadCstring(payload) == Some((portal, named)) && ReadCstring(named) == Some((statement, s))
    requires ReadI16(s) == Some((n, codes))
    ensures ReadBind(payload) ==
            match ReadCodes(codes, n)
            case None => None
            case Some((codes, afterCodes)) => ReadBindItems(portal, statement, codes, afterCodes)
  {
    hide ReadCstring, ReadI16, ReadCodes, ReadBindItems;
  }

  lemma OneBinaryResult()
    ensures RESULT_FORMAT == [0, 1, 0, 1]
  {
    Powers();
    TwosHigh(1, 2);
    hide Twos;
    assert Twos(1, 2)[0] == 0 && Twos(1, 2)[1] == 1;
  }

  /** A server reads from a Bind message the names, one format for each
      parameter, and the parameters themselves, if there is one target type for
      each parameter. */
  lemma BindRoundTrip(portal: seq<Octet>, statement: seq<Octet>, params: seq<Param>, oids: seq<nat>)
    requires 0 !in portal && 0 !in statement
    requires |params| == |oids| < 0x8000 && AllEncodable(params, oids)
    ensures var b := ReadBind(BindPayload(portal, statement, params, oids));
            && b.Some? && b.value.portal == portal && b.value.statement == statement
            && |b.value.formats| == |oids|
            && (forall i | 0 <= i < |oids| :: b.value.formats[i] == if oids[i] == 1700 then 0 else 1)
            && b.value.results == [0, 1, 0, 1] && Decoded(params, oids, b.value.values)
  {
    assert Formats(oids) == seq(|oids|, i requires 0 <= i < |oids| => if oids[i] == 1700 then 0 else 1);
    OneBinaryResult();
    hide Block, FormatCodes, Twos, ReadI16, ReadCodes, ReadValues, ReadBind, Decoded, Encodable, InWidth, BindPayload;
    assert params[..|params|] == params && oids[..|oids|] == oids;
    var values := Block(params, oids) + RESULT_FORMAT;
    BindCut(portal, statement, params, oids);
    SmallCodes();
    ValuesRoundTrip(params, oids, RESULT_FORMAT);
    I16RoundTrip(|params|, values);
    CodesRoundTrip(oids, Twos(|params|, 2) + values);
  }

  /** With fewer parameters than target types it does not: where the number of
      values should be, it reads the next format, and no more values than that
      says. */
  lemma BindTooFew(portal: seq<Octet>, statement: seq<Octet>, params: seq<Param>, oids: seq<nat>)
    requires 0 !in portal && 0 !in statement && |params| < 0x8000 && |params| < |oids|
    ensures var b := ReadBind(BindPayload(portal, statement, params, oids));
            b.Some? ==>
              && b.value.formats == Formats(oids[..|params|])
              && |b.value.values| == if oids[|params|] == 1700 then 0 else 1
  {
    hide Block, FormatCodes, Twos, ReadI16, ReadCodes, ReadValues, ReadBind, BindPayload, Formats;
    BindCut(portal, statement, params, oids);
    var k := |params|;
    var counted := Twos(k, 2) + (Block(params[..k], oids[..k]) + RESULT_FORMAT);
    var next := FormatCodes(oids[k + 1..]) + counted;
    CodesAt(oids, k, counted);
    CodesRoundTrip(oids[..k], Twos(PreferredFormat(oids[k]), 2) + next);
    SmallCodes();
    I16RoundTrip(PreferredFormat(oids[k]), next);
    ValuesCounted(next, PreferredFormat(oids[k]));
  }

  /** Nor with more parameters than target types: it takes the number of the
      values for a format. */
  lemma BindTooMany(portal: seq<Octet>, statement: seq<Octet>, params: seq<Param>, oids: seq<nat>)
    requires 0 !in portal && 0 !in statement && |oids| < |params| < 0x8000
    ensures var b := ReadBind(BindPayload(portal, statement, params, oids));
            b.Some? ==>
              && |b.value.formats| == |params| && b.value.formats[..|oids|] == Formats(oids)
              && b.value.formats[|oids|] == |params|
  {
    hide Block, FormatCodes, Twos, ReadI16, ReadValues, ReadBind, BindPayload, PreferredFormat;
    BindCut(portal, statement, params, oids);
    var k := |oids|;
    var values := Block(params[..k], oids[..k]) + RESULT_FORMAT;
    SmallCodes();
    I16RoundTrip(|params|, values);
    CodesThen(oids, Twos(|params|, 2) + values, |params| - k);
    CodesCounted(FormatCodes(oids) + (Twos(|params|, 2) + values), |params|);
  }

  lemma {:induction false} CodesAt(oids: seq<nat>, k: nat, rest: seq<Octet>)
    requires k < |oids|
    ensures FormatCodes(oids) + rest ==
            FormatCodes(oids[..k]) + (Twos(PreferredFormat(oids[k]), 2) + (FormatCodes(oids[k + 1..]) + rest))
    decreases k
  {
    hide Twos, PreferredFormat, Formats;
    CodesSplit(oids, rest);
    if k == 0 {
      CodesSplit(oids[..0], Twos(PreferredFormat(oids[0]), 2) + (FormatCodes(oids[1..]) + rest));
    } else {
      var tail := Twos(PreferredFormat(oids[k]), 2) + (FormatCodes(oids[k + 1..]) + rest);
      CodesAt(oids[1..], k - 1, rest);
      CodesSplit(oids[..k], tail);
      assert oids[..k][1..] == oids[1..][..k - 1] && oids[1..][k..] == oids[k + 1..];
    }
  }

  /** Behind the formats, more of them. */
  lemma {:induction false} CodesThen(oids: seq<nat>, rest: seq<Octet>, k: nat)
    ensures match ReadCodes(rest, k)
            case None => ReadCodes(FormatCodes(oids) + rest, |oids| + k).None?
            case Some((codes, left)) =>
              ReadCodes(FormatCodes(oids) + rest, |oids| + k) == Some((Formats(oids) + codes, left))
    decreases oids
  {
    hide Twos, ReadI16, FormatCodes, Formats;
    CodesSplit(oids, rest);
    SmallCodes();
    if oids == [] {
      if ReadCodes(rest, k).Some? {
        assert [] + ReadCodes(rest, k).value.0 == ReadCodes(rest, k).value.0;
      }
    } else {
      I16RoundTrip(PreferredFormat(oids[0]), FormatCodes(oids[1..]) + rest);
      CodesThen(oids[1..], rest, k);
      if ReadCodes(rest, k).Some? {
        var codes := ReadCodes(rest, k).value.0;
        assert [PreferredFormat(oids[0]) as int] + (Formats(oids[1..]) + codes) == Formats(oids) + codes;
      }
    }
  }

  lemma {:induction false} CodesCounted(s: seq<Octet>, n: nat)
    ensures ReadCodes(s, n).Some? ==> |ReadCodes(s, n).value.0| == n
    decreases n
  {
    if n > 0 && ReadI16(s).Some? {
      CodesCounted(ReadI16(s).value.1, n - 1);
    }
  }

  lemma {:induction false} ValuesCounted(s: seq<Octet>, n: nat)
    ensures ReadValues(s, n).Some? ==> |ReadValues(s, n).value.0| == n
    decreases n
  {
    hide NextItem;
    if n > 0 {
      ValuesCounted(NextItem(s).1, n - 1);
    }
  }

  // -- The message that carries a statement

  function ReadOids(s: seq<Octet>, n: nat): Option<(seq<nat>, seq<Octet>)> {
    if n == 0 then Some(([], s))
    else if |s| < 4 then None
    else
      match ReadOids(s[4..], n - 1)
      case None => None
      case Some((oids, left)) => Some(([Unsigned(s[..4])] + oids, left))
  }

  datatype Parsing = Parsing(name: seq<Octet>, query: seq<Octet>, oids: seq<nat>)

  /** The Parse message, section "Message Formats" of the protocol chapter. */
  function ReadParse(payload: seq<Octet>): Option<Parsing> {
    match ReadCstring(payload)
    case None => None
    case Some((name, afterName)) =>
      match ReadCstring(afterName)
      case None => None
      case Some((query, afterQuery)) => ReadParameterTypes(name, query, afterQuery)
  }

  function ReadParameterTypes(name: seq<Octet>, query: seq<Octet>, s: seq<Octet>): Option<Parsing> {
    match ReadI16(s)
    case None => None
    case Some((count, rest)) =>
      if count < 0 then None
      else
        match ReadOids(rest, count)
        case Some((oids, left)) => if left == [] then Some(Parsing(name, query, oids)) else None
        case None => None
  }

  predicate AllOids(oids: seq<nat>) {
    forall oid <- oids :: oid < TWO_TO_THE_32
  }

  lemma FourBytes()
    ensures Pow256(4) == TWO_TO_THE_32
  {
    assert Pow256(1) == 0x100 && Pow256(2) == 0x1_0000;
  }

  lemma OidRoundTrip(oid: nat)
    requires oid < TWO_TO_THE_32
    ensures Unsigned(Twos(oid, 4)) == oid
  {
    FourBytes();
    hide Params.Bytes, Unsigned, Pow256;
    SmallMod(oid, Pow256(4));
    BytesRoundTrip(oid, 4);
  }

  lemma SmallMod(v: nat, p: nat)
    requires v < p
    ensures v % p == v
  {
  }

  lemma {:induction false} OidsRoundTrip(oids: seq<nat>)
    requires AllOids(oids)
    ensures ReadOids(Oids(oids), |oids|) == Some((oids, []))
  {
    if oids != [] {
      assert oids[0] in oids && forall oid <- oids[1..] :: oid in oids;
      OidRoundTrip(oids[0]);
      OidsRoundTrip(oids[1..]);
      hide Twos, Unsigned;
      var s := Oids(oids);
      assert s == Twos(oids[0], 4) + Oids(oids[1..]);
      assert s[..4] == Twos(oids[0], 4) && s[4..] == Oids(oids[1..]);
      assert [oids[0]] + oids[1..] == oids;
    }
  }

  /** A server reads from a Parse message the statement's name, its text and
      its parameter types. */
  lemma ParseRoundTrip(name: seq<Octet>, query: seq<Octet>, oids: seq<nat>)
    requires 0 !in name && 0 !in query && |oids| < 0x8000 && AllOids(oids)
    ensures ReadParse(ParsePayload(name, query, oids)) == Some(Parsing(name, query, oids))
  {
    hide Oids, Cstring, Twos, ReadI16, ReadOids, ReadCstring, InWidth;
    var types := Twos(|oids|, 2) + Oids(oids);
    SmallCodes();
    OidsRoundTrip(oids);
    I16RoundTrip(|oids|, Oids(oids));
    CstringRoundTrip(query, types);
    CstringRoundTrip(name, Cstring(query) + types);
    assert ParsePayload(name, query, oids) == Cstring(name) + (Cstring(query) + types);
  }
}
