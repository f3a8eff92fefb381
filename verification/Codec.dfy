/** Message framing: a type byte, a length patched in afterwards, a payload. */
module Codec {
  import opened Protocol

  const TWO_TO_THE_32 := 0x1_0000_0000

  /** A four-byte big-endian unsigned integer. */
  function BigEndian(v: nat): (b: seq<Octet>)
    requires v < TWO_TO_THE_32
    ensures |b| == 4 && v == ((b[0] as int * 256 + b[1]) * 256 + b[2]) * 256 + b[3]
  {
    SecondByte(v);
    ThirdByte(v);
    [v / 0x100_0000, v / 0x1_0000 % 0x100, v / 0x100 % 0x100, v % 0x100]
  }

  function FromBigEndian(b: seq<Octet>): (v: nat)
    requires |b| == 4
    ensures v < TWO_TO_THE_32
  {
    b[0] as int * 0x100_0000 + b[1] as int * 0x1_0000 + b[2] as int * 0x100 + b[3]
  }

  lemma BigEndianRoundTrip(v: nat)
    requires v < TWO_TO_THE_32
    ensures FromBigEndian(BigEndian(v)) == v
  {
    SecondByte(v);
    ThirdByte(v);
  }

  lemma SecondByte(v: nat)
    ensures v / 0x100 == v / 0x1_0000 * 0x100 + v / 0x100 % 0x100
  {
    var a := v / 0x100;
    assert v == 0x1_0000 * (a / 0x100) + (0x100 * (a % 0x100) + v % 0x100);
  }

  lemma ThirdByte(v: nat)
    ensures v / 0x1_0000 == v / 0x100_0000 * 0x100 + v / 0x1_0000 % 0x100
  {
    var a := v / 0x1_0000;
    assert v == 0x100_0000 * (a / 0x100) + (0x1_0000 * (a % 0x100) + v % 0x1_0000);
  }

  datatype Message = Message(tag: Octet, payload: seq<Octet>) {
    /** Its length field can hold its length. */
    predicate Fits() {
      |payload| + 4 < TWO_TO_THE_32
    }
  }

  predicate AllFit(ms: seq<Message>) {
    forall m <- ms :: m.Fits()
  }

  // -- The format, as a plain reader sees it

  datatype Parsed = Short | Parsed(message: Message, rest: seq<Octet>)

  /** The first message of a stream, or nothing if the stream is too short. A
      length field below four means an empty payload. */
  function Parse(s: seq<Octet>): Parsed {
    if |s| < 5 then Short
    else
      var length := FromBigEndian(s[1..5]);
      var payloadLen := if length < 4 then 0 else length - 4;
      if |s| - 5 < payloadLen then Short
      else Parsed(Message(s[0], s[5..5 + payloadLen]), s[5 + payloadLen..])
  }

  lemma ParseShrinks(s: seq<Octet>)
    ensures Parse(s).Parsed? ==> |Parse(s).rest| < |s|
  {
  }

  /** All messages of a stream and what is left when it is too short for one. */
  function ParseAll(s: seq<Octet>): (seq<Message>, seq<Octet>)
    decreases |s|
  {
    match Parse(s)
    case Short => ([], s)
    case Parsed(m, rest) =>
      ParseShrinks(s);
      var (ms, left) := ParseAll(rest);
      ([m] + ms, left)
  }

  function Frame(m: Message): seq<Octet>
    requires m.Fits()
  {
    [m.tag] + BigEndian(|m.payload| + 4) + m.payload
  }

  function Frames(ms: seq<Message>): seq<Octet>
    requires AllFit(ms)
  {
    if ms == [] then [] else Frame(ms[0]) + Frames(ms[1..])
  }

  lemma FrameParses(m: Message, rest: seq<Octet>)
    requires m.Fits()
    ensures Parse(Frame(m) + rest) == Parsed(m, rest)
  {
    var s := Frame(m) + rest;
    assert s[1..5] == BigEndian(|m.payload| + 4);
    BigEndianRoundTrip(|m.payload| + 4);
  }

  /** Whatever was framed is read back: the same messages, nothing left over. */
  lemma {:induction false} FramingRoundTrip(ms: seq<Message>)
    requires AllFit(ms)
    ensures ParseAll(Frames(ms)) == (ms, [])
  {
    if ms != [] {
      assert ms[0] in ms && forall m <- ms[1..] :: m in ms;
      FrameParses(ms[0], Frames(ms[1..]));
      FramingRoundTrip(ms[1..]);
      hide Frame, Parse;
      assert Frames(ms) == Frame(ms[0]) + Frames(ms[1..]);
      assert ParseAll(Frames(ms)).0 == [ms[0]] + ms[1..] == ms;
    }
  }

  lemma FramesUnfold(ms: seq<Message>)
    requires AllFit(ms)
    ensures ms == [] ==> Frames(ms) == []
    ensures ms != [] ==> ms[0].Fits() && AllFit(ms[1..]) && Frames(ms) == Frame(ms[0]) + Frames(ms[1..])
  {
  }

  lemma AllFitConcat(a: seq<Message>, b: seq<Message>)
    requires AllFit(a) && AllFit(b)
    ensures AllFit(a + b)
  {
  }

  lemma FitsAlone(m: Message)
    requires m.Fits()
    ensures AllFit([m]) && Frames([m]) == Frame(m)
  {
    assert [m][1..] == [] && Frame(m) + [] == Frame(m);
  }

  lemma {:induction false} FramesSnoc(ms: seq<Message>, m: Message)
    requires AllFit(ms) && m.Fits()
    ensures AllFit(ms + [m]) && Frames(ms + [m]) == Frames(ms) + Frame(m)
  {
    hide *;
    FitsAlone(m);
    AllFitConcat(ms, [m]);
    FramesUnfold(ms);
    if ms == [] {
      assert ms + [m] == [m];
    } else {
      FramesUnfold(ms + [m]);
      assert (ms + [m])[1..] == ms[1..] + [m];
      FramesSnoc(ms[1..], m);
    }
  }

  lemma FrameIs(before: seq<Octet>, m: Message)
    ensures m.Fits() ==>
              before + [m.tag] + BigEndian((|m.payload| + 4) % TWO_TO_THE_32) + m.payload == before + Frame(m)
  {
    if m.Fits() {
      SmallLength(|m.payload| + 4);
      hide BigEndian;
      var b := BigEndian(|m.payload| + 4);
      assert before + [m.tag] + b + m.payload == before + ([m.tag] + b + m.payload);
    }
  }

  lemma SmallLength(v: nat)
    requires v < TWO_TO_THE_32
    ensures v % TWO_TO_THE_32 == v
  {
  }

  // -- Writing

  /** A growable output buffer. */
  class Buffer {
    var data: seq<Octet>

    constructor ()
      ensures data == []
    {
      data := [];
    }
  }

  /** Builds one message at the end of a buffer. */
  class MessageBuilder {
    const buf: Buffer
    const start: nat

    ghost predicate Valid()
      reads buf
    {
      0 < start <= |buf.data| - 4
    }

    /** What is in the buffer before this message. */
    ghost function Before(): seq<Octet>
      requires Valid()
      reads buf
    {
      buf.data[..start - 1]
    }

    ghost function Tag(): Octet
      requires Valid()
      reads buf
    {
      buf.data[start - 1]
    }

    ghost function Payload(): seq<Octet>
      requires Valid()
      reads buf
    {
      buf.data[start + 4..]
    }

    constructor (buf: Buffer, typeByte: Octet)
      modifies buf
      ensures this.buf == buf && Valid()
      ensures Before() == old(buf.data) && Tag() == typeByte && Payload() == []
      ensures buf.data == old(buf.data) + [typeByte, 0, 0, 0, 0]
    {
      this.buf := buf;
      this.start := |buf.data| + 1;
      new;
      buf.data := buf.data + [typeByte];
      buf.data := buf.data + [0, 0, 0, 0];
    }

    method WriteBytes(bytes: seq<Octet>)
      requires Valid()
      modifies buf
      ensures Valid() && Before() == old(Before()) && Tag() == old(Tag())
      ensures Payload() == old(Payload()) + bytes && buf.data == old(buf.data) + bytes
    {
      buf.data := buf.data + bytes;
    }

    /** A string and its terminator. */
    method WriteCstr(s: seq<Octet>)
      requires Valid()
      modifies buf
      ensures Valid() && Before() == old(Before()) && Tag() == old(Tag())
      ensures Payload() == old(Payload()) + s + [0] && buf.data == old(buf.data) + s + [0]
    {
      buf.data := buf.data + s;
      buf.data := buf.data + [0];
    }

    /** Patch the length in. Nothing before the message changes; a length
        beyond 32 bits wraps around. */
    method Finish()
      requires Valid()
      modifies buf
      ensures Valid() && Before() == old(Before()) && Tag() == old(Tag()) && Payload() == old(Payload())
      ensures buf.data == old(Before() + [Tag()] + BigEndian((|Payload()| + 4) % TWO_TO_THE_32) + Payload())
      ensures var m := old(Message(Tag(), Payload()));
              m.Fits() ==> buf.data == old(Before()) + Frame(m)
    {
      ghost var before, tag, payload := Before(), Tag(), Payload();
      FrameIs(before, Message(tag, payload));
      hide BigEndian, FromBigEndian, Frame, Message.Fits;
      var len := (|buf.data| - start) % TWO_TO_THE_32;
      buf.data := buf.data[..start] + BigEndian(len) + buf.data[start + 4..];
      assert old(buf.data[..start]) == old(Before() + [Tag()]);
    }
  }

  method WriteMessage(buf: Buffer, m: Message)
    requires m.Fits()
    modifies buf
    ensures buf.data == old(buf.data) + Frame(m)
  {
    var builder := new MessageBuilder(buf, m.tag);
    builder.WriteBytes(m.payload);
    builder.Finish();
  }

  /** Any sequence of messages, one after the other. */
  method WriteMessages(ms: seq<Message>) returns (buf: Buffer)
    requires AllFit(ms)
    ensures buf.data == Frames(ms) && ParseAll(buf.data) == (ms, [])
  {
    buf := new Buffer();
    assert ms[..0] == [];
    for i := 0 to |ms|
      invariant AllFit(ms[..i]) && buf.data == Frames(ms[..i])
    {
      assert ms[i] in ms && ms[..i + 1] == ms[..i] + [ms[i]];
      WriteMessage(buf, ms[i]);
      FramesSnoc(ms[..i], ms[i]);
    }
    assert ms[..|ms|] == ms;
    FramingRoundTrip(ms);
  }
}
