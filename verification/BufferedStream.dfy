/** Two readers of one byte stream: a plain one, and one that keeps a buffer
    and compacts it in place. */
module BufferedStreams {
  import opened Protocol
  import opened Codec

  const READ_BUF_CAPACITY := 8192

  /** One read of a socket yields some of the bytes that are there, or fails,
      or is cancelled before it yields anything. */
  datatype Gift = Part(more: nat) | Broken | Cancelled

  class Socket {
    const gifts: nat -> Gift
    var pending: seq<Octet>
    var attempts: nat

    constructor (gifts: nat -> Gift, pending: seq<Octet>)
      ensures this.gifts == gifts && this.pending == pending
    {
      this.gifts, this.pending, this.attempts := gifts, pending, 0;
    }

    /** No read fails. */
    ghost predicate Steady() {
      forall k :: gifts(k).Part?
    }

    /** Read at most `room` bytes; none means the end of the stream. */
    method Read(room: nat) returns (r: Outcome<seq<Octet>>)
      modifies this
      ensures r.Done? ==> |r.value| <= room && old(pending) == r.value + pending
      ensures r.Done? ==> (r.value == [] <==> room == 0 || old(pending) == [])
      ensures !r.Done? ==> (r == Fail(Io) || r == Dropped) && pending == old(pending)
      ensures Steady() ==> r.Done?
    {
      var gift := gifts(attempts);
      attempts := attempts + 1;
      if !gift.Part? {
        return if gift.Broken? then Fail(Io) else Dropped;
      }
      var n := gift.more + 1;
      n := if n > room then room else n;
      n := if n > |pending| then |pending| else n;
      r := Done(pending[..n]);
      pending := pending[n..];
    }

    /** Read until `n` bytes are there. */
    method ReadExact(n: nat) returns (r: Outcome<seq<Octet>>)
      modifies this
      ensures r.Done? ==> |r.value| == n && old(pending) == r.value + pending
      ensures r.Fail? ==> r.error == Io
      ensures Steady() ==> !r.Dropped? && (r.Done? <==> n <= |old(pending)|)
    {
      var got: seq<Octet> := [];
      while |got| < n
        invariant |got| <= n && old(pending) == got + pending
        decreases n - |got|
      {
        var more :- Read(n - |got|);
        if more == [] {
          return Fail(Io);
        }
        assert got + (more + pending) == got + more + pending;
        got := got + more;
      }
      return Done(got);
    }
  }

  lemma TooShort(s: seq<Octet>)
    ensures |s| < 5 ==> Parse(s) == Short
  {
  }

  /** Parsing, once the header is split off. */
  lemma HeaderFirst(header: seq<Octet>, rest: seq<Octet>)
    requires |header| == 5
    ensures var length := FromBigEndian(header[1..5]);
            var payloadLen := if length < 4 then 0 else length - 4;
            Parse(header + rest) ==
            if |rest| < payloadLen then Short
            else Parsed(Message(header[0], rest[..payloadLen]), rest[payloadLen..])
  {
    var s := header + rest;
    assert s[1..5] == header[1..5];
    var length := FromBigEndian(header[1..5]);
    var payloadLen := if length < 4 then 0 else length - 4;
    if |rest| >= payloadLen {
      assert s[5..5 + payloadLen] == rest[..payloadLen] && s[5 + payloadLen..] == rest[payloadLen..];
    }
  }

  lemma Regrouped(a: seq<Octet>, b: seq<Octet>, c: seq<Octet>)
    ensures a + b + c == a + (b + c)
    ensures a + ([] + c) == a + c
  {
    assert [] + c == c;
  }

  /** Where a message is delivered. */
  class BufferSet {
    var typeByte: Octet
    var readBuffer: seq<Octet>

    constructor ()
    {
      typeByte, readBuffer := 0, [];
    }

    function Delivered(): Message
      reads this
    {
      Message(typeByte, readBuffer)
    }
  }

  /** What a reader with `s` ahead of it must do: deliver the first message and
      leave the rest, or fail if there is no whole message, or the socket
      fails. */
  ghost predicate ReadsMessage(s: seq<Octet>, r: Outcome<()>, delivered: Message, left: seq<Octet>, steady: bool) {
    && (r.Done? ==> Parse(s) == Parsed(delivered, left))
    && (r.Fail? ==> r.error == Io)
    && (steady ==> !r.Dropped? && (r.Done? <==> Parse(s).Parsed?))
  }

  lemma Joined(s: seq<Octet>, first: seq<Octet>, lengthBytes: seq<Octet>, rest: seq<Octet>)
    requires |first| == 1 && |lengthBytes| == 4 && s == first + (lengthBytes + rest)
    ensures s == first + lengthBytes + rest
    ensures (first + lengthBytes)[1..5] == lengthBytes && (first + lengthBytes)[0] == first[0]
  {
  }

  lemma Divided(s: seq<Octet>, a: seq<Octet>, b: seq<Octet>)
    requires s == a + b
    ensures s[..|a|] == a && s[|a|..] == b
  {
  }

  /** The plain reader: three reads for a message. */
  class PlainStream {
    const socket: Socket

    constructor (socket: Socket)
      ensures this.socket == socket
    {
      this.socket := socket;
    }

    ghost function Ahead(): seq<Octet>
      reads socket
    {
      socket.pending
    }

    method ReadMessage(bufferSet: BufferSet) returns (r: Outcome<()>)
      modifies socket, bufferSet
      ensures ReadsMessage(old(Ahead()), r, bufferSet.Delivered(), Ahead(), socket.Steady())
    {
      hide Parse, FromBigEndian;
      ghost var s := socket.pending;
      TooShort(s);
      var typeByte :- socket.Read(1);
      if typeByte == [] {
        return Fail(Io);
      }
      bufferSet.typeByte := typeByte[0];
      var lengthBytes :- socket.ReadExact(4);
      ghost var rest := socket.pending;
      Joined(s, typeByte, lengthBytes, rest);
      HeaderFirst(typeByte + lengthBytes, rest);
      var length := FromBigEndian(lengthBytes);
      var payloadLen := if length < 4 then 0 else length - 4;
      var payload :- socket.ReadExact(payloadLen);
      Divided(rest, payload, socket.pending);
      bufferSet.readBuffer := payload;
      return Done(());
    }
  }

  /** The buffering reader. The buffer holds `len` bytes, those before
      `readPos` consumed. */
  class BufferedStream {
    const socket: Socket
    const readBuf: array<Octet>
    var len: nat
    var readPos: nat
    var lost: bool    // what is left in the buffer's place has no capacity
    ghost const original: seq<Octet>
    ghost var consumed: seq<Octet>

    function Buffered(): seq<Octet>
      requires readPos <= len <= readBuf.Length
      reads this, readBuf
    {
      readBuf[readPos..len]
    }

    ghost predicate InBounds()
      reads this
    {
      && readPos <= len <= readBuf.Length && readBuf.Length >= READ_BUF_CAPACITY
      && (lost ==> len == readPos == 0)
    }

    ghost function Ahead(): seq<Octet>
      requires InBounds()
      reads this, readBuf, socket
    {
      Buffered() + socket.pending
    }

    /** Consumed, buffered and unread bytes always form the original stream. */
    ghost predicate Valid(): (valid: bool)
      reads this, readBuf, socket
      ensures valid ==> InBounds()
    {
      InBounds() && !lost && consumed + Ahead() == original
    }

    constructor (socket: Socket)
      ensures this.socket == socket && Valid() && Ahead() == socket.pending && consumed == []
      ensures fresh(readBuf)
    {
      this.socket := socket;
      readBuf := new Octet[READ_BUF_CAPACITY](_ => 0);
      len, readPos, lost := 0, 0, false;
      original, consumed := socket.pending, [];
    }

    function Capacity(): nat
      reads this
    {
      if lost then 0 else readBuf.Length
    }

    function Available(): nat
      requires readPos <= len
      reads this
    {
      len - readPos
    }

    /** Move the unconsumed bytes to the front, in place. */
    method Compact()
      requires InBounds()
      modifies this`len, this`readPos, readBuf
      ensures InBounds() && readPos == 0 && Buffered() == old(Buffered()) && Available() == old(Available())
    {
      if readPos > 0 {
        var valid := Available();
        CopyWithin(readPos, valid);
        len := valid;
        readPos := 0;
      }
    }

    /** The bytes from `from` on, `count` of them, moved to the front. */
    method CopyWithin(from: nat, count: nat)
      requires from + count <= readBuf.Length
      modifies readBuf
      ensures readBuf[..count] == old(readBuf[from..from + count])
    {
      ghost var was := readBuf[..];
      for i := 0 to count
        invariant forall j | 0 <= j < i :: readBuf[j] == was[from..][j]
        invariant forall j | from + i <= j < readBuf.Length :: readBuf[j] == was[j]
      {
        readBuf[i] := readBuf[from + i];
      }
      assert was[from..][..count] == was[from..from + count];
    }

    /** Read once more, behind what is there. The read owns the buffer while it
        waits: cancelled, it takes the unconsumed bytes with it, and from then
        on there is no room to read into. */
    method FillBuf() returns (r: Outcome<()>)
      requires lost || Valid()
      requires InBounds() && (!lost ==> Available() < readBuf.Length)
      modifies this`len, this`readPos, this`lost, readBuf, socket
      ensures InBounds() && (lost <==> old(lost) || r.Dropped?)
      ensures !lost ==> Valid() && Ahead() == old(Ahead())
      ensures r.Done? ==> !lost && Available() > old(Available())
      ensures r.Fail? ==> r == Fail(Io) && Available() == old(Available())
      ensures r.Dropped? ==> Available() == 0
      ensures socket.Steady() ==> !r.Dropped? && (r.Fail? && !lost ==> socket.pending == [])
    {
      hide Buffered;
      Compact();
      ghost var before := Buffered();
      var read := socket.Read(Capacity() - len);
      if read.Dropped? {
        len, readPos, lost := 0, 0, true;
        return Dropped;
      }
      var bytes :- read;
      if bytes == [] {
        Regrouped(before, bytes, socket.pending);
        return Fail(Io);
      }
      Append(bytes);
      Regrouped(before, bytes, socket.pending);
      return Done(());
    }

    /** What a read puts behind the buffered bytes. */
    method Append(bytes: seq<Octet>)
      requires InBounds() && !lost && readPos == 0 && len + |bytes| <= readBuf.Length
      modifies this`len, readBuf
      ensures InBounds() && Buffered() == old(Buffered()) + bytes
      ensures Available() == old(Available()) + |bytes|
    {
      forall i | 0 <= i < |bytes| {
        readBuf[len + i] := bytes[i];
      }
      len := len + |bytes|;
    }

    /** At least `n` bytes in the buffer: every round shrinks the shortfall. */
    method Ensure(n: nat) returns (r: Outcome<()>)
      requires InBounds() && (lost || Valid()) && n <= READ_BUF_CAPACITY
      modifies this`len, this`readPos, this`lost, readBuf, socket
      ensures InBounds() && (lost <==> old(lost) || r.Dropped?)
      ensures !lost ==> Valid() && Ahead() == old(Ahead())
      ensures r.Done? ==> Available() >= n
      ensures r.Fail? ==> r == Fail(Io)
      ensures socket.Steady() ==> !r.Dropped? && (!lost ==> (r.Done? <==> n <= |Ahead()|))
    {
      while Available() < n
        invariant InBounds() && lost == old(lost) && (!lost ==> Valid() && Ahead() == old(Ahead()))
        decreases n - Available()
      {
        var _ :- FillBuf();
      }
      return Done(());
    }

    /** Consume `n` buffered bytes. */
    method Take(n: nat) returns (bytes: seq<Octet>)
      requires Valid() && n <= Available()
      modifies this`readPos, this`consumed
      ensures Valid() && |bytes| == n && old(Ahead()) == bytes + Ahead()
      ensures Available() == old(Available()) - n
    {
      bytes := readBuf[readPos..readPos + n];
      assert Buffered() == bytes + readBuf[readPos + n..len];
      readPos := readPos + n;
      consumed := consumed + bytes;
    }

    /** Consume `n` bytes straight from the socket, past an empty buffer. */
    method TakeDirectly(n: nat) returns (r: Outcome<seq<Octet>>)
      requires Valid() && Available() == 0
      modifies this`consumed, socket
      ensures InBounds() && Available() == 0 && (r.Done? ==> Valid())
      ensures r.Done? ==> |r.value| == n && old(Ahead()) == r.value + Ahead()
      ensures r.Fail? ==> r == Fail(Io)
      ensures socket.Steady() ==> !r.Dropped? && (r.Done? <==> n <= |old(Ahead())|)
    {
      assert Ahead() == socket.pending;
      var rest :- socket.ReadExact(n);
      consumed := consumed + rest;
      assert Ahead() == socket.pending;
      return Done(rest);
    }

    method ReadU8() returns (r: Outcome<Octet>)
      requires InBounds() && (lost || Valid())
      modifies this`len, this`readPos, this`lost, this`consumed, readBuf, socket
      ensures InBounds() && (lost <==> old(lost) || r.Dropped?) && (lost ==> !r.Done?)
      ensures r.Fail? ==> r == Fail(Io)
      ensures !lost ==> Valid() && if r.Done? then old(Ahead()) == [r.value] + Ahead() else Ahead() == old(Ahead())
      ensures socket.Steady() ==> !r.Dropped? && (!lost ==> (r.Done? <==> old(Ahead()) != []))
    {
      var _ :- Ensure(1);
      var bytes := Take(1);
      return Done(bytes[0]);
    }

    /** The payload, from the buffer as far as it goes and a larger rest
        straight from the socket. */
    method ReadPayload(payloadLen: nat, bufferSet: BufferSet) returns (r: Outcome<()>)
      requires Valid()
      modifies this`readPos, this`consumed, socket, bufferSet`readBuffer
      ensures InBounds() && (r.Done? ==> Valid())
      ensures r.Done? ==> |bufferSet.readBuffer| == payloadLen && old(Ahead()) == bufferSet.readBuffer + Ahead()
      ensures r.Fail? ==> r == Fail(Io)
      ensures socket.Steady() ==> !r.Dropped? && (r.Done? <==> payloadLen <= |old(Ahead())|)
    {
      hide Valid;
      var fromBuf := if Available() < payloadLen then Available() else payloadLen;
      bufferSet.readBuffer := Take(fromBuf);
      var remaining := payloadLen - fromBuf;
      if remaining > 0 {
        ghost var first := bufferSet.readBuffer;
        var rest :- TakeDirectly(remaining);
        bufferSet.readBuffer := bufferSet.readBuffer + rest;
        assert first + (rest + Ahead()) == first + rest + Ahead();
      }
      return Done(());
    }

    /** The header from the buffer, then the payload. */
    method ReadMessage(bufferSet: BufferSet) returns (r: Outcome<()>)
      requires InBounds() && (lost || Valid())
      modifies this`len, this`readPos, this`lost, this`consumed, readBuf, socket, bufferSet
      ensures InBounds() && (r.Done? ==> Valid()) && (r.Fail? ==> r == Fail(Io))
      ensures old(lost) ==> lost && !r.Done?
      ensures r.Dropped? || lost == old(lost)
      ensures old(!lost) ==> ReadsMessage(old(Ahead()), r, bufferSet.Delivered(), Ahead(), socket.Steady())
    {
      hide Valid, Ahead, FromBigEndian, Parse;
      ghost var s := Ahead();
      TooShort(s);
      var _ :- Ensure(5);
      var header := Take(5);
      bufferSet.typeByte := header[0];
      var length := FromBigEndian(header[1..5]);
      var payloadLen := if length < 4 then 0 else length - 4;
      HeaderFirst(header, Ahead());
      if payloadLen == 0 {
        bufferSet.readBuffer := [];
        assert Ahead()[0..] == Ahead();
        return Done(());
      }
      ghost var rest := Ahead();
      r := ReadPayload(payloadLen, bufferSet);
      assert r.Done? ==> rest[payloadLen..] == Ahead() && rest[..payloadLen] == bufferSet.readBuffer;
    }
  }

  /** However the sockets split one stream, and as long as neither fails, both
      readers deliver the same messages and stop at the same place. */
  method ReadBoth(stream: seq<Octet>, gifts: nat -> Gift, gifts': nat -> Gift)
    returns (plain: seq<Message>, buffered: seq<Message>)
    requires forall k :: gifts(k).Part? && gifts'(k).Part?
    ensures plain == buffered == ParseAll(stream).0
  {
    var socket := new Socket(gifts, stream);
    var socket' := new Socket(gifts', stream);
    var p := new PlainStream(socket);
    var b := new BufferedStream(socket');
    plain := ReadAllPlain(p);
    buffered := ReadAllBuffered(b);
  }

  /** One message more, and those behind it. */
  lemma AllParsed(s: seq<Octet>, ms: seq<Message>)
    ensures match Parse(s)
            case Short => ms + ParseAll(s).0 == ms
            case Parsed(m, rest) => |rest| < |s| && ms + ParseAll(s).0 == ms + [m] + ParseAll(rest).0
  {
    ParseShrinks(s);
    UnfoldAll(s);
    hide *;
    match Parse(s)
    case Short => assert ms + [] == ms;
    case Parsed(m, rest) => assert ms + ([m] + ParseAll(rest).0) == ms + [m] + ParseAll(rest).0;
  }

  lemma UnfoldAll(s: seq<Octet>)
    ensures match Parse(s)
            case Short => ParseAll(s).0 == []
            case Parsed(m, rest) => ParseAll(s).0 == [m] + ParseAll(rest).0
  {
    hide Parse;
  }

  method ReadAllPlain(p: PlainStream) returns (ms: seq<Message>)
    requires p.socket.Steady()
    modifies p.socket
    ensures ms == ParseAll(old(p.Ahead())).0
  {
    hide Parse, ParseAll;
    ms := [];
    var bufferSet := new BufferSet();
    while true
      invariant ms + ParseAll(p.Ahead()).0 == ParseAll(old(p.Ahead())).0
      decreases |p.Ahead()|
    {
      AllParsed(p.Ahead(), ms);
      var r := p.ReadMessage(bufferSet);
      if !r.Done? {
        return;
      }
      ms := ms + [bufferSet.Delivered()];
    }
  }

  method ReadAllBuffered(b: BufferedStream) returns (ms: seq<Message>)
    requires b.Valid() && b.socket.Steady()
    modifies b, b.readBuf, b.socket
    ensures ms == ParseAll(old(b.Ahead())).0
  {
    hide Parse, ParseAll;
    ms := [];
    var bufferSet := new BufferSet();
    while true
      invariant b.Valid() && ms + ParseAll(b.Ahead()).0 == ParseAll(old(b.Ahead())).0
      decreases |b.Ahead()|
    {
      AllParsed(b.Ahead(), ms);
      var r := b.ReadMessage(bufferSet);
      if !r.Done? {
        return;
      }
      ms := ms + [bufferSet.Delivered()];
    }
  }
}
