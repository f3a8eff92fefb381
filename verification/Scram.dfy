/** SCRAM-SHA-256 (RFC 5802, RFC 7677) without channel binding, both sides of
    it, over abstract primitives. */
module Scram {
  import opened Protocol
  import opened Numerics
  import opened NumericValues

  type Key = seq<bv8>

  const KEY_LENGTH := 32

  /** Hash, HMAC, key derivation and base64. */
  datatype Crypto = Crypto(
    hash: Key -> Key,
    hmac: (Key, string) -> Key,
    hi: (string, Key, nat) -> Key,
    encode64: Key -> string,
    decode64: string -> Option<Key>)
  {
    ghost predicate Sound() {
      && (forall k, s :: |hmac(k, s)| == KEY_LENGTH)
      && (forall b :: decode64(encode64(b)) == Some(b))
      && (forall b :: ',' !in encode64(b))
    }

    function ClientKey(salted: Key): Key {
      hmac(salted, "Client Key")
    }

    function StoredKey(salted: Key): Key {
      hash(ClientKey(salted))
    }

    function ServerKey(salted: Key): Key {
      hmac(salted, "Server Key")
    }

    function ServerSignature(salted: Key, authMessage: string): Key {
      hmac(ServerKey(salted), authMessage)
    }
  }

  function Xor(a: Key, b: Key): (c: Key)
    requires |a| == |b|
    ensures |c| == |a| && forall i | 0 <= i < |a| :: c[i] == a[i] ^ b[i]
  {
    seq(|a|, i requires 0 <= i < |a| => a[i] ^ b[i])
  }

  lemma XorCancels(a: Key, b: Key)
    requires |a| == |b|
    ensures Xor(Xor(a, b), b) == a
  {
    forall i | 0 <= i < |a| ensures Xor(Xor(a, b), b)[i] == a[i] {
      XorTwice(a[i], b[i]);
    }
  }

  lemma XorTwice(x: bv8, y: bv8)
    ensures (x ^ y) ^ y == x
  {
  }

  // -- Comma-separated text

  function Split(s: string): (parts: seq<string>)
    ensures parts != []
  {
    if s == "" then [""]
    else if s[0] == ',' then [""] + Split(s[1..])
    else var parts := Split(s[1..]); [[s[0]] + parts[0]] + parts[1..]
  }

  lemma {:induction false} SplitFirst(field: string, rest: string)
    requires ',' !in field
    ensures Split(field) == [field]
    ensures Split(field + "," + rest) == [field] + Split(rest)
  {
    if field == "" {
      assert "" + "," + rest == "," + rest && ("," + rest)[1..] == rest;
    } else {
      SplitFirst(field[1..], rest);
      assert [field[0]] + field[1..] == field && [field[1..]][1..] == [];
      assert ([field[1..]] + Split(rest))[1..] == Split(rest);
      assert (field + "," + rest)[1..] == field[1..] + "," + rest;
    }
  }

  predicate HasPrefix(s: string, p: string): (b: bool)
    ensures b <==> |p| <= |s| && forall i | 0 <= i < |p| :: s[i] == p[i]
  {
    p <= s
  }

  /** The digits of an unsigned 32-bit number, a plus sign allowed. */
  function ParseU32(s: string): Option<nat> {
    var digits := if s != "" && s[0] == '+' then s[1..] else s;
    if digits == "" || !AllDigits(digits) || Value(digits) >= 0x1_0000_0000 then None
    else Some(Value(digits))
  }

  // -- The server-first-message

  /** What the fields of a server-first-message say; the last one counts. */
  datatype Challenge = Challenge(nonce: Option<string>, salt: Option<string>, iterations: Option<nat>)

  function Field(c: Challenge, part: string): Challenge {
    if HasPrefix(part, "r=") then c.(nonce := Some(part[2..]))
    else if HasPrefix(part, "s=") then c.(salt := Some(part[2..]))
    else if HasPrefix(part, "i=") then c.(iterations := ParseU32(part[2..]))
    else c
  }

  function Fields(c: Challenge, parts: seq<string>): Challenge
    decreases parts
  {
    if parts == [] then c else Fields(Field(c, parts[0]), parts[1..])
  }

  const NO_CHALLENGE := Challenge(None, None, None)

  // -- The client

  class ScramClient {
    const crypto: Crypto
    const nonce: string
    const channelBinding: string
    const password: string
    var serverFirst: Option<string>
    var authMessage: Option<string>
    var saltedPassword: Option<Key>

    /** Without channel binding. */
    constructor (crypto: Crypto, nonce: string, password: string)
      ensures this.crypto == crypto && this.nonce == nonce && this.password == password && channelBinding == "n,,"
      ensures serverFirst == None && authMessage == None && saltedPassword == None
    {
      this.crypto, this.nonce, this.password := crypto, nonce, password;
      channelBinding := "n,,";
      serverFirst, authMessage, saltedPassword := None, None, None;
    }

    function ClientFirstMessage(): string {
      channelBinding + ClientFirstMessageBare()
    }

    function ClientFirstMessageBare(): string {
      "n=,r=" + nonce
    }

    function WithoutProof(combinedNonce: string, header: Key): string {
      "c=" + crypto.encode64(header) + ",r=" + combinedNonce
    }

    function AuthMessage(server: string, withoutProof: string): string {
      ClientFirstMessageBare() + "," + server + "," + withoutProof
    }

    method ParseServerFirst(server: string) returns (c: Challenge)
      ensures c == Fields(NO_CHALLENGE, Split(server))
    {
      c := NO_CHALLENGE;
      var parts := Split(server);
      for i := 0 to |parts|
        invariant Fields(c, parts[i..]) == Fields(NO_CHALLENGE, parts)
      {
        assert parts[i..][0] == parts[i] && parts[i..][1..] == parts[i + 1..];
        if HasPrefix(parts[i], "r=") {
          c := c.(nonce := Some(parts[i][2..]));
        } else if HasPrefix(parts[i], "s=") {
          c := c.(salt := Some(parts[i][2..]));
        } else if HasPrefix(parts[i], "i=") {
          c := c.(iterations := ParseU32(parts[i][2..]));
        }
      }
    }

    /** Answer the server's challenge. It is answered iff it has a nonce that
        extends the client's, a salt and a number of iterations; the answer
        proves the client key for this very conversation. */
    method ProcessServerFirst(server: string) returns (r: Outcome<string>)
      requires crypto.Sound()
      modifies this
      ensures serverFirst == Some(server)
      ensures var c := Fields(NO_CHALLENGE, Split(server));
              && (r.Done? <==> Answerable(c))
              && (r.Done? ==>
                    var salted := crypto.hi(password, crypto.decode64(c.salt.value).value, c.iterations.value);
                    var withoutProof := WithoutProof(c.nonce.value, Octets(channelBinding));
                    var auth := AuthMessage(server, withoutProof);
                    && saltedPassword == Some(salted) && authMessage == Some(auth)
                    && r.value == withoutProof + ",p=" + crypto.encode64(Proof(crypto, salted, auth)))
      ensures !r.Done? ==> r.Fail? && authMessage == old(authMessage) && saltedPassword == old(saltedPassword)
    {
      serverFirst := Some(server);
      var c := ParseServerFirst(server);
      if c.nonce.None? {
        return Fail(Auth("Missing nonce in server-first-message"));
      }
      if c.salt.None? {
        return Fail(Auth("Missing salt in server-first-message"));
      }
      if c.iterations.None? {
        return Fail(Auth("Missing iterations in server-first-message"));
      }
      if !HasPrefix(c.nonce.value, nonce) {
        return Fail(Auth("Server nonce doesn't start with client nonce"));
      }
      var salt := crypto.decode64(c.salt.value);
      if salt.None? {
        return Fail(Auth("Invalid salt"));
      }
      var salted := crypto.hi(password, salt.value, c.iterations.value);
      saltedPassword := Some(salted);
      var clientKey := crypto.ClientKey(salted);
      var storedKey := crypto.hash(clientKey);
      var withoutProof := WithoutProof(c.nonce.value, Octets(channelBinding));
      var auth := AuthMessage(server, withoutProof);
      authMessage := Some(auth);
      var clientSignature := crypto.hmac(storedKey, auth);
      var clientProof := XorAll(clientKey, clientSignature);
      return Done(withoutProof + ",p=" + crypto.encode64(clientProof));
    }

    method XorAll(clientKey: Key, clientSignature: Key) returns (clientProof: Key)
      requires |clientKey| == |clientSignature| == KEY_LENGTH
      ensures clientProof == Xor(clientKey, clientSignature)
    {
      clientProof := [];
      for i := 0 to KEY_LENGTH
        invariant |clientProof| == i
        invariant forall j | 0 <= j < i :: clientProof[j] == clientKey[j] ^ clientSignature[j]
      {
        clientProof := clientProof + [clientKey[i] ^ clientSignature[i]];
      }
    }

    predicate Answerable(c: Challenge) {
      && c.nonce.Some? && c.salt.Some? && c.iterations.Some?
      && HasPrefix(c.nonce.value, nonce) && crypto.decode64(c.salt.value).Some?
    }

    /** Accept the server iff it signed this conversation with the server key. */
    method VerifyServerFinal(serverFinal: string) returns (r: Outcome<()>)
      ensures r.Done? <==> saltedPassword.Some? && authMessage.Some? &&
                             Genuine(crypto, saltedPassword.value, authMessage.value, serverFinal)
      ensures !r.Dropped?
    {
      if !HasPrefix(serverFinal, "v=") {
        return Fail(Auth("Invalid server-final-message format"));
      }
      var serverSignature := crypto.decode64(serverFinal[2..]);
      if serverSignature.None? {
        return Fail(Auth("Invalid server signature"));
      }
      if saltedPassword.None? {
        return Fail(Auth("Missing salted password"));
      }
      if authMessage.None? {
        return Fail(Auth("Missing auth message"));
      }
      var serverKey := crypto.hmac(saltedPassword.value, "Server Key");
      var expected := crypto.hmac(serverKey, authMessage.value);
      if serverSignature.value != expected {
        return Fail(Auth("Server signature verification failed"));
      }
      return Done(());
    }
  }

  /** The characters of a GS2 header as octets. */
  function Octets(s: string): Key {
    seq(|s|, i requires 0 <= i < |s| => (s[i] as int % 256) as bv8)
  }

  function Proof(crypto: Crypto, salted: Key, auth: string): Key
    requires crypto.Sound()
  {
    Xor(crypto.ClientKey(salted), crypto.hmac(crypto.StoredKey(salted), auth))
  }

  /** A server-final-message that only the server key can produce. */
  predicate Genuine(crypto: Crypto, salted: Key, auth: string, serverFinal: string) {
    && HasPrefix(serverFinal, "v=")
    && crypto.decode64(serverFinal[2..]) == Some(crypto.ServerSignature(salted, auth))
  }

  // -- The server, which knows the client by its messages alone

  /** What a server keeps of a password (section 3 of RFC 5802). */
  datatype Credentials = Credentials(salt: Key, iterations: nat, storedKey: Key, serverKey: Key)

  function Enroll(crypto: Crypto, password: string, salt: Key, iterations: nat): Credentials {
    var salted := crypto.hi(password, salt, iterations);
    Credentials(salt, iterations, crypto.hash(crypto.hmac(salted, "Client Key")), crypto.hmac(salted, "Server Key"))
  }

  /** What a client-first-message says, and the part of it that is signed. */
  datatype Opening = Opening(bare: string, user: string, nonce: string)

  /** Read a client-first-message without channel binding: "n,,", then "n=" and
      the user, then "r=" and the nonce (section 7 of RFC 5802). Anything else
      is rejected. */
  function ReadClientFirst(message: string): Option<Opening> {
    if !("n,," <= message) then None
    else
      var bare := message[3..];
      var parts := Split(bare);
      if |parts| != 2 || !("n=" <= parts[0]) || !("r=" <= parts[1]) then None
      else Some(Opening(bare, parts[0][2..], parts[1][2..]))
  }

  function ServerFirst(crypto: Crypto, creds: Credentials, combinedNonce: string): string {
    "r=" + combinedNonce + "," + ("s=" + crypto.encode64(creds.salt) + "," + ("i=" + ToText(creds.iterations)))
  }

  /** The server's answer to a client-first-message: the nonce it read there,
      extended by one of its own, and how the password was enrolled. */
  function Challenged(crypto: Crypto, creds: Credentials, clientFirst: string, serverNonce: string): Option<string> {
    match ReadClientFirst(clientFirst)
    case None => None
    case Some(opening) => Some(ServerFirst(crypto, creds, opening.nonce + serverNonce))
  }

  /** Where the last comma is, if there is one. */
  function LastComma(s: string): (at: int)
    ensures -1 <= at < |s|
    ensures at >= 0 ==> s[at] == ','
    ensures forall i | at < i < |s| :: s[i] != ','
  {
    if s == "" then -1 else if s[|s| - 1] == ',' then |s| - 1 else LastComma(s[..|s| - 1])
  }

  datatype Verdict = Rejected | Accepted(clientKey: Key, authMessage: string, serverFinal: string)

  /** The GS2 header "n,,", in ASCII. */
  const NO_BINDING: Key := [0x6E, 0x2C, 0x2C]

  /** The server's judgement of a client-final-message, from the messages it got
      and its own nonce: the key it recovers from the proof must hash to the
      stored one. */
  function Judge(crypto: Crypto, creds: Credentials, clientFirst: string, serverNonce: string, clientFinal: string)
    : Verdict
  {
    var cut := LastComma(clientFinal);
    match ReadClientFirst(clientFirst)
    case None => Rejected
    case Some(opening) =>
      if cut < 0 then Rejected
      else
        var withoutProof, proof := clientFinal[..cut], clientFinal[cut + 1..];
        var combined := opening.nonce + serverNonce;
        if withoutProof != "c=" + crypto.encode64(NO_BINDING) + ",r=" + combined || !("p=" <= proof) then Rejected
        else
          var auth := opening.bare + "," + ServerFirst(crypto, creds, combined) + "," + withoutProof;
          var signature := crypto.hmac(creds.storedKey, auth);
          match crypto.decode64(proof[2..])
          case None => Rejected
          case Some(p) =>
            if |p| != |signature| || crypto.hash(Xor(p, signature)) != creds.storedKey then Rejected
            else Accepted(Xor(p, signature), auth, "v=" + crypto.encode64(crypto.hmac(creds.serverKey, auth)))
  }

  lemma {:induction false} LastCommaOf(s: string, t: string)
    requires ',' !in t
    ensures LastComma(s + "," + t) == |s|
    decreases t
  {
    var u := s + "," + t;
    if t == "" {
      assert u[|u| - 1] == ',';
    } else {
      var init := t[..|t| - 1];
      assert u[..|u| - 1] == s + "," + init && u[|u| - 1] == t[|t| - 1] && t[|t| - 1] in t;
      assert forall c <- init :: c in t;
      LastCommaOf(s, init);
    }
  }

  /** A server reads the client's nonce, and no user, in its first message. */
  lemma OpeningIsRead(client: ScramClient)
    requires client.channelBinding == "n,," && ',' !in client.nonce
    ensures ReadClientFirst(client.ClientFirstMessage())
            == Some(Opening(client.ClientFirstMessageBare(), "", client.nonce))
  {
    var bare := client.ClientFirstMessageBare();
    assert client.ClientFirstMessage()[3..] == bare;
    assert bare == "n=" + "," + ("r=" + client.nonce);
    SplitFirst("n=", "r=" + client.nonce);
    SplitFirst("r=" + client.nonce, "");
    assert ("r=" + client.nonce)[2..] == client.nonce && "n="[2..] == "";
    assert ["n="] + ["r=" + client.nonce] == ["n=", "r=" + client.nonce];
  }

  /** An honest challenge is understood as it was meant. */
  lemma HonestChallenge(crypto: Crypto, creds: Credentials, combinedNonce: string)
    requires crypto.Sound() && ',' !in combinedNonce && creds.iterations < 0x1_0000_0000
    ensures Fields(NO_CHALLENGE, Split(ServerFirst(crypto, creds, combinedNonce)))
            == Challenge(Some(combinedNonce), Some(crypto.encode64(creds.salt)), Some(creds.iterations))
  {
    var r, s, i := "r=" + combinedNonce, "s=" + crypto.encode64(creds.salt), "i=" + ToText(creds.iterations);
    SplitFirst(r, s + "," + i);
    SplitFirst(s, i);
    SplitFirst(i, "");
    assert r[2..] == combinedNonce && s[2..] == crypto.encode64(creds.salt) && i[2..] == ToText(creds.iterations);
    NumberParses(creds.iterations);
    assert Split(ServerFirst(crypto, creds, combinedNonce)) == [r] + ([s] + [i]) == [r, s, i];
    hide Split, ParseU32, ToText, Fields;
    ThreeFields(NO_CHALLENGE, r, s, i);
    assert r[0] == 'r' && s[0] == 's' && i[0] == 'i';
    assert HasPrefix(r, "r=") && HasPrefix(s, "s=") && HasPrefix(i, "i=");
  }

  lemma ThreeFields(c: Challenge, a: string, b: string, d: string)
    ensures Fields(c, [a, b, d]) == Field(Field(Field(c, a), b), d)
  {
    assert [a, b, d][1..] == [b, d] && [b, d][1..] == [d] && [d][1..] == [];
    hide Field;
    assert Fields(Field(Field(c, a), b), [d]) == Fields(Field(Field(Field(c, a), b), d), []);
    assert Fields(Field(c, a), [b, d]) == Fields(Field(Field(c, a), b), [d]);
  }

  /** A number is read back iff it has 32 bits, with a plus sign or without. */
  lemma NumberParses(n: nat)
    ensures ParseU32(ToText(n)) == if n < 0x1_0000_0000 then Some(n) else None
    ensures ParseU32("+" + ToText(n)) == ParseU32(ToText(n))
  {
    hide ToText, Value;
    ValueText(n);
    assert ToText(n)[0] in ToText(n);
    assert ("+" + ToText(n))[1..] == ToText(n);
  }

  lemma HeaderIs()
    ensures Octets("n,,") == NO_BINDING
  {
    assert Octets("n,,")[0] == 0x6E && Octets("n,,")[1] == 0x2C && Octets("n,,")[2] == 0x2C;
  }

  /** An honest exchange: the server reads the client's nonce and extends it,
      both sides compute the same AuthMessage, the server recovers the client
      key from the proof, and each accepts the other. */
  method HonestExchange(crypto: Crypto, password: string, creds: Credentials, clientNonce: string, serverNonce: string)
    returns (client: ScramClient, verdict: Verdict)
    requires crypto.Sound() && ',' !in clientNonce + serverNonce
    requires creds == Enroll(crypto, password, creds.salt, creds.iterations) && creds.iterations < 0x1_0000_0000
    ensures fresh(client) && client.saltedPassword == Some(crypto.hi(password, creds.salt, creds.iterations))
    ensures client.serverFirst.Some?
    ensures client.serverFirst == Challenged(crypto, creds, client.ClientFirstMessage(), serverNonce)
    ensures verdict.Accepted? && client.authMessage == Some(verdict.authMessage)
    ensures verdict.clientKey == crypto.hmac(crypto.hi(password, creds.salt, creds.iterations), "Client Key")
    ensures Genuine(crypto, client.saltedPassword.value, verdict.authMessage, verdict.serverFinal)
  {
    client := new ScramClient(crypto, clientNonce, password);
    var clientFirst := client.ClientFirstMessage();
    OpeningIsRead(client);
    var serverFirst := Challenged(crypto, creds, clientFirst, serverNonce).value;
    HonestChallenge(crypto, creds, clientNonce + serverNonce);
    var clientFinal := client.ProcessServerFirst(serverFirst);
    HonestVerdict(crypto, password, creds, client, serverNonce, clientFinal.value);
    verdict := Judge(crypto, creds, clientFirst, serverNonce, clientFinal.value);
    var accepted := client.VerifyServerFinal(verdict.serverFinal);
    assert accepted.Done?;
  }

  /** The server's judgement of an honest client's answer. */
  lemma HonestVerdict(crypto: Crypto, password: string, creds: Credentials, client: ScramClient, serverNonce: string,
                      clientFinal: string)
    requires crypto.Sound() && creds == Enroll(crypto, password, creds.salt, creds.iterations)
    requires client.crypto == crypto && client.channelBinding == "n,," && ',' !in client.nonce
    requires var salted := crypto.hi(password, creds.salt, creds.iterations);
             var combined := client.nonce + serverNonce;
             var withoutProof := client.WithoutProof(combined, Octets("n,,"));
             var auth := client.AuthMessage(ServerFirst(crypto, creds, combined), withoutProof);
             clientFinal == withoutProof + ",p=" + crypto.encode64(Proof(crypto, salted, auth))
    ensures var salted := crypto.hi(password, creds.salt, creds.iterations);
            var combined := client.nonce + serverNonce;
            var withoutProof := client.WithoutProof(combined, Octets("n,,"));
            var auth := client.AuthMessage(ServerFirst(crypto, creds, combined), withoutProof);
            var verdict := Judge(crypto, creds, client.ClientFirstMessage(), serverNonce, clientFinal);
            var signed := "v=" + crypto.encode64(crypto.ServerSignature(salted, auth));
            && verdict == Accepted(crypto.hmac(salted, "Client Key"), auth, signed)
            && Genuine(crypto, salted, auth, verdict.serverFinal)
  {
    var combined := client.nonce + serverNonce;
    var serverFirst := ServerFirst(crypto, creds, combined);
    var salted := crypto.hi(password, creds.salt, creds.iterations);
    var withoutProof := client.WithoutProof(combined, Octets("n,,"));
    var auth := client.AuthMessage(serverFirst, withoutProof);
    var proof := "p=" + crypto.encode64(Proof(crypto, salted, auth));
    HeaderIs();
    OpeningIsRead(client);
    hide ServerFirst, Octets, LastComma, ReadClientFirst;
    assert clientFinal == withoutProof + "," + proof;
    LastCommaOf(withoutProof, proof);
    assert clientFinal[..|withoutProof|] == withoutProof && clientFinal[|withoutProof| + 1..] == proof;
    assert proof[2..] == crypto.encode64(Proof(crypto, salted, auth));
    XorCancels(crypto.ClientKey(salted), crypto.hmac(creds.storedKey, auth));
    hide Xor;
    var final := "v=" + crypto.encode64(crypto.ServerSignature(salted, auth));
    assert final[2..] == crypto.encode64(crypto.ServerSignature(salted, auth));
  }
}
