/** Connection startup: TLS negotiation, authentication, and the way to the
    first ReadyForQuery. */
module Startup {
  import opened Protocol
  import opened Scram
  import Server

  datatype SslMode = Disable | Prefer | Require

  datatype State =
    | Initial
    | WaitingSslResponse
    | WaitingTlsHandshake
    | WaitingAuthRead
    | WaitingAuth
    | SaslInProgressRead
    | SaslInProgress
    | WaitingAuthResultRead
    | WaitingAuthResult
    | WaitingReady
    | Finished

  datatype Authentication =
    | Granted
    | CleartextPassword
    | Md5Password(salt: Key)
    | Sasl(mechanisms: seq<string>)
    | SaslContinue(data: string)
    | SaslFinal(data: string)
    | OtherMethod

  datatype StartupMsg =
    | Authentication(auth: Authentication)
    | BackendKeyData(key: nat)
    | ParameterStatus(name: string, value: string)
    | Ready(status: char)
    | Failure(error: ServerError)
    | Notice                       // a notice or a notification
    | NegotiateProtocolVersion
    | Unknown

  /** What the machine leaves in the write buffer. */
  datatype Written =
    | Nothing
    | SslRequest
    | StartupMessage
    | Password(text: string)
    | SaslInitialResponse(mechanism: string, clientFirst: string)
    | SaslResponse(clientFinal: string)

  datatype Request = WriteAndReadByte | Write | ReadMessage | TlsHandshake | HandleAsync | Finish

  datatype Options = Options(sslMode: SslMode, tls: bool, user: string, password: Option<string>,
                             md5: (string, string, Key) -> string)

  const MECHANISM := "SCRAM-SHA-256"

  /** The password a request for one is answered with, if there is one. */
  function PasswordFor(o: Options, auth: Authentication): Option<string> {
    match auth
    case CleartextPassword => o.password
    case Md5Password(salt) => if o.password.None? then None else Some(o.md5(o.user, o.password.value, salt))
    case _ => None
  }

  /** TLS is asked for, and may be refused only if it is not required. */
  predicate SslAgrees(o: Options, sslResponse: char) {
    match o.sslMode
    case Disable => true
    case Prefer => o.tls ==> sslResponse == 'S' || sslResponse == 'N'
    case Require => o.tls && sslResponse == 'S'
  }

  predicate OffersScram(m: StartupMsg) {
    m.Authentication? && m.auth.Sasl? && MECHANISM in m.auth.mechanisms
  }

  class ConnectionMachine {
    const crypto: Crypto
    const options: Options
    const nonce: string            // drawn at random when SCRAM starts
    var state: State
    var sslResponse: char
    var scramClient: ScramClient?
    var written: Written
    var backendKey: Option<nat>
    var serverParams: seq<(string, string)>
    var transactionStatus: TransactionStatus

    ghost var secured: bool        // a TLS handshake was made
    ghost var chosen: bool         // SASL was chosen
    ghost var proof: Option<(Key, string, string)>  // what the server was accepted for

    ghost predicate Valid()
      reads this, scramClient
    {
      && crypto.Sound()
      && (scramClient != null ==> scramClient.crypto == crypto && scramClient.channelBinding == "n,,"
                                  && scramClient.nonce == nonce)
      && (state.SaslInProgressRead? || state.SaslInProgress? ==> chosen && scramClient != null)
      && (chosen ==> state.SaslInProgressRead? || state.SaslInProgress? || state.WaitingAuthResult?
                     || state.WaitingReady? || state.Finished?)
      && (chosen && !state.SaslInProgressRead? && !state.SaslInProgress? ==> Verified())
      && (options.sslMode.Require? && Introduced() ==> secured)
      && (state.WaitingSslResponse? || state.WaitingTlsHandshake? ==> options.tls)
    }

    /** The server signed the conversation this client had with it. */
    ghost predicate Verified()
      reads this, scramClient
    {
      && proof.Some? && scramClient != null
      && scramClient.saltedPassword == Some(proof.value.0) && scramClient.authMessage == Some(proof.value.1)
      && Genuine(crypto, proof.value.0, proof.value.1, proof.value.2)
    }

    /** The client-first-message was written. */
    ghost predicate SaslStarted()
      reads this, scramClient
    {
      && options.password.Some? && scramClient != null && scramClient.password == options.password.value
      && written == SaslInitialResponse(MECHANISM, scramClient.ClientFirstMessage())
    }

    /** The challenge `data` was answered. */
    ghost predicate Answered(data: string)
      requires crypto.Sound()
      reads this, scramClient
    {
      && scramClient != null && scramClient.crypto == crypto
      && var c := Fields(NO_CHALLENGE, Split(data));
      && scramClient.Answerable(c)
      && var salted := crypto.hi(scramClient.password, crypto.decode64(c.salt.value).value, c.iterations.value);
      var withoutProof := scramClient.WithoutProof(c.nonce.value, Octets("n,,"));
      var auth := scramClient.AuthMessage(data, withoutProof);
      && scramClient.saltedPassword == Some(salted) && scramClient.authMessage == Some(auth)
      && written == SaslResponse(withoutProof + ",p=" + crypto.encode64(Proof(crypto, salted, auth)))
    }

    /** The server-final-message `data` will be accepted. */
    ghost predicate Accepts(data: string)
      reads this, scramClient
    {
      && scramClient != null && scramClient.saltedPassword.Some? && scramClient.authMessage.Some?
      && Genuine(crypto, scramClient.saltedPassword.value, scramClient.authMessage.value, data)
    }

    /** The startup message, with user and database, was written. */
    predicate Introduced()
      reads this
    {
      !state.Initial? && !state.WaitingSslResponse? && !state.WaitingTlsHandshake?
    }

    constructor (crypto: Crypto, options: Options, nonce: string)
      requires crypto.Sound()
      ensures this.crypto == crypto && this.options == options && this.nonce == nonce
      ensures Valid() && state == Initial && scramClient == null && !chosen && fresh(this)
    {
      this.crypto, this.options, this.nonce := crypto, options, nonce;
      state, sslResponse, scramClient, written := Initial, '\0', null, Nothing;
      backendKey, serverParams, transactionStatus := None, [], Idle;
      secured, chosen, proof := false, false, None;
    }

    method HandleInitial() returns (r: Outcome<Request>)
      requires Valid() && state == Initial
      modifies this`state, this`written
      ensures Valid()
      ensures r == if options.sslMode.Require? && !options.tls then Fail(Unsupported)
                   else if !options.sslMode.Disable? && options.tls then Done(WriteAndReadByte)
                   else Done(Write)
      ensures r.Done? ==> written == (if r.value == WriteAndReadByte then SslRequest else StartupMessage)
      ensures state == if !r.Done? then Initial
                       else if r.value == WriteAndReadByte then WaitingSslResponse
                       else WaitingAuthRead
    {
      written := Nothing;
      var sendSslRequest;
      match options.sslMode {
        case Disable => sendSslRequest := false;
        case Prefer => sendSslRequest := options.tls;
        case Require =>
          if !options.tls {
            return Fail(Unsupported);
          }
          sendSslRequest := true;
      }
      if sendSslRequest {
        written := SslRequest;
        state := WaitingSslResponse;
        return Done(WriteAndReadByte);
      }
      written := StartupMessage;
      state := WaitingAuthRead;
      return Done(Write);
    }

    method HandleSslResponse() returns (r: Outcome<Request>)
      requires Valid() && state == WaitingSslResponse
      modifies this`state, this`written
      ensures Valid()
      ensures r.Done? <==> sslResponse == 'S' || (sslResponse == 'N' && !options.sslMode.Require?)
      ensures r.Done? ==> if sslResponse == 'S' then r.value == TlsHandshake && state == WaitingTlsHandshake
                          else r.value == Write && state == WaitingAuthRead && written == StartupMessage
      ensures !r.Done? ==> r.Fail? && state == old(state)
    {
      if sslResponse == 'S' {
        state := WaitingTlsHandshake;
        return Done(TlsHandshake);
      } else if sslResponse == 'N' {
        if options.sslMode == Require {
          return Fail(Auth("SSL required but not supported by server"));
        }
        written := StartupMessage;
        state := WaitingAuthRead;
        return Done(Write);
      }
      return Fail(LibraryBug("Unexpected SSL response"));
    }

    method HandleTlsHandshakeComplete() returns (r: Outcome<Request>)
      requires Valid() && state == WaitingTlsHandshake
      modifies this`state, this`written, this`secured
      ensures Valid() && secured
      ensures r == Done(Write) && state == WaitingAuthRead && written == StartupMessage
    {
      secured := true;
      written := StartupMessage;
      state := WaitingAuthRead;
      return Done(Write);
    }

    method HandleAuthMessage(m: StartupMsg) returns (r: Outcome<Request>)
      requires Valid() && state == WaitingAuth
      modifies this`state, this`written, this`scramClient, this`chosen
      ensures Valid()
      ensures scramClient == old(scramClient) || fresh(scramClient)
      ensures m == Authentication(Granted) ==> r == Done(ReadMessage) && state == WaitingReady
      ensures chosen ==>
                && state == SaslInProgressRead && SaslStarted() && r == Done(Write) && fresh(scramClient)
                && m.Authentication? && m.auth.Sasl?
      ensures (OffersScram(m) && options.password.Some? <==> chosen) && (old(chosen) ==> chosen)
      ensures m.Authentication? && PasswordFor(options, m.auth).Some? ==>
                && r == Done(Write) && state == WaitingAuthResultRead
                && written == Password(PasswordFor(options, m.auth).value)
      ensures r.Done? <==>
              && m.Authentication?
              && (|| m.auth.Granted? || PasswordFor(options, m.auth).Some?
                  || (OffersScram(m) && options.password.Some?))
      ensures if !r.Done? then r.Fail? && state == WaitingAuth && written == old(written)
              else if r.value == Write then state.WaitingAuthResultRead? || state.SaslInProgressRead?
              else r.value == ReadMessage && state == WaitingReady
    {
      if m.NegotiateProtocolVersion? {
        return Fail(LibraryBug("Server does not support protocol 3.2"));
      }
      if !m.Authentication? {
        return Fail(LibraryBug("Expected Authentication message"));
      }
      match m.auth {
        case Granted =>
          state := WaitingReady;
          return Done(ReadMessage);
        case CleartextPassword =>
          if options.password.None? {
            return Fail(Auth("Password required but not provided"));
          }
          written := Password(options.password.value);
          state := WaitingAuthResultRead;
          return Done(Write);
        case Md5Password(salt) =>
          if options.password.None? {
            return Fail(Auth("Password required but not provided"));
          }
          written := Password(options.md5(options.user, options.password.value, salt));
          state := WaitingAuthResultRead;
          return Done(Write);
        case Sasl(mechanisms) =>
          if MECHANISM !in mechanisms {
            return Fail(Auth("No supported SASL mechanism"));
          }
          if options.password.None? {
            return Fail(Auth("Password required but not provided"));
          }
          var scram := new ScramClient(crypto, nonce, options.password.value);
          written := SaslInitialResponse(MECHANISM, scram.ClientFirstMessage());
          scramClient := scram;
          chosen := true;
          state := SaslInProgressRead;
          return Done(Write);
        case _ => return Fail(Unsupported);
      }
    }

    method HandleSaslMessage(m: StartupMsg) returns (r: Outcome<Request>)
      requires Valid() && state == SaslInProgress
      modifies this`state, this`written, this`proof, scramClient
      ensures Valid()
      ensures state == WaitingAuthResult ==> r == Done(ReadMessage) && m.Authentication? && m.auth.SaslFinal?
      ensures r.Done? && state != WaitingAuthResult ==>
                && r.value == Write && m.Authentication? && m.auth.SaslContinue? && state == SaslInProgressRead
      ensures m.Authentication? && m.auth.SaslContinue? ==>
                && (r.Done? <==> scramClient.Answerable(Fields(NO_CHALLENGE, Split(m.auth.data))))
                && (r.Done? ==> Answered(m.auth.data) && scramClient == old(scramClient))
      ensures m.Authentication? && m.auth.SaslFinal? ==> (r.Done? <==> old(Accepts(m.auth.data)))
      ensures !r.Done? ==> r.Fail? && state == SaslInProgress
    {
      hide Genuine, Fields, Split, Proof, Crypto.Sound;
      if !m.Authentication? {
        return Fail(LibraryBug("Expected Authentication message"));
      }
      match m.auth {
        case SaslContinue(data) =>
          var clientFinal :- scramClient.ProcessServerFirst(data);
          written := SaslResponse(clientFinal);
          state := SaslInProgressRead;
          return Done(Write);
        case SaslFinal(data) =>
          var _ :- scramClient.VerifyServerFinal(data);
          proof := Some((scramClient.saltedPassword.value, scramClient.authMessage.value, data));
          state := WaitingAuthResult;
          return Done(ReadMessage);
        case _ => return Fail(LibraryBug("Unexpected SASL message"));
      }
    }

    method HandleAuthResult(m: StartupMsg) returns (r: Outcome<Request>)
      requires Valid() && state == WaitingAuthResult
      modifies this`state
      ensures Valid()
      ensures r.Done? <==> m == Authentication(Granted)
      ensures r.Done? ==> r.value == ReadMessage && state == WaitingReady
      ensures !r.Done? ==> r.Fail? && state == old(state)
    {
      if !m.Authentication? {
        return Fail(LibraryBug("Expected AuthenticationOk"));
      }
      if m.auth.Granted? {
        state := WaitingReady;
        return Done(ReadMessage);
      }
      return Fail(Auth("Unexpected auth result"));
    }

    method HandleReadyMessage(m: StartupMsg) returns (r: Outcome<Request>)
      requires Valid() && state == WaitingReady
      modifies this`state, this`backendKey, this`serverParams, this`transactionStatus
      ensures Valid()
      ensures m.BackendKeyData? ==> 
                && r == Done(ReadMessage) && state == WaitingReady
                && backendKey == Some(m.key) && serverParams == old(serverParams)
      ensures m.ParameterStatus? ==>
                && r == Done(ReadMessage) && state == WaitingReady
                && serverParams == old(serverParams) + [(m.name, m.value)]
      ensures m.Ready? ==>
                && r == Done(Finish) && state == Finished && transactionStatus == StatusOf(m.status)
                && serverParams == old(serverParams) && backendKey == old(backendKey)
      ensures r.Done? <==> m.BackendKeyData? || m.ParameterStatus? || m.Ready?
      ensures !r.Done? ==> r.Fail? && state == WaitingReady && serverParams == old(serverParams)
    {
      match m {
        case BackendKeyData(key) =>
          backendKey := Some(key);
          return Done(ReadMessage);
        case ParameterStatus(name, value) =>
          serverParams := serverParams + [(name, value)];
          return Done(ReadMessage);
        case Ready(status) =>
          transactionStatus := StatusOf(status);
          state := Finished;
          return Done(Finish);
        case _ => return Fail(LibraryBug("Unexpected message during startup"));
      }
    }

    /** How many steps are left before the next message is read. */
    ghost function Rank(): nat
      reads this
    {
      match state
      case Initial => 4
      case WaitingSslResponse => 3
      case WaitingTlsHandshake => 2
      case WaitingAuthRead | SaslInProgressRead | WaitingAuthResultRead => 1
      case _ => 5
    }

    /** The next state does not need a message. */
    predicate Silent()
      reads this
    {
      || state.Initial? || state.WaitingSslResponse? || state.WaitingTlsHandshake?
      || state.WaitingAuthRead? || state.SaslInProgressRead? || state.WaitingAuthResultRead?
    }

    /** A step that needs no message. */
    method StepSilently() returns (r: Outcome<Request>)
      requires Valid() && Silent()
      modifies this`state, this`written, this`secured
      ensures Valid() && state != Finished && !state.WaitingReady? && (!r.Done? ==> r.Fail?)
      ensures r.Done? ==> r.value != Finish && r.value != HandleAsync
      ensures r.Done? && r.value != ReadMessage ==> Rank() < old(Rank())
      ensures r == Done(ReadMessage) ==> !Silent()
      ensures old(state.Initial?) && !(options.sslMode.Require? && !options.tls) ==>
                if options.tls && !options.sslMode.Disable?
                then r == Done(WriteAndReadByte) && state == WaitingSslResponse
                else r == Done(Write) && state == WaitingAuthRead
      ensures old(state.WaitingSslResponse?) && SslAgrees(options, sslResponse) && !options.sslMode.Disable? ==>
                if sslResponse == 'S' then r == Done(TlsHandshake) && state == WaitingTlsHandshake
                else r == Done(Write) && state == WaitingAuthRead
      ensures old(state.WaitingTlsHandshake?) ==> r == Done(Write) && state == WaitingAuthRead
      ensures old(state.WaitingAuthRead?) ==> r == Done(ReadMessage) && state == WaitingAuth
      ensures old(state.SaslInProgressRead?) ==>
                r == Done(ReadMessage) && state == SaslInProgress && written == old(written)
      ensures old(state.WaitingAuthResultRead?) ==> r == Done(ReadMessage) && state == WaitingAuthResult
    {
      hide Crypto.Sound, Genuine, Verified;
      match state {
        case Initial => r := HandleInitial();
        case WaitingSslResponse => r := HandleSslResponse();
        case WaitingTlsHandshake => r := HandleTlsHandshakeComplete();
        case WaitingAuthRead =>
          state := WaitingAuth;
          return Done(ReadMessage);
        case SaslInProgressRead =>
          state := SaslInProgress;
          return Done(ReadMessage);
        case WaitingAuthResultRead =>
          state := WaitingAuthResult;
          return Done(ReadMessage);
      }
    }

    /** One step: it ends startup only on ReadyForQuery, and never without the
        server having been verified if SASL was chosen. */
    method Step(m: StartupMsg) returns (r: Outcome<Request>)
      requires Valid() && state != Finished
      modifies this, scramClient
      ensures Valid()
      ensures scramClient == old(scramClient) || fresh(scramClient)
      ensures !r.Done? ==> r.Fail?
      ensures r.Done? ==> (r.value == Finish <==> state == Finished)
      ensures r.Done? && r.value != Finish && r.value != ReadMessage && r.value != HandleAsync ==> Rank() < old(Rank())
      ensures r.Done? && (r.value == ReadMessage || r.value == HandleAsync) ==> !Silent()
      ensures state == Finished ==> old(state) == WaitingReady && m.Ready?
      ensures !old(Silent()) && m.Notice? ==> r == Done(HandleAsync) && state == old(state)
      ensures !old(Silent()) && m.ParameterStatus? && !old(state.WaitingReady?) ==>
              r == Done(HandleAsync) && state == old(state)
      ensures !old(Silent()) && m.Failure? ==> r == Fail(ServerFailure(m.error)) && state == old(state)
      ensures old(state.WaitingAuth?) && m.Authentication? && PasswordFor(options, m.auth).Some? ==>
                && r == Done(Write) && state == WaitingAuthResultRead
                && written == Password(PasswordFor(options, m.auth).value)
      ensures old(chosen) ==> chosen
      ensures !old(state.WaitingReady?) ==> serverParams == old(serverParams)
      ensures old(state.Initial?) && !(options.sslMode.Require? && !options.tls) ==>
                if options.tls && !options.sslMode.Disable?
                then r == Done(WriteAndReadByte) && state == WaitingSslResponse
                else r == Done(Write) && state == WaitingAuthRead
      ensures old(state.WaitingSslResponse?) && SslAgrees(options, old(sslResponse)) && !options.sslMode.Disable? ==>
                if old(sslResponse) == 'S' then r == Done(TlsHandshake) && state == WaitingTlsHandshake
                else r == Done(Write) && state == WaitingAuthRead
      ensures old(state.WaitingTlsHandshake?) ==> r == Done(Write) && state == WaitingAuthRead
      ensures old(state.WaitingAuthRead?) ==> r == Done(ReadMessage) && state == WaitingAuth
      ensures old(state.SaslInProgressRead?) ==>
                && r == Done(ReadMessage) && state == SaslInProgress && scramClient == old(scramClient)
                && unchanged(scramClient) && written == old(written)
      ensures old(state.WaitingAuth?) && OffersScram(m) && options.password.Some? ==>
                r == Done(Write) && state == SaslInProgressRead && SaslStarted() && fresh(scramClient)
      ensures old(state.SaslInProgress?) && m.Authentication? && m.auth.SaslContinue? ==>
                && scramClient == old(scramClient)
                && (r.Done? <==> scramClient.Answerable(Fields(NO_CHALLENGE, Split(m.auth.data))))
                && (r.Done? ==> state == SaslInProgressRead && Answered(m.auth.data))
      ensures old(state.SaslInProgress?) && m.Authentication? && m.auth.SaslFinal? ==>
                (r.Done? <==> old(Accepts(m.auth.data))) && (r.Done? ==> state == WaitingAuthResult)
      ensures old(state.WaitingAuthResult?) && m == Authentication(Granted) ==> r.Done? && state == WaitingReady
      ensures old(state.WaitingReady?) && (m.ParameterStatus? || m.BackendKeyData?) ==> r.Done? && state == WaitingReady
      ensures old(state.WaitingReady?) && m.ParameterStatus? ==> serverParams == old(serverParams) + [(m.name, m.value)]
      ensures old(state.WaitingReady?) && m.BackendKeyData? ==>
                serverParams == old(serverParams) && backendKey == Some(m.key)
      ensures old(state.WaitingReady?) && m.Ready? ==>
                && r == Done(Finish) && transactionStatus == StatusOf(m.status)
                && serverParams == old(serverParams) && backendKey == old(backendKey)
    {
      hide Crypto.Sound, Genuine, Valid, SaslStarted, Answered, Accepts, Fields, Split, PasswordFor, SslAgrees;
      if Silent() {
        r := StepSilently();
        return;
      }
      if m.Notice? || (m.ParameterStatus? && state != WaitingReady) {
        return Done(HandleAsync);
      }
      if m.Failure? {
        return Fail(ServerFailure(m.error));
      }
      match state {
        case WaitingAuth => r := HandleAuthMessage(m);
        case SaslInProgress => r := HandleSaslMessage(m);
        case WaitingAuthResult => r := HandleAuthResult(m);
        case WaitingReady => r := HandleReadyMessage(m);
      }
    }

    /** The driver over anything a server may send: if it finishes, then on
        ReadyForQuery, over TLS if TLS is required, and after the server proved
        that it knows the password if SASL was chosen. */
    method Run(ms: seq<StartupMsg>, sslResponse: char) returns (finished: bool)
      requires Valid() && state == Initial && scramClient == null
      modifies this
      ensures finished ==> state == Finished && Valid()
      ensures finished && chosen ==> Verified()
      ensures finished && options.sslMode.Require? ==> secured
    {
      finished := false;
      var rest := ms;
      var m := Unknown;
      while true
        invariant Valid() && state != Finished && (scramClient == null || fresh(scramClient))
        decreases |rest|, Rank()
      {
        var r := Step(m);
        if !r.Done? {
          return;
        }
        match r.value {
          case Finish =>
            finished := true;
            return;
          case WriteAndReadByte =>
            this.sslResponse := sslResponse;
          case Write | TlsHandshake =>
          case ReadMessage | HandleAsync =>
            if rest == [] {
              return;
            }
            m, rest := rest[0], rest[1..];
        }
      }
    }
  }

  /** An honest exchange as in section 3 of RFC 5802 drives startup to its end,
      with TLS or without: the server reads the client's nonce and accepts its
      proof, the machine accepts the server's signature, and the parameters it is
      told arrive in order. */
  method HonestStartup(machine: ConnectionMachine, sslResponse: char, mechanisms: seq<string>, creds: Credentials,
                       serverNonce: string, params: seq<(string, string)>, key: nat, status: char)
    returns (verdict: Verdict, clientFirst: string, clientFinal: string)
    requires machine.Valid() && machine.state == Initial
    requires SslAgrees(machine.options, sslResponse) && "SCRAM-SHA-256" in mechanisms
    requires machine.options.password.Some? && ',' !in machine.nonce + serverNonce && machine.scramClient == null
    requires creds == Enroll(machine.crypto, machine.options.password.value, creds.salt, creds.iterations)
    requires creds.iterations < 0x1_0000_0000
    modifies machine
    ensures Challenged(machine.crypto, creds, clientFirst, serverNonce).Some?
    ensures verdict == Judge(machine.crypto, creds, clientFirst, serverNonce, clientFinal)
    ensures verdict.Accepted? && machine.Valid() && machine.state == Finished && machine.chosen && machine.Verified()
    ensures machine.serverParams == old(machine.serverParams) + params && machine.backendKey == Some(key)
    ensures Server.Reported(Some(status), machine.transactionStatus)
  {
    hide Crypto.Sound, Genuine, Enroll, Judge, Challenged;
    verdict, clientFirst, clientFinal := HonestLogin(machine, sslResponse, mechanisms, creds, serverNonce);
    var _ := machine.Step(Authentication(Granted));
    HearParameters(machine, params);
    var _ := machine.Step(BackendKeyData(key));
    var _ := machine.Step(Ready(status));
  }

  method HearParameters(machine: ConnectionMachine, params: seq<(string, string)>)
    requires machine.Valid() && machine.state == WaitingReady && machine.chosen && machine.scramClient != null
    modifies machine, machine.scramClient
    ensures machine.Valid() && machine.state == WaitingReady && machine.chosen
    ensures machine.scramClient == old(machine.scramClient) || fresh(machine.scramClient)
    ensures machine.scramClient != null
    ensures machine.serverParams == old(machine.serverParams) + params
  {
    hide Crypto.Sound, Genuine;
    for i := 0 to |params|
      invariant machine.Valid() && machine.state == WaitingReady && machine.chosen
      invariant machine.serverParams == old(machine.serverParams) + params[..i]
      invariant machine.scramClient != null
      invariant machine.scramClient == old(machine.scramClient) || fresh(machine.scramClient)
    {
      var _ := machine.Step(ParameterStatus(params[i].0, params[i].1));
      assert params[..i + 1] == params[..i] + [(params[i].0, params[i].1)];
    }
    assert params[..|params|] == params;
  }

  method HonestLogin(machine: ConnectionMachine, sslResponse: char, mechanisms: seq<string>, creds: Credentials,
                     serverNonce: string)
    returns (verdict: Verdict, clientFirst: string, clientFinal: string)
    requires machine.Valid() && machine.state == Initial
    requires SslAgrees(machine.options, sslResponse) && "SCRAM-SHA-256" in mechanisms
    requires machine.options.password.Some? && ',' !in machine.nonce + serverNonce && machine.scramClient == null
    requires creds == Enroll(machine.crypto, machine.options.password.value, creds.salt, creds.iterations)
    requires creds.iterations < 0x1_0000_0000
    modifies machine
    ensures Challenged(machine.crypto, creds, clientFirst, serverNonce).Some?
    ensures verdict == Judge(machine.crypto, creds, clientFirst, serverNonce, clientFinal)
    ensures verdict.Accepted? && machine.Valid() && machine.state == WaitingAuthResult && machine.chosen
    ensures machine.scramClient != null && fresh(machine.scramClient)
    ensures machine.serverParams == old(machine.serverParams)
  {
    hide Fields, Split, Genuine, Proof, ServerFirst, Judge, Enroll, ConnectionMachine.Verified, ReadClientFirst;
    var crypto := machine.crypto;
    clientFirst := OpenSasl(machine, sslResponse, mechanisms);
    OpeningIsRead(machine.scramClient);
    var serverFirst := Challenged(crypto, creds, clientFirst, serverNonce).value;
    HonestChallenge(crypto, creds, machine.nonce + serverNonce);
    clientFinal := AnswerChallenge(machine, serverFirst);
    HonestVerdict(crypto, machine.options.password.value, creds, machine.scramClient, serverNonce, clientFinal);
    verdict := Judge(crypto, creds, clientFirst, serverNonce, clientFinal);
    var _ := machine.Step(Authentication(SaslFinal(verdict.serverFinal)));
  }

  /** Up to the client-first-message, and on to the server's answer to it. */
  method OpenSasl(machine: ConnectionMachine, sslResponse: char, mechanisms: seq<string>) returns (clientFirst: string)
    requires machine.Valid() && machine.state == Initial
    requires SslAgrees(machine.options, sslResponse) && "SCRAM-SHA-256" in mechanisms
    requires machine.options.password.Some? && machine.scramClient == null
    modifies machine
    ensures machine.Valid() && machine.state == SaslInProgress
    ensures machine.scramClient != null && fresh(machine.scramClient)
    ensures machine.scramClient.password == machine.options.password.value
    ensures clientFirst == machine.scramClient.ClientFirstMessage()
    ensures machine.serverParams == old(machine.serverParams)
  {
    hide Fields, Split, Genuine, Proof, Crypto.Sound, ConnectionMachine.Verified, ConnectionMachine.Answered;
    hide ConnectionMachine.Accepts;
    var r := machine.Step(Unknown);
    if r.value == WriteAndReadByte {
      machine.sslResponse := sslResponse;
      r := machine.Step(Unknown);
      if r.value == TlsHandshake {
        var _ := machine.Step(Unknown);
      }
    }
    var _ := machine.Step(Unknown);
    var _ := machine.Step(Authentication(Sasl(mechanisms)));
    clientFirst := machine.written.clientFirst;
    var _ := machine.Step(Unknown);
  }

  /** Answer a challenge, and on to the server's verdict. */
  method AnswerChallenge(machine: ConnectionMachine, serverFirst: string) returns (clientFinal: string)
    requires machine.Valid() && machine.state == SaslInProgress && machine.scramClient != null
    requires machine.scramClient.Answerable(Fields(NO_CHALLENGE, Split(serverFirst)))
    modifies machine, machine.scramClient
    ensures machine.Valid() && machine.state == SaslInProgress && machine.scramClient == old(machine.scramClient)
    ensures machine.Answered(serverFirst) && machine.written == SaslResponse(clientFinal)
    ensures machine.serverParams == old(machine.serverParams)
  {
    hide Fields, Split, Genuine, Proof, ConnectionMachine.Verified, ConnectionMachine.SaslStarted;
    hide ConnectionMachine.Accepts;
    var _ := machine.Step(Authentication(SaslContinue(serverFirst)));
    clientFinal := machine.written.clientFinal;
    var _ := machine.Step(Unknown);
  }
}
