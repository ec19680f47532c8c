/** The tunnel handshake (shared/hostrpc/tunnel.go): a client and a server program joined by two queues. JSON, hash, key
    derivation and key encapsulation are parameters with the laws of `Lawful`. */
module Handshake {
  import opened Bytes

  const MAGIC := "TFN-TUNNEL"
  const VERSION := 2
  const SUITE_AES := "X25519-MLKEM768-AES256-GCM-BLAKE3"
  const SUITE_CHACHA := "X25519-MLKEM768-CHACHA20-POLY1305-BLAKE3"

  datatype Message = Message(
    magic: string, version: int, kind: string, suites: seq<string>, suite: string, nonce: Bytes, publicKey: Bytes,
    ciphertext: Bytes, verifyData: Bytes)

  const BLANK := Message(MAGIC, VERSION, "", [], "", [], [], [], [])

  /** `publicKey` is the public half of a private key; `encapsulate` takes a public key and the randomness and gives a
      ciphertext and the shared secret. */
  datatype Crypto = Crypto(
    marshal: Message -> Bytes, unmarshal: Bytes -> Option<Message>, hash: Bytes -> Bytes,
    derive: (Bytes, string, nat) -> Bytes, finish: (Bytes, Bytes) -> Bytes, publicKey: Bytes -> Bytes,
    encapsulate: (Bytes, Bytes) -> Option<(Bytes, Bytes)>, decapsulate: (Bytes, Bytes) -> Option<Bytes>)

  ghost predicate Lawful(c: Crypto) {
    && (forall m: Message :: m.magic == MAGIC && m.version == VERSION ==> c.unmarshal(c.marshal(m)) == Some(m))
    && (forall material, name, n :: |c.derive(material, name, n)| == n)
    && (forall priv :: c.publicKey(priv) != [])
    && (forall priv, coins ::
          var e := c.encapsulate(c.publicKey(priv), coins);
          e.Some? && c.decapsulate(priv, e.value.0) == Some(e.value.1))
  }

  /** The suites of both sides, their random nonces, the key pair of the server and the randomness of the client. */
  datatype Setup = Setup(
    clientSuites: seq<string>, serverSuites: seq<string>, clientNonce: Bytes, serverNonce: Bytes, priv: Bytes,
    coins: Bytes)

  /** One message of the transcript: its length in four bytes, then the message. */
  function Frame(payload: Bytes): Bytes {
    BigEndian(|payload|, 4) + payload
  }

  function Transcript(payloads: seq<Bytes>): Bytes {
    if payloads == [] then [] else Transcript(payloads[..|payloads| - 1]) + Frame(payloads[|payloads| - 1])
  }

  datatype Secrets = Secrets(
    clientKey: Bytes, serverKey: Bytes, clientSeed: Bytes, serverSeed: Bytes, clientFinish: Bytes,
    serverFinish: Bytes, digest: Bytes)

  function DeriveSecrets(c: Crypto, shared: Bytes, digest: Bytes): Secrets {
    var master := c.derive(shared + digest, "tf-linux-provider 2026-05 tunnel master", 32);
    Secrets(
      c.derive(master, "tf-linux-provider 2026-05 tunnel client key", 32),
      c.derive(master, "tf-linux-provider 2026-05 tunnel server key", 32),
      c.derive(master, "tf-linux-provider 2026-05 tunnel client nonce", 12),
      c.derive(master, "tf-linux-provider 2026-05 tunnel server nonce", 12),
      c.derive(master, "tf-linux-provider 2026-05 tunnel client finish", 32),
      c.derive(master, "tf-linux-provider 2026-05 tunnel server finish", 32),
      digest)
  }

  /** What a side has when its handshake is over; `transcript` is what it hashed. */
  datatype Keys = Keys(
    suite: string, sendKey: Bytes, recvKey: Bytes, sendSeed: Bytes, recvSeed: Bytes, transcript: Bytes)

  predicate KnownSuite(suite: string) {
    suite == SUITE_AES || suite == SUITE_CHACHA
  }

  /** newSecureChannel: both ciphers must know the suite and take the keys, and the seeds must be 12 bytes. */
  predicate Opens(k: Keys) {
    KnownSuite(k.suite) && |k.sendKey| == 32 && |k.recvKey| == 32 && |k.sendSeed| == 12 && |k.recvSeed| == 12
  }

  /** The server's first preference among the suites offered. */
  function SelectSuite(offered: seq<string>, preferred: seq<string>): Option<string> {
    if preferred == [] then None
    else if preferred[0] in offered then Some(preferred[0])
    else SelectSuite(offered, preferred[1..])
  }

  datatype Client =
    | ClientStart
    | AwaitHello(transcript: Bytes)
    | AwaitServerFinish(transcript: Bytes, suite: string, secrets: Secrets)
    | ClientOpen(keys: Keys)
    | ClientFailed

  datatype Server =
    | AwaitClientHello
    | AwaitKey(transcript: Bytes, suite: string)
    | AwaitClientFinish(transcript: Bytes, suite: string, secrets: Secrets)
    | ServerOpen(keys: Keys)
    | ServerFailed

  datatype State = State(client: Client, server: Server, toServer: seq<Bytes>, toClient: seq<Bytes>)

  const START := State(ClientStart, AwaitClientHello, [], [])

  function Accept(c: Crypto, payload: Bytes, kind: string): Option<Message> {
    var m := c.unmarshal(payload);
    if m.Some? && m.value.magic == MAGIC && m.value.kind == kind then m else None
  }

  function ClientHello(su: Setup): Message {
    BLANK.(kind := "client_hello", suites := su.clientSuites, nonce := su.clientNonce)
  }

  function ServerHello(c: Crypto, su: Setup, suite: string): Message {
    BLANK.(kind := "server_hello", suite := suite, nonce := su.serverNonce, publicKey := c.publicKey(su.priv))
  }

  function ClientKey(ciphertext: Bytes): Message {
    BLANK.(kind := "client_key", ciphertext := ciphertext)
  }

  function Finish(kind: string, verifyData: Bytes): Message {
    BLANK.(kind := kind, verifyData := verifyData)
  }

  /** The client's answer to the first message it gets. */
  function OnServerHello(c: Crypto, su: Setup, transcript: Bytes, payload: Bytes): (Client, seq<Bytes>) {
    var m := Accept(c, payload, "server_hello");
    if m.None? || m.value.version != VERSION || m.value.suite !in su.clientSuites || m.value.publicKey == []
    then (ClientFailed, []) else
      var e := c.encapsulate(m.value.publicKey, su.coins);
      if e.None? then (ClientFailed, []) else
        var key := c.marshal(ClientKey(e.value.0));
        var whole := transcript + Frame(payload) + Frame(key);
        (AwaitServerFinish(whole, m.value.suite, DeriveSecrets(c, e.value.1, c.hash(whole))), [key])
  }

  function OnServerFinish(c: Crypto, transcript: Bytes, suite: string, x: Secrets, payload: Bytes)
    : (Client, seq<Bytes>)
  {
    var m := Accept(c, payload, "server_finish");
    if m.None? || m.value.verifyData != c.finish(x.serverFinish, x.digest) then (ClientFailed, []) else
      var keys := Keys(suite, x.clientKey, x.serverKey, x.clientSeed, x.serverSeed, transcript);
      (if Opens(keys) then ClientOpen(keys) else ClientFailed,
       [c.marshal(Finish("client_finish", c.finish(x.clientFinish, x.digest)))])
  }

  function OnClientHello(c: Crypto, su: Setup, payload: Bytes): (Server, seq<Bytes>) {
    var m := Accept(c, payload, "client_hello");
    if m.None? || m.value.version != VERSION then (ServerFailed, []) else
      var suite := SelectSuite(m.value.suites, su.serverSuites);
      if suite.None? then (ServerFailed, []) else
        var hello := c.marshal(ServerHello(c, su, suite.value));
        (AwaitKey(Frame(payload) + Frame(hello), suite.value), [hello])
  }

  function OnClientKey(c: Crypto, su: Setup, transcript: Bytes, suite: string, payload: Bytes): (Server, seq<Bytes>) {
    var m := Accept(c, payload, "client_key");
    if m.None? then (ServerFailed, []) else
      var shared := c.decapsulate(su.priv, m.value.ciphertext);
      if shared.None? then (ServerFailed, []) else
        var whole := transcript + Frame(payload);
        var x := DeriveSecrets(c, shared.value, c.hash(whole));
        (AwaitClientFinish(whole, suite, x), [c.marshal(Finish("server_finish", c.finish(x.serverFinish, x.digest)))])
  }

  function OnClientFinish(c: Crypto, transcript: Bytes, suite: string, x: Secrets, payload: Bytes): Server {
    var m := Accept(c, payload, "client_finish");
    if m.None? || m.value.verifyData != c.finish(x.clientFinish, x.digest) then ServerFailed else
      var keys := Keys(suite, x.serverKey, x.clientKey, x.serverSeed, x.clientSeed, transcript);
      if Opens(keys) then ServerOpen(keys) else ServerFailed
  }

  /** One step of a side: it sends its next message, or takes a message, or fails because the other side failed and
      closed the base. None: it has to wait, or it is done. */
  function ClientStep(c: Crypto, su: Setup, s: State): Option<State> {
    match s.client
    case ClientStart =>
      var hello := c.marshal(ClientHello(su));
      Some(s.(client := AwaitHello(Frame(hello)), toServer := s.toServer + [hello]))
    case AwaitHello(transcript) =>
      if s.toClient == [] then (if s.server.ServerFailed? then Some(s.(client := ClientFailed)) else None) else
        var r := OnServerHello(c, su, transcript, s.toClient[0]);
        Some(s.(client := r.0, toServer := s.toServer + r.1, toClient := s.toClient[1..]))
    case AwaitServerFinish(transcript, suite, x) =>
      if s.toClient == [] then (if s.server.ServerFailed? then Some(s.(client := ClientFailed)) else None) else
        var r := OnServerFinish(c, transcript, suite, x, s.toClient[0]);
        Some(s.(client := r.0, toServer := s.toServer + r.1, toClient := s.toClient[1..]))
    case _ => None
  }

  function ServerStep(c: Crypto, su: Setup, s: State): Option<State> {
    if s.server.ServerOpen? || s.server.ServerFailed? then None
    else if s.toServer == [] then (if s.client.ClientFailed? then Some(s.(server := ServerFailed)) else None)
    else
      var rest := s.(toServer := s.toServer[1..]);
      match s.server
      case AwaitClientHello =>
        var r := OnClientHello(c, su, s.toServer[0]);
        Some(rest.(server := r.0, toClient := s.toClient + r.1))
      case AwaitKey(transcript, suite) =>
        var r := OnClientKey(c, su, transcript, suite, s.toServer[0]);
        Some(rest.(server := r.0, toClient := s.toClient + r.1))
      case AwaitClientFinish(transcript, suite, x) =>
        Some(rest.(server := OnClientFinish(c, transcript, suite, x, s.toServer[0])))
  }

  datatype Side = ClientSide | ServerSide

  function Step(c: Crypto, su: Setup, s: State, side: Side): Option<State> {
    if side.ClientSide? then ClientStep(c, su, s) else ServerStep(c, su, s)
  }

  /** A schedule says which side moves next. */
  function Exec(c: Crypto, su: Setup, schedule: seq<Side>): Option<State> {
    if schedule == [] then Some(START) else
      var before := Exec(c, su, schedule[..|schedule| - 1]);
      if before.None? then None else Step(c, su, before.value, schedule[|schedule| - 1])
  }
}
