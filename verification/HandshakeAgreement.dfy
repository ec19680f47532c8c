/** Over a faithful base the two handshake programs reach the same end under every schedule, and agree there. */
module HandshakeAgreement {
  import opened Bytes
  import opened Handshake

  /** What selectTunnelSuite chooses: the first preference of the server that was offered. */
  lemma {:induction false} SelectedIsTheFirstPreference(offered: seq<string>, preferred: seq<string>, k: nat)
    requires k < |preferred| && preferred[k] in offered
    requires forall j :: 0 <= j < k ==> preferred[j] !in offered
    ensures SelectSuite(offered, preferred) == Some(preferred[k])
  {
    if k == 0 {
    } else {
      SelectedIsTheFirstPreference(offered, preferred[1..], k - 1);
    }
  }

  lemma {:induction false} SelectedIffCommon(offered: seq<string>, preferred: seq<string>)
    ensures SelectSuite(offered, preferred).Some? <==> exists suite :: suite in preferred && suite in offered
    ensures SelectSuite(offered, preferred).Some? ==>
              SelectSuite(offered, preferred).value in preferred && SelectSuite(offered, preferred).value in offered
  {
    if preferred == [] {
    } else {
      SelectedIffCommon(offered, preferred[1..]);
      assert forall suite :: suite in preferred <==> suite == preferred[0] || suite in preferred[1..];
    }
  }

  /** The two loops of the selection: preferences outside, offers (containsString) inside. */
  method SelectTunnelSuite(offered: seq<string>, preferred: seq<string>) returns (suite: Option<string>)
    ensures suite == SelectSuite(offered, preferred)
    ensures suite.None? ==> forall s :: s in preferred ==> s !in offered
  {
    SelectedIffCommon(offered, preferred);
    for n := 0 to |preferred|
      invariant forall j :: 0 <= j < n ==> preferred[j] !in offered
    {
      var found := ContainsString(offered, preferred[n]);
      if found {
        SelectedIsTheFirstPreference(offered, preferred, n);
        return Some(preferred[n]);
      }
    }
    return None;
  }

  method ContainsString(values: seq<string>, want: string) returns (found: bool)
    ensures found <==> want in values
  {
    for n := 0 to |values|
      invariant want !in values[..n]
    {
      if values[n] == want { return true; }
    }
    assert values[..|values|] == values;
    return false;
  }

  lemma {:induction false} TranscriptOfCons(p: Bytes, ps: seq<Bytes>)
    ensures Transcript([p] + ps) == Frame(p) + Transcript(ps)
  {
    hide Frame;
    if ps == [] {
      assert [p] + ps == [p] && [p][..0] == [];
      assert Transcript([]) == [];
    } else {
      var front, last := ps[..|ps| - 1], ps[|ps| - 1];
      assert ([p] + ps)[..|ps|] == [p] + front;
      TranscriptOfCons(p, front);
    }
  }

  /** The framing of the transcript is injective for payloads below 2^32 bytes: the digest of a transcript is the digest
      of one list of messages only. */
  lemma {:induction false} TranscriptIsInjective(ps: seq<Bytes>, qs: seq<Bytes>)
    requires forall p :: p in ps || p in qs ==> |p| < UINT32_VALUES
    requires Transcript(ps) == Transcript(qs)
    ensures ps == qs
    decreases |ps|
  {
    if ps == [] || qs == [] {
      if ps != [] { TranscriptIsLong(ps); }
      if qs != [] { TranscriptIsLong(qs); }
    } else {
      var t := Transcript(ps);
      assert ps == [ps[0]] + ps[1..] && qs == [qs[0]] + qs[1..];
      TranscriptOfCons(ps[0], ps[1..]);
      TranscriptOfCons(qs[0], qs[1..]);
      assert ps[0] in ps && qs[0] in qs;
      FrameIsRead(ps[0], Transcript(ps[1..]));
      FrameIsRead(qs[0], Transcript(qs[1..]));
      TranscriptIsInjective(ps[1..], qs[1..]);
    }
  }

  lemma TranscriptIsLong(ps: seq<Bytes>)
    requires ps != []
    ensures |Transcript(ps)| >= 4
  {}

  /** A reader of the four length bytes knows where the payload ends. */
  lemma FrameIsRead(p: Bytes, rest: Bytes)
    requires |p| < UINT32_VALUES
    ensures var t := Frame(p) + rest;
            && |t| >= 4 + |p| && FromBigEndian(t[..4]) == |p|
            && t[4..4 + |p|] == p && t[4 + |p|..] == rest
  {
    Widths();
    BigEndianRoundTrip(|p|, 4);
    var t := Frame(p) + rest;
    assert t[..4] == BigEndian(|p|, 4);
  }

  /** The messages and secrets of the only run there is. */
  datatype Script = Script(hello: Bytes, suite: string, answer: Bytes, key: Bytes, whole: Bytes, secrets: Secrets)

  function Played(c: Crypto, su: Setup, suite: string): Option<Script> {
    var hello := c.marshal(ClientHello(su));
    var answer := c.marshal(ServerHello(c, su, suite));
    var e := c.encapsulate(c.publicKey(su.priv), su.coins);
    if e.None? then None else
      var key := c.marshal(ClientKey(e.value.0));
      var whole := Frame(hello) + Frame(answer) + Frame(key);
      Some(Script(hello, suite, answer, key, whole, DeriveSecrets(c, e.value.1, c.hash(whole))))
  }

  function ClientKeys(p: Script): Keys {
    Keys(p.suite, p.secrets.clientKey, p.secrets.serverKey, p.secrets.clientSeed, p.secrets.serverSeed, p.whole)
  }

  function ServerKeys(p: Script): Keys {
    Keys(p.suite, p.secrets.serverKey, p.secrets.clientKey, p.secrets.serverSeed, p.secrets.clientSeed, p.whole)
  }

  function ClientEnd(p: Script): Client {
    if Opens(ClientKeys(p)) then ClientOpen(ClientKeys(p)) else ClientFailed
  }

  function ServerEnd(p: Script): Server {
    if Opens(ServerKeys(p)) then ServerOpen(ServerKeys(p)) else ServerFailed
  }

  function ServerFinish(c: Crypto, x: Secrets): Bytes {
    c.marshal(Finish("server_finish", c.finish(x.serverFinish, x.digest)))
  }

  function ClientFinish(c: Crypto, x: Secrets): Bytes {
    c.marshal(Finish("client_finish", c.finish(x.clientFinish, x.digest)))
  }

  /** The state after k steps when the sides have a suite in common. */
  function Stage(c: Crypto, p: Script, k: nat): State
    requires k <= 6
  {
    var x := p.secrets;
    var greeted := Frame(p.hello) + Frame(p.answer);
    if k == 0 then START
    else if k == 1 then State(AwaitHello(Frame(p.hello)), AwaitClientHello, [p.hello], [])
    else if k == 2 then State(AwaitHello(Frame(p.hello)), AwaitKey(greeted, p.suite), [], [p.answer])
    else if k == 3 then State(AwaitServerFinish(p.whole, p.suite, x), AwaitKey(greeted, p.suite), [p.key], [])
    else if k == 4 then
      State(AwaitServerFinish(p.whole, p.suite, x), AwaitClientFinish(p.whole, p.suite, x), [], [ServerFinish(c, x)])
    else if k == 5 then State(ClientEnd(p), AwaitClientFinish(p.whole, p.suite, x), [ClientFinish(c, x)], [])
    else State(ClientEnd(p), ServerEnd(p), [], [])
  }

  /** The state after k steps when they have none. */
  function FailedStage(c: Crypto, su: Setup, k: nat): State
    requires k <= 3
  {
    var hello := c.marshal(ClientHello(su));
    if k == 0 then START
    else if k == 1 then State(AwaitHello(Frame(hello)), AwaitClientHello, [hello], [])
    else if k == 2 then State(AwaitHello(Frame(hello)), ServerFailed, [], [])
    else State(ClientFailed, ServerFailed, [], [])
  }

  /** Whose turn it is: the sides alternate, the client first. */
  function Mover(k: nat): Side {
    if k % 2 == 0 then ClientSide else ServerSide
  }

  predicate Common(su: Setup) {
    SelectSuite(su.clientSuites, su.serverSuites).Some?
  }

  function TheScript(c: Crypto, su: Setup): Script
    requires Common(su) && c.encapsulate(c.publicKey(su.priv), su.coins).Some?
  {
    Played(c, su, SelectSuite(su.clientSuites, su.serverSuites).value).value
  }

  /** The four answers and the last check, on the messages of the script. */
  lemma AnswersToHellos(c: Crypto, su: Setup)
    requires Lawful(c) && Common(su)
    ensures c.encapsulate(c.publicKey(su.priv), su.coins).Some?
    ensures var p := TheScript(c, su);
            && OnClientHello(c, su, p.hello) == (AwaitKey(Frame(p.hello) + Frame(p.answer), p.suite), [p.answer])
            && OnServerHello(c, su, Frame(p.hello), p.answer)
               == (AwaitServerFinish(p.whole, p.suite, p.secrets), [p.key])
  {
    hide DeriveSecrets, Frame, SelectSuite;
    SelectedIffCommon(su.clientSuites, su.serverSuites);
    var p := TheScript(c, su);
    assert c.unmarshal(p.hello) == Some(ClientHello(su));
    assert c.unmarshal(p.answer) == Some(ServerHello(c, su, p.suite));
  }

  lemma AnswersToKeys(c: Crypto, su: Setup)
    requires Lawful(c) && Common(su)
    ensures c.encapsulate(c.publicKey(su.priv), su.coins).Some?
    ensures var p := TheScript(c, su);
            var x := p.secrets;
            && OnClientKey(c, su, Frame(p.hello) + Frame(p.answer), p.suite, p.key)
               == (AwaitClientFinish(p.whole, p.suite, x), [ServerFinish(c, x)])
            && OnServerFinish(c, p.whole, p.suite, x, ServerFinish(c, x)) == (ClientEnd(p), [ClientFinish(c, x)])
            && OnClientFinish(c, p.whole, p.suite, x, ClientFinish(c, x)) == ServerEnd(p)
  {
    hide DeriveSecrets, Frame, SelectSuite, KnownSuite, Opens;
    var p := TheScript(c, su);
    var e := c.encapsulate(c.publicKey(su.priv), su.coins).value;
    assert c.unmarshal(p.key) == Some(ClientKey(e.0));
    assert c.unmarshal(ServerFinish(c, p.secrets))
        == Some(Finish("server_finish", c.finish(p.secrets.serverFinish, p.secrets.digest)));
    assert c.unmarshal(ClientFinish(c, p.secrets))
        == Some(Finish("client_finish", c.finish(p.secrets.clientFinish, p.secrets.digest)));
  }

  lemma ClientStages(c: Crypto, su: Setup, k: nat)
    requires Lawful(c) && Common(su) && k <= 6
    ensures c.encapsulate(c.publicKey(su.priv), su.coins).Some?
    ensures ClientStep(c, su, Stage(c, TheScript(c, su), k))
            == if k < 6 && Mover(k) == ClientSide then Some(Stage(c, TheScript(c, su), k + 1)) else None
  {
    hide OnClientHello, OnServerHello, OnClientKey, OnServerFinish, OnClientFinish, Lawful, Frame, Common, ServerFinish,
      ClientFinish, Opens;
    AnswersToHellos(c, su);
    AnswersToKeys(c, su);
    var p := TheScript(c, su);
    assert p.hello == c.marshal(ClientHello(su));
    TakeOne(p.hello);
    TakeOne(p.answer);
    TakeOne(p.key);
    TakeOne(ServerFinish(c, p.secrets));
    TakeOne(ClientFinish(c, p.secrets));
  }

  lemma ServerStages(c: Crypto, su: Setup, k: nat)
    requires Lawful(c) && Common(su) && k <= 6
    ensures c.encapsulate(c.publicKey(su.priv), su.coins).Some?
    ensures ServerStep(c, su, Stage(c, TheScript(c, su), k))
            == if k < 6 && Mover(k) == ServerSide then Some(Stage(c, TheScript(c, su), k + 1)) else None
  {
    hide OnClientHello, OnServerHello, OnClientKey, OnServerFinish, OnClientFinish, Lawful, Frame, Common, ServerFinish,
      ClientFinish, Opens;
    AnswersToHellos(c, su);
    AnswersToKeys(c, su);
    var p := TheScript(c, su);
    assert p.hello == c.marshal(ClientHello(su));
    TakeOne(p.hello);
    TakeOne(p.answer);
    TakeOne(p.key);
    TakeOne(ServerFinish(c, p.secrets));
    TakeOne(ClientFinish(c, p.secrets));
  }

  lemma StageSteps(c: Crypto, su: Setup, k: nat, side: Side)
    requires Lawful(c) && Common(su) && k <= 6
    ensures c.encapsulate(c.publicKey(su.priv), su.coins).Some?
    ensures Step(c, su, Stage(c, TheScript(c, su), k), side)
            == if k < 6 && side == Mover(k) then Some(Stage(c, TheScript(c, su), k + 1)) else None
  {
    hide ClientStep, ServerStep, Stage, Lawful, Common, TheScript;
    ClientStages(c, su, k);
    ServerStages(c, su, k);
  }

  /** A queue that holds one message. */
  lemma TakeOne(m: Bytes)
    ensures var none: seq<Bytes> := []; none + [m] == [m] && [m][1..] == none && none + none == none
  {}

  lemma FailedStageSteps(c: Crypto, su: Setup, k: nat, side: Side)
    requires Lawful(c) && !Common(su) && k <= 3
    ensures Step(c, su, FailedStage(c, su, k), side)
            == if k < 3 && side == Mover(k) then Some(FailedStage(c, su, k + 1)) else None
  {
    var hello := c.marshal(ClientHello(su));
    assert c.unmarshal(hello) == Some(ClientHello(su));
    assert OnClientHello(c, su, hello) == (ServerFailed, []);
    TakeOne(hello);
  }

  /** Every schedule the two programs can follow is a prefix of the one that alternates. */
  lemma {:induction false} EveryScheduleIsTheScript(c: Crypto, su: Setup, schedule: seq<Side>)
    requires Lawful(c) && Exec(c, su, schedule).Some?
    ensures Common(su) ==>
              && c.encapsulate(c.publicKey(su.priv), su.coins).Some? && |schedule| <= 6
              && Exec(c, su, schedule) == Some(Stage(c, TheScript(c, su), |schedule|))
    ensures !Common(su) ==> |schedule| <= 3 && Exec(c, su, schedule) == Some(FailedStage(c, su, |schedule|))
  {
    hide Step, Lawful, Common, TheScript;
    if schedule == [] {
      if Common(su) { StageSteps(c, su, 0, ClientSide); }
    } else {
      var before, side := schedule[..|schedule| - 1], schedule[|schedule| - 1];
      EveryScheduleIsTheScript(c, su, before);
      if Common(su) { StageSteps(c, su, |before|, side); } else { FailedStageSteps(c, su, |before|, side); }
    }
  }

  /** Neither side can move any more. */
  predicate Over(c: Crypto, su: Setup, s: State) {
    Step(c, su, s, ClientSide).None? && Step(c, su, s, ServerSide).None?
  }

  /** The handshake cannot get stuck: under every schedule it ends, after at most six steps, with both sides open
      exactly when the lists have a common suite whose first server preference the ciphers know, and with both sides
      failed otherwise. */
  lemma HandshakeCompletes(c: Crypto, su: Setup, schedule: seq<Side>)
    requires Lawful(c) && Exec(c, su, schedule).Some?
    ensures |schedule| <= 6
    ensures Over(c, su, Exec(c, su, schedule).value) <==> |schedule| == if Common(su) then 6 else 3
    ensures var s := Exec(c, su, schedule).value;
            var suite := SelectSuite(su.clientSuites, su.serverSuites);
            Over(c, su, s) ==>
              if suite in {Some("X25519-MLKEM768-AES256-GCM-BLAKE3"), Some("X25519-MLKEM768-CHACHA20-POLY1305-BLAKE3")}
              then s.client.ClientOpen? && s.server.ServerOpen?
              else s.client.ClientFailed? && s.server.ServerFailed?
  {
    hide Step, Lawful, Stage, FailedStage, SelectSuite;
    EveryScheduleIsTheScript(c, su, schedule);
    if Common(su) {
      StageSteps(c, su, |schedule|, ClientSide);
      StageSteps(c, su, |schedule|, ServerSide);
      LastStage(c, su);
    } else {
      FailedStageSteps(c, su, |schedule|, ClientSide);
      FailedStageSteps(c, su, |schedule|, ServerSide);
      assert FailedStage(c, su, 3).client.ClientFailed? && FailedStage(c, su, 3).server.ServerFailed? by {
        LastFailedStage(c, su);
      }
    }
  }

  lemma LastFailedStage(c: Crypto, su: Setup)
    ensures FailedStage(c, su, 3) == State(ClientFailed, ServerFailed, [], [])
  {}

  /** Derived keys and seeds have the lengths the ciphers want. */
  lemma DerivedKeysOpen(c: Crypto, shared: Bytes, digest: Bytes, p: Script)
    requires Lawful(c) && p.secrets == DeriveSecrets(c, shared, digest)
    ensures Opens(ClientKeys(p)) <==> KnownSuite(p.suite)
    ensures Opens(ServerKeys(p)) <==> KnownSuite(p.suite)
  {
    hide KnownSuite;
    var x := p.secrets;
    assert |x.clientKey| == 32 && |x.serverKey| == 32 && |x.clientSeed| == 12 && |x.serverSeed| == 12;
  }

  lemma LastStage(c: Crypto, su: Setup)
    requires Lawful(c) && Common(su) && c.encapsulate(c.publicKey(su.priv), su.coins).Some?
    ensures var p := TheScript(c, su);
            && p.suite == SelectSuite(su.clientSuites, su.serverSuites).value
            && Stage(c, p, 6) == State(ClientEnd(p), ServerEnd(p), [], [])
            && (if KnownSuite(p.suite) then ClientEnd(p).ClientOpen? && ServerEnd(p).ServerOpen?
                else ClientEnd(p).ClientFailed? && ServerEnd(p).ServerFailed?)
  {
    hide Opens, DeriveSecrets, KnownSuite, SelectSuite, Frame, Lawful;
    var p := TheScript(c, su);
    DerivedKeysOpen(c, c.encapsulate(c.publicKey(su.priv), su.coins).value.1, c.hash(p.whole), p);
  }

  /** When both sides are open they agree: one transcript, which is that of the three messages the digest covers; the
      suite the server prefers; and keys and seeds that cross. */
  lemma OpenSidesAgree(c: Crypto, su: Setup, schedule: seq<Side>)
    requires Lawful(c) && Exec(c, su, schedule).Some?
    requires Exec(c, su, schedule).value.client.ClientOpen? && Exec(c, su, schedule).value.server.ServerOpen?
    ensures var a, b := Exec(c, su, schedule).value.client.keys, Exec(c, su, schedule).value.server.keys;
            && a.sendKey == b.recvKey && a.recvKey == b.sendKey
            && a.sendSeed == b.recvSeed && a.recvSeed == b.sendSeed
            && a.suite == b.suite && Some(a.suite) == SelectSuite(su.clientSuites, su.serverSuites)
            && a.transcript == b.transcript
            && exists hello, answer, key :: a.transcript == Transcript([hello, answer, key])
                 && c.unmarshal(hello) == Some(ClientHello(su))
                 && c.unmarshal(answer) == Some(ServerHello(c, su, a.suite))
  {
    hide Step, Frame;
    EveryScheduleIsTheScript(c, su, schedule);
    if Common(su) {
      var p := TheScript(c, su);
      TranscriptOfThree(p.hello, p.answer, p.key);
      assert c.unmarshal(p.hello) == Some(ClientHello(su));
      assert c.unmarshal(p.answer) == Some(ServerHello(c, su, p.suite));
    }
  }

  /** The derivation of 32-byte keys and of 12-byte seeds gives something else for each purpose, whatever the secret. */
  ghost predicate Separates(c: Crypto) {
    && (forall secret, a, b :: a in KEY_LABELS && b in KEY_LABELS && a != b ==>
          c.derive(secret, a, 32) != c.derive(secret, b, 32))
    && (forall secret ::
          c.derive(secret, "tf-linux-provider 2026-05 tunnel client nonce", 12)
          != c.derive(secret, "tf-linux-provider 2026-05 tunnel server nonce", 12))
  }

  const KEY_LABELS := {
    "tf-linux-provider 2026-05 tunnel client key", "tf-linux-provider 2026-05 tunnel server key",
    "tf-linux-provider 2026-05 tunnel client finish", "tf-linux-provider 2026-05 tunnel server finish"}

  /** The two directions share neither a key nor a seed, so no key is used twice with one nonce; nor does one side's
      finish key serve the other, or serve as a key of a direction. */
  lemma DirectionsAreSeparate(c: Crypto, su: Setup, schedule: seq<Side>)
    requires Lawful(c) && Separates(c) && Exec(c, su, schedule).Some?
    ensures var s := Exec(c, su, schedule).value;
            && (s.client.ClientOpen? ==>
                  s.client.keys.sendKey != s.client.keys.recvKey && s.client.keys.sendSeed != s.client.keys.recvSeed)
            && (s.server.ServerOpen? ==>
                  s.server.keys.sendKey != s.server.keys.recvKey && s.server.keys.sendSeed != s.server.keys.recvSeed)
  {
    hide Step, Frame, Lawful, DeriveSecrets, Separates, Opens, SelectSuite;
    EveryScheduleIsTheScript(c, su, schedule);
    if Common(su) {
      var p := TheScript(c, su);
      SecretsAreSeparate(c, c.encapsulate(c.publicKey(su.priv), su.coins).value.1, c.hash(p.whole));
    }
  }

  lemma SecretsAreSeparate(c: Crypto, shared: Bytes, digest: Bytes)
    requires Separates(c)
    ensures var x := DeriveSecrets(c, shared, digest);
            && x.clientKey != x.serverKey && x.clientSeed != x.serverSeed && x.clientFinish != x.serverFinish
            && {x.clientFinish, x.serverFinish} !! {x.clientKey, x.serverKey}
  {
  }

  /** The derivation gives something else for two different secrets, whatever the purpose. */
  ghost predicate TellsApart(c: Crypto, x: Bytes, y: Bytes) {
    x != y ==>
      && c.derive(x, "tf-linux-provider 2026-05 tunnel master", 32)
         != c.derive(y, "tf-linux-provider 2026-05 tunnel master", 32)
      && c.derive(x, "tf-linux-provider 2026-05 tunnel client key", 32)
         != c.derive(y, "tf-linux-provider 2026-05 tunnel client key", 32)
      && c.derive(x, "tf-linux-provider 2026-05 tunnel server key", 32)
         != c.derive(y, "tf-linux-provider 2026-05 tunnel server key", 32)
      && c.derive(x, "tf-linux-provider 2026-05 tunnel client nonce", 12)
         != c.derive(y, "tf-linux-provider 2026-05 tunnel client nonce", 12)
      && c.derive(x, "tf-linux-provider 2026-05 tunnel server nonce", 12)
         != c.derive(y, "tf-linux-provider 2026-05 tunnel server nonce", 12)
      && c.derive(x, "tf-linux-provider 2026-05 tunnel client finish", 32)
         != c.derive(y, "tf-linux-provider 2026-05 tunnel client finish", 32)
      && c.derive(x, "tf-linux-provider 2026-05 tunnel server finish", 32)
         != c.derive(y, "tf-linux-provider 2026-05 tunnel server finish", 32)
  }

  function Master(c: Crypto, material: Bytes): Bytes {
    c.derive(material, "tf-linux-provider 2026-05 tunnel master", 32)
  }

  /** Every derived key and seed depends on the shared secret and on the digest of the transcript. */
  lemma SecretsBindTheTranscript(c: Crypto, shared: Bytes, digest: Bytes, shared': Bytes, digest': Bytes)
    requires |digest| == |digest'| && (shared, digest) != (shared', digest')
    requires TellsApart(c, shared + digest, shared' + digest')
    requires TellsApart(c, Master(c, shared + digest), Master(c, shared' + digest'))
    ensures var x, y := DeriveSecrets(c, shared, digest), DeriveSecrets(c, shared', digest');
            && x.clientKey != y.clientKey && x.serverKey != y.serverKey
            && x.clientSeed != y.clientSeed && x.serverSeed != y.serverSeed
            && x.clientFinish != y.clientFinish && x.serverFinish != y.serverFinish
  {
    JoinedDiffer(shared, digest, shared', digest');
  }

  lemma JoinedDiffer(a: Bytes, b: Bytes, a': Bytes, b': Bytes)
    requires |b| == |b'| && (a, b) != (a', b')
    ensures a + b != a' + b'
  {
    var m, m' := a + b, a' + b';
    assert m[..|m| - |b|] == a && m[|m| - |b|..] == b;
    assert m'[..|m'| - |b'|] == a' && m'[|m'| - |b'|..] == b';
  }

  /** The secret that the encapsulation of a setup shares, and the digest of what was hashed. */
  function Material(c: Crypto, su: Setup, transcript: Bytes): (Bytes, Bytes)
    requires c.encapsulate(c.publicKey(su.priv), su.coins).Some?
  {
    (c.encapsulate(c.publicKey(su.priv), su.coins).value.1, c.hash(transcript))
  }

  /** Two handshakes whose transcripts, or whose shared secrets, differ end with different keys and seeds. */
  lemma OtherTranscriptOtherKeys(
      c: Crypto, su: Setup, schedule: seq<Side>, su': Setup, schedule': seq<Side>)
    requires Lawful(c) && Exec(c, su, schedule).Some? && Exec(c, su', schedule').Some?
    requires Exec(c, su, schedule).value.client.ClientOpen? && Exec(c, su', schedule').value.client.ClientOpen?
    requires c.encapsulate(c.publicKey(su.priv), su.coins).Some?
    requires c.encapsulate(c.publicKey(su'.priv), su'.coins).Some?
    requires var k, k' := Exec(c, su, schedule).value.client.keys, Exec(c, su', schedule').value.client.keys;
             var x, y := Material(c, su, k.transcript), Material(c, su', k'.transcript);
             && x != y && |x.1| == |y.1| && TellsApart(c, x.0 + x.1, y.0 + y.1)
             && TellsApart(c, Master(c, x.0 + x.1), Master(c, y.0 + y.1))
    ensures var k, k' := Exec(c, su, schedule).value.client.keys, Exec(c, su', schedule').value.client.keys;
            && k.sendKey != k'.sendKey && k.recvKey != k'.recvKey
            && k.sendSeed != k'.sendSeed && k.recvSeed != k'.recvSeed
  {
    hide Step, Frame, Lawful, DeriveSecrets, TellsApart, Opens, SelectSuite, Master;
    EveryScheduleIsTheScript(c, su, schedule);
    EveryScheduleIsTheScript(c, su', schedule');
    var p, q := TheScript(c, su), TheScript(c, su');
    var x, y := Material(c, su, p.whole), Material(c, su', q.whole);
    SecretsBindTheTranscript(c, x.0, x.1, y.0, y.1);
  }

  /** The finish digests of two sets of secrets with different keys differ. */
  ghost predicate FinishTellsApart(c: Crypto, x: Secrets, y: Secrets) {
    && (x.serverFinish != y.serverFinish ==> c.finish(x.serverFinish, x.digest) != c.finish(y.serverFinish, y.digest))
    && (x.clientFinish != y.clientFinish ==> c.finish(x.clientFinish, x.digest) != c.finish(y.clientFinish, y.digest))
  }

  /** What the finish messages are for: a side that saw another transcript, or shares another secret, is refused by its
      peer, whoever changed the messages in between. */
  lemma SidesThatDisagreeFail(
      c: Crypto, su: Setup, mine: Bytes, theirs: Bytes, shared: Bytes, shared': Bytes, suite: string)
    requires Lawful(c) && |c.hash(mine)| == |c.hash(theirs)| && (shared, c.hash(mine)) != (shared', c.hash(theirs))
    requires TellsApart(c, shared + c.hash(mine), shared' + c.hash(theirs))
    requires TellsApart(c, Master(c, shared + c.hash(mine)), Master(c, shared' + c.hash(theirs)))
    requires FinishTellsApart(
               c, DeriveSecrets(c, shared, c.hash(mine)), DeriveSecrets(c, shared', c.hash(theirs)))
    ensures var x, y := DeriveSecrets(c, shared, c.hash(mine)), DeriveSecrets(c, shared', c.hash(theirs));
            && OnServerFinish(c, mine, suite, x, ServerFinish(c, y)).0.ClientFailed?
            && OnClientFinish(c, mine, suite, x, ClientFinish(c, y)).ServerFailed?
  {
    hide DeriveSecrets, TellsApart, Master, Opens;
    var x, y := DeriveSecrets(c, shared, c.hash(mine)), DeriveSecrets(c, shared', c.hash(theirs));
    SecretsBindTheTranscript(c, shared, c.hash(mine), shared', c.hash(theirs));
    assert c.unmarshal(ServerFinish(c, y)) == Some(Finish("server_finish", c.finish(y.serverFinish, y.digest)));
    assert c.unmarshal(ClientFinish(c, y)) == Some(Finish("client_finish", c.finish(y.clientFinish, y.digest)));
  }

  // Over a base that hands over any bytes whatever.

  /** The client after two messages from the base. */
  function ClientAfter(c: Crypto, su: Setup, answer: Bytes, finish: Bytes): (Client, Client)
  {
    var first := OnServerHello(c, su, Frame(c.marshal(ClientHello(su))), answer).0;
    (first, if first.AwaitServerFinish? then OnServerFinish(c, first.transcript, first.suite, first.secrets, finish).0
            else first)
  }

  /** The server after three messages from the base. */
  function ServerAfter(c: Crypto, su: Setup, hello: Bytes, key: Bytes, finish: Bytes): (Server, Server) {
    var first := OnClientHello(c, su, hello).0;
    if !first.AwaitKey? then (first, first) else
      var second := OnClientKey(c, su, first.transcript, first.suite, key).0;
      (second, if second.AwaitClientFinish?
               then OnClientFinish(c, second.transcript, second.suite, second.secrets, finish) else second)
  }

  predicate Says(c: Crypto, payload: Bytes, kind: string) {
    c.unmarshal(payload).Some? && c.unmarshal(payload).value.magic == "TFN-TUNNEL"
    && c.unmarshal(payload).value.kind == kind
  }

  /** A client opens only on an answer of the right kind and version that names a suite it offered, known to its
      ciphers, and a public key, and on a finish message made with the secrets of its own transcript. */
  lemma OpenClientHasChecked(c: Crypto, su: Setup, answer: Bytes, finish: Bytes)
    requires ClientAfter(c, su, answer, finish).1.ClientOpen?
    ensures Says(c, answer, "server_hello") && Says(c, finish, "server_finish")
    ensures var (waiting, open) := ClientAfter(c, su, answer, finish);
            var m := c.unmarshal(answer).value;
            && m.version == 2 && m.suite in su.clientSuites && KnownSuite(m.suite) && m.publicKey != []
            && c.encapsulate(m.publicKey, su.coins).Some?
            && waiting.AwaitServerFinish? && open.keys.suite == m.suite && open.keys.transcript == waiting.transcript
            && waiting.transcript == Transcript([c.marshal(ClientHello(su)), answer,
                                                 c.marshal(ClientKey(c.encapsulate(m.publicKey, su.coins).value.0))])
            && waiting.secrets == DeriveSecrets(c, c.encapsulate(m.publicKey, su.coins).value.1,
                                                c.hash(waiting.transcript))
            && c.unmarshal(finish).value.verifyData == c.finish(waiting.secrets.serverFinish, waiting.secrets.digest)
  {
    hide Frame, DeriveSecrets, Transcript;
    var m := c.unmarshal(answer).value;
    TranscriptOfThree(c.marshal(ClientHello(su)), answer,
                      c.marshal(ClientKey(c.encapsulate(m.publicKey, su.coins).value.0)));
  }

  /** A server opens only on an offer of the right kind and version from which it chose its first preference, on a key
      message that it could decapsulate, and on a finish message made with the secrets of its own transcript. */
  lemma OpenServerHasChecked(c: Crypto, su: Setup, hello: Bytes, key: Bytes, finish: Bytes)
    requires ServerAfter(c, su, hello, key, finish).1.ServerOpen?
    ensures Says(c, hello, "client_hello") && Says(c, key, "client_key") && Says(c, finish, "client_finish")
    ensures var (waiting, open) := ServerAfter(c, su, hello, key, finish);
            var offer := c.unmarshal(hello).value;
            var shared := c.decapsulate(su.priv, c.unmarshal(key).value.ciphertext);
            && offer.version == 2 && SelectSuite(offer.suites, su.serverSuites) == Some(open.keys.suite)
            && KnownSuite(open.keys.suite) && shared.Some?
            && waiting.AwaitClientFinish? && open.keys.transcript == waiting.transcript
            && waiting.transcript == Transcript([hello, c.marshal(ServerHello(c, su, open.keys.suite)), key])
            && waiting.secrets == DeriveSecrets(c, shared.value, c.hash(waiting.transcript))
            && c.unmarshal(finish).value.verifyData == c.finish(waiting.secrets.clientFinish, waiting.secrets.digest)
  {
    hide Frame, DeriveSecrets, Transcript, SelectSuite;
    var suite := SelectSuite(c.unmarshal(hello).value.suites, su.serverSuites);
    TranscriptOfThree(hello, c.marshal(ServerHello(c, su, suite.value)), key);
  }

  /** The derivations, the finish digests and the hash give something else for these two sides if they differ. */
  ghost predicate Distinguishes(c: Crypto, mine: Bytes, theirs: Bytes, shared: Bytes, shared': Bytes) {
    && |c.hash(mine)| == |c.hash(theirs)| && (c.hash(mine) == c.hash(theirs) ==> mine == theirs)
    && TellsApart(c, shared + c.hash(mine), shared' + c.hash(theirs))
    && TellsApart(c, Master(c, shared + c.hash(mine)), Master(c, shared' + c.hash(theirs)))
    && FinishTellsApart(c, DeriveSecrets(c, shared, c.hash(mine)), DeriveSecrets(c, shared', c.hash(theirs)))
  }

  predicate AllShort(payloads: seq<Bytes>) {
    forall i :: 0 <= i < |payloads| ==> |payloads[i]| < UINT32_VALUES
  }

  /** Whatever was done to the first three messages on the way: if the client opens on the finish message of this
      server, each side received exactly what the other one sent, the suite is the server's first preference among those
      the client offered, and the secrets are the same. In particular no one in between can talk the two into a lesser
      suite. */
  lemma NoDowngrade(c: Crypto, cs: Setup, ss: Setup, hello: Bytes, answer: Bytes, key: Bytes, rest: Bytes)
    requires Lawful(c) && ServerAfter(c, ss, hello, key, rest).0.AwaitClientFinish?
    requires var server := ServerAfter(c, ss, hello, key, rest).0;
             var (waiting, open) := ClientAfter(c, cs, answer, ServerFinish(c, server.secrets));
             && open.ClientOpen?
             && AllShort([hello, c.marshal(ServerHello(c, ss, server.suite)), key])
             && AllShort([c.marshal(ClientHello(cs)), answer,
                          c.marshal(ClientKey(c.encapsulate(c.unmarshal(answer).value.publicKey, cs.coins).value.0))])
             && Distinguishes(c, waiting.transcript, server.transcript,
                              c.encapsulate(c.unmarshal(answer).value.publicKey, cs.coins).value.1,
                              c.decapsulate(ss.priv, c.unmarshal(key).value.ciphertext).value)
    ensures var server := ServerAfter(c, ss, hello, key, rest).0;
            var (waiting, open) := ClientAfter(c, cs, answer, ServerFinish(c, server.secrets));
            && hello == c.marshal(ClientHello(cs)) && answer == c.marshal(ServerHello(c, ss, server.suite))
            && key == c.marshal(ClientKey(c.encapsulate(c.publicKey(ss.priv), cs.coins).value.0))
            && Some(server.suite) == SelectSuite(cs.clientSuites, ss.serverSuites) && open.keys.suite == server.suite
            && waiting.secrets == server.secrets && waiting.transcript == server.transcript
  {
    hide Frame, DeriveSecrets, Transcript, SelectSuite, TellsApart, FinishTellsApart, Master, Opens;
    var server := ServerAfter(c, ss, hello, key, rest).0;
    var finish := ServerFinish(c, server.secrets);
    OpenClientHasChecked(c, cs, answer, finish);
    ServerIsWaiting(c, ss, hello, key, rest);
    var waiting := ClientAfter(c, cs, answer, finish).0;
    var e := c.encapsulate(c.unmarshal(answer).value.publicKey, cs.coins).value;
    var shared' := c.decapsulate(ss.priv, c.unmarshal(key).value.ciphertext).value;
    if (e.1, c.hash(waiting.transcript)) != (shared', c.hash(server.transcript)) {
      SidesThatDisagreeFail(c, cs, waiting.transcript, server.transcript, e.1, shared', waiting.suite);
      assert false;
    }
    var ps := [c.marshal(ClientHello(cs)), answer, c.marshal(ClientKey(e.0))];
    var qs := [hello, c.marshal(ServerHello(c, ss, server.suite)), key];
    TranscriptIsInjective(ps, qs);
    assert ps[0] == qs[0] && ps[1] == qs[1] && ps[2] == qs[2];
    assert c.unmarshal(hello) == Some(ClientHello(cs));
    assert c.unmarshal(answer) == Some(ServerHello(c, ss, server.suite));
  }

  lemma ServerIsWaiting(c: Crypto, su: Setup, hello: Bytes, key: Bytes, rest: Bytes)
    requires ServerAfter(c, su, hello, key, rest).0.AwaitClientFinish?
    ensures var waiting := ServerAfter(c, su, hello, key, rest).0;
            var shared := c.decapsulate(su.priv, c.unmarshal(key).value.ciphertext);
            && c.unmarshal(hello).Some? && c.unmarshal(key).Some? && shared.Some?
            && SelectSuite(c.unmarshal(hello).value.suites, su.serverSuites) == Some(waiting.suite)
            && waiting.transcript == Transcript([hello, c.marshal(ServerHello(c, su, waiting.suite)), key])
            && waiting.secrets == DeriveSecrets(c, shared.value, c.hash(waiting.transcript))
  {
    hide Frame, DeriveSecrets, Transcript, SelectSuite;
    var suite := SelectSuite(c.unmarshal(hello).value.suites, su.serverSuites);
    TranscriptOfThree(hello, c.marshal(ServerHello(c, su, suite.value)), key);
  }

  /** Equal transcripts come from equal offers: the nonces of both sides, the suites offered, the suite chosen and the
      public key are all bound by the transcript, for messages below 2^32 bytes. So a fresh nonce of either side gives a
      fresh transcript. */
  lemma TranscriptBindsTheOffers(c: Crypto, su: Setup, schedule: seq<Side>, su': Setup, schedule': seq<Side>)
    requires Lawful(c) && Exec(c, su, schedule).Some? && Exec(c, su', schedule').Some?
    requires Exec(c, su, schedule).value.client.ClientOpen? && Exec(c, su', schedule').value.client.ClientOpen?
    requires Common(su) && c.encapsulate(c.publicKey(su.priv), su.coins).Some?
    requires Common(su') && c.encapsulate(c.publicKey(su'.priv), su'.coins).Some?
    requires Short(TheScript(c, su)) && Short(TheScript(c, su'))
    requires Exec(c, su, schedule).value.client.keys.transcript == Exec(c, su', schedule').value.client.keys.transcript
    ensures su.clientNonce == su'.clientNonce && su.serverNonce == su'.serverNonce
    ensures su.clientSuites == su'.clientSuites && c.publicKey(su.priv) == c.publicKey(su'.priv)
    ensures SelectSuite(su.clientSuites, su.serverSuites) == SelectSuite(su'.clientSuites, su'.serverSuites)
  {
    hide Step, Frame, DeriveSecrets, Opens, SelectSuite, Transcript;
    EveryScheduleIsTheScript(c, su, schedule);
    EveryScheduleIsTheScript(c, su', schedule');
    var p, q := TheScript(c, su), TheScript(c, su');
    TranscriptOfThree(p.hello, p.answer, p.key);
    TranscriptOfThree(q.hello, q.answer, q.key);
    var ps, qs := [p.hello, p.answer, p.key], [q.hello, q.answer, q.key];
    TranscriptIsInjective(ps, qs);
    assert ps[0] == qs[0] && ps[1] == qs[1];
    assert c.unmarshal(p.hello) == Some(ClientHello(su)) && c.unmarshal(q.hello) == Some(ClientHello(su'));
    assert c.unmarshal(p.answer) == Some(ServerHello(c, su, p.suite));
    assert c.unmarshal(q.answer) == Some(ServerHello(c, su', q.suite));
  }

  predicate Short(p: Script) {
    |p.hello| < UINT32_VALUES && |p.answer| < UINT32_VALUES && |p.key| < UINT32_VALUES
  }

  lemma TranscriptOfThree(a: Bytes, b: Bytes, d: Bytes)
    ensures Transcript([a, b, d]) == Frame(a) + Frame(b) + Frame(d)
  {
    assert [a, b, d][..2] == [a, b] && [a, b][..1] == [a] && [a][..0] == [];
    assert Transcript([]) == [] && Transcript([a]) == Frame(a);
  }
}
