/** One direction of the secure channel (shared/hostrpc/tunnel.go): a sender, a receiver and a base that may hand the
    receiver any bytes whatever. The AEAD under a fixed key is ideal: sealing is any function, and opening succeeds
    exactly on what the sender sealed, under the nonce and header it sealed it with. */
module Tunnel {
  import opened Bytes

  const TUNNEL_MAGIC: Bytes := [84, 70, 78, 69]
  const HEADER_SIZE := 12
  const SEED_SIZE := 12

  datatype RecvError = TooShort | WrongMagic | WrongSequence | NotAuthentic

  datatype Received = Accepted(plain: Bytes) | Refused(error: RecvError)

  /** What the sender sealed, in order. */
  datatype Sealed = Sealed(nonce: Bytes, header: Bytes, plain: Bytes, box: Bytes)

  type Seal = (Bytes, Bytes, Bytes) -> Bytes
  type Open = (Bytes, Bytes, Bytes) -> Option<Bytes>

  function RecordHeader(seq_: nat): (h: Bytes)
    ensures |h| == HEADER_SIZE
  {
    TUNNEL_MAGIC + BigEndian(seq_, 8)
  }

  function Nonce(seed: Bytes, seq_: nat): (n: Bytes)
    requires |seed| == SEED_SIZE
    ensures |n| == SEED_SIZE
  {
    seed[..4] + BigEndian(seq_, 8)
  }

  function SealedRecord(seal: Seal, seed: Bytes, seq_: nat, msg: Bytes): Sealed
    requires |seed| == SEED_SIZE
  {
    var header, nonce := RecordHeader(seq_), Nonce(seed, seq_);
    Sealed(nonce, header, msg, seal(nonce, msg, header))
  }

  function OnWire(r: Sealed): Bytes {
    r.header + r.box
  }

  /** Opening by the ideal AEAD: the sealed record that has this nonce, header and box. */
  function IdealOpen(log: seq<Sealed>, nonce: Bytes, box: Bytes, header: Bytes): Option<Bytes> {
    if log == [] then None else
      var r := log[|log| - 1];
      if r.nonce == nonce && r.header == header && r.box == box then Some(r.plain)
      else IdealOpen(log[..|log| - 1], nonce, box, header)
  }

  ghost predicate Ideal(open: Open, log: seq<Sealed>) {
    forall n, b, h :: open(n, b, h) == IdealOpen(log, n, b, h)
  }

  /** The receiver's checks, in the order of Recv. */
  function Receive(open: Open, seed: Bytes, recvSeq: nat, record: Bytes): Received
    requires |seed| == SEED_SIZE
  {
    if |record| < HEADER_SIZE then Refused(TooShort) else
      var header := record[..HEADER_SIZE];
      if header[..4] != TUNNEL_MAGIC then Refused(WrongMagic) else
        var seq_ := FromBigEndian(header[4..]);
        if seq_ != recvSeq then Refused(WrongSequence) else
          match open(Nonce(seed, seq_), record[HEADER_SIZE..], header)
          case None => Refused(NotAuthentic)
          case Some(plain) => Accepted(plain)
  }

  datatype Event =
    | Send(msg: Bytes)
    | SendFails(msg: Bytes)      // the base refused the record
    | Deliver(record: Bytes)     // Recv returns these bytes from the base; a lost record is one never delivered

  datatype Link = Link(sendSeq: nat, recvSeq: nat, log: seq<Sealed>, accepted: seq<Bytes>)

  function Next(seal: Seal, seed: Bytes, s: Link, e: Event): Option<Link>
    requires |seed| == SEED_SIZE
  {
    match e
    case Send(msg) =>
      if s.sendSeq == MAX_UINT64 then None
      else Some(s.(log := s.log + [SealedRecord(seal, seed, s.sendSeq, msg)], sendSeq := s.sendSeq + 1))
    case SendFails(_) => Some(s)
    case Deliver(record) =>
      match Receive((n, b, h) => IdealOpen(s.log, n, b, h), seed, s.recvSeq, record)
      case Refused(_) => Some(s)
      case Accepted(plain) =>
        Some(s.(recvSeq := (s.recvSeq + 1) % (MAX_UINT64 + 1), accepted := s.accepted + [plain]))
  }

  function Exec(seal: Seal, seed: Bytes, run: seq<Event>): Option<Link>
    requires |seed| == SEED_SIZE
  {
    if run == [] then Some(Link(0, 0, [], [])) else
      var before := Exec(seal, seed, run[..|run| - 1]);
      if before.None? then None else Next(seal, seed, before.value, run[|run| - 1])
  }

  /** The messages a run sends. */
  function Messages(run: seq<Event>): seq<Bytes> {
    if run == [] then [] else
      var e := run[|run| - 1];
      Messages(run[..|run| - 1]) + (if e.Send? then [e.msg] else [])
  }

  lemma HeaderIsInjective(i: nat, j: nat)
    requires i <= MAX_UINT64 && j <= MAX_UINT64 && RecordHeader(i) == RecordHeader(j)
    ensures i == j
  {
    Widths();
    BigEndianRoundTrip(i, 8);
    BigEndianRoundTrip(j, 8);
    assert RecordHeader(i)[4..] == BigEndian(i, 8) && RecordHeader(j)[4..] == BigEndian(j, 8);
  }

  /** Records that carry different sequence numbers use different nonces. */
  lemma NoncesDiffer(seed: Bytes, i: nat, j: nat)
    requires |seed| == SEED_SIZE && i <= MAX_UINT64 && j <= MAX_UINT64 && Nonce(seed, i) == Nonce(seed, j)
    ensures i == j
  {
    Widths();
    BigEndianRoundTrip(i, 8);
    BigEndianRoundTrip(j, 8);
    assert Nonce(seed, i)[4..] == BigEndian(i, 8) && Nonce(seed, j)[4..] == BigEndian(j, 8);
  }

  /** The nonce has the shape of section 3.2 of RFC 5116: the fixed field is the start of the seed, the counter the
      sequence number. */
  lemma NonceIsFieldAndCounter(seed: Bytes, k: nat)
    requires |seed| == SEED_SIZE && k <= MAX_UINT64
    ensures Nonce(seed, k)[..4] == seed[..4] && FromBigEndian(Nonce(seed, k)[4..]) == k
  {
    Widths();
    BigEndianRoundTrip(k, 8);
    assert Nonce(seed, k)[4..] == BigEndian(k, 8);
  }

  ghost predicate LogInv(seal: Seal, seed: Bytes, log: seq<Sealed>)
    requires |seed| == SEED_SIZE
  {
    && |log| <= MAX_UINT64
    && (forall i :: 0 <= i < |log| ==> log[i] == SealedRecord(seal, seed, i, log[i].plain))
  }

  /** Opening under the nonce and header of number k finds the k-th sealed record or nothing. */
  lemma {:induction false} OpensOnlyItsNumber(seal: Seal, seed: Bytes, log: seq<Sealed>, k: nat, box: Bytes)
    requires |seed| == SEED_SIZE && LogInv(seal, seed, log) && k <= MAX_UINT64
    ensures IdealOpen(log, Nonce(seed, k), box, RecordHeader(k))
            == if k < |log| && log[k].box == box then Some(log[k].plain) else None
  {
    if log == [] {
    } else {
      var rest := log[..|log| - 1];
      assert forall i :: 0 <= i < |rest| ==> rest[i] == log[i];
      OpensOnlyItsNumber(seal, seed, rest, k, box);
      if k != |log| - 1 && RecordHeader(k) == RecordHeader(|log| - 1) {
        HeaderIsInjective(k, |log| - 1);
      }
    }
  }

  /** The receiver's two tests of the header single out the header of the number it waits for. */
  lemma HeaderIsRead(header: Bytes, k: nat)
    requires |header| == HEADER_SIZE && k <= MAX_UINT64
    ensures header[..4] == TUNNEL_MAGIC && FromBigEndian(header[4..]) == k <==> header == RecordHeader(k)
  {
    Widths();
    BigEndianRoundTrip(k, 8);
    assert RecordHeader(k)[..4] == TUNNEL_MAGIC && RecordHeader(k)[4..] == BigEndian(k, 8);
    FromBigEndianRoundTrip(header[4..]);
    assert header == header[..4] + header[4..];
  }

  /** The receiver accepts a record exactly when it is, byte for byte, the next one the sender put on the wire; any
      other bytes, be they repeated, reordered or forged records, are refused. */
  lemma AcceptsExactlyTheNextRecord(
      seal: Seal, seed: Bytes, open: Open, log: seq<Sealed>, recvSeq: nat, record: Bytes)
    requires |seed| == SEED_SIZE && LogInv(seal, seed, log) && recvSeq <= MAX_UINT64 && Ideal(open, log)
    ensures var r := Receive(open, seed, recvSeq, record);
            && (r.Accepted? <==> recvSeq < |log| && record == OnWire(log[recvSeq]))
            && (r.Accepted? ==> r.plain == log[recvSeq].plain)
  {
    hide IdealOpen, RecordHeader, BigEndian, FromBigEndian, Nonce;
    if |record| >= HEADER_SIZE {
      var header, box := record[..HEADER_SIZE], record[HEADER_SIZE..];
      assert record == header + box;
      HeaderIsRead(header, recvSeq);
      OpensOnlyItsNumber(seal, seed, log, recvSeq, box);
    }
  }

  function Plains(log: seq<Sealed>): (ms: seq<Bytes>)
    ensures |ms| == |log|
  {
    seq(|log|, i requires 0 <= i < |log| => log[i].plain)
  }

  ghost predicate Inv(seal: Seal, seed: Bytes, s: Link, sent: seq<Bytes>)
    requires |seed| == SEED_SIZE
  {
    && LogInv(seal, seed, s.log) && s.sendSeq == |s.log| && Plains(s.log) == sent
    && s.recvSeq == |s.accepted| && s.accepted <= sent
  }

  lemma EventKeepsInv(seal: Seal, seed: Bytes, s: Link, sent: seq<Bytes>, e: Event)
    requires |seed| == SEED_SIZE && Inv(seal, seed, s, sent) && Next(seal, seed, s, e).Some?
    ensures Inv(seal, seed, Next(seal, seed, s, e).value, sent + if e.Send? then [e.msg] else [])
  {
    hide SealedRecord, Receive;
    match e
    case Send(msg) => PlainOfSealed(seal, seed, s.sendSeq, msg);
    case SendFails(_) => assert sent + [] == sent;
    case Deliver(record) =>
      assert sent + [] == sent;
      AcceptsExactlyTheNextRecord(seal, seed, (n, b, h) => IdealOpen(s.log, n, b, h), s.log, s.recvSeq, record);
  }

  lemma PlainOfSealed(seal: Seal, seed: Bytes, k: nat, msg: Bytes)
    requires |seed| == SEED_SIZE
    ensures SealedRecord(seal, seed, k, msg).plain == msg
  {}

  lemma {:induction false} RunKeepsInv(seal: Seal, seed: Bytes, run: seq<Event>)
    requires |seed| == SEED_SIZE && Exec(seal, seed, run).Some?
    ensures Inv(seal, seed, Exec(seal, seed, run).value, Messages(run))
  {
    hide Next, Inv;
    if run == [] {
      assert Inv(seal, seed, Link(0, 0, [], []), []) by { EmptyInv(seal, seed); }
    } else {
      RunKeepsInv(seal, seed, run[..|run| - 1]);
      EventKeepsInv(seal, seed, Exec(seal, seed, run[..|run| - 1]).value, Messages(run[..|run| - 1]), run[|run| - 1]);
    }
  }

  lemma EmptyInv(seal: Seal, seed: Bytes)
    requires |seed| == SEED_SIZE
    ensures Inv(seal, seed, Link(0, 0, [], []), [])
  {}

  /** Over any base, what the receiver accepts is a prefix of what was sent; its number never passes the sender's and
      neither wraps; and no two records share a nonce. */
  lemma AcceptedIsAPrefix(seal: Seal, seed: Bytes, run: seq<Event>)
    requires |seed| == SEED_SIZE && Exec(seal, seed, run).Some?
    ensures var s := Exec(seal, seed, run).value;
            && s.accepted <= Messages(run)
            && s.recvSeq == |s.accepted| <= s.sendSeq == |Messages(run)| <= MAX_UINT64
            && forall i, j :: 0 <= i < j < |s.log| ==> s.log[i].nonce != s.log[j].nonce
  {
    hide Next;
    RunKeepsInv(seal, seed, run);
    var s := Exec(seal, seed, run).value;
    forall i, j | 0 <= i < j < |s.log| ensures s.log[i].nonce != s.log[j].nonce {
      if s.log[i].nonce == s.log[j].nonce { NoncesDiffer(seed, i, j); }
    }
  }

  /** How many records a run delivers, and whether the base hands them over in order, each once. */
  function Deliveries(run: seq<Event>): nat {
    if run == [] then 0 else Deliveries(run[..|run| - 1]) + if run[|run| - 1].Deliver? then 1 else 0
  }

  ghost predicate Faithful(seal: Seal, seed: Bytes, run: seq<Event>)
    requires |seed| == SEED_SIZE
  {
    run == [] ||
    var before, e := run[..|run| - 1], run[|run| - 1];
    Faithful(seal, seed, before) &&
    (e.Deliver? ==> Exec(seal, seed, before).Some? &&
                    var log, n := Exec(seal, seed, before).value.log, Deliveries(before);
                    n < |log| && e.record == OnWire(log[n]))
  }

  /** Over a base that keeps order and loses nothing, every record is accepted: after n deliveries the receiver holds
      exactly the first n messages. */
  lemma {:induction false} FaithfulBaseLosesNothing(seal: Seal, seed: Bytes, run: seq<Event>)
    requires |seed| == SEED_SIZE && Exec(seal, seed, run).Some? && Faithful(seal, seed, run)
    ensures Deliveries(run) <= |Messages(run)|
    ensures Exec(seal, seed, run).value.accepted == Messages(run)[..Deliveries(run)]
  {
    hide Receive;
    RunKeepsInv(seal, seed, run);
    if run == [] {
    } else {
      var before, e := run[..|run| - 1], run[|run| - 1];
      FaithfulBaseLosesNothing(seal, seed, before);
      RunKeepsInv(seal, seed, before);
      var s := Exec(seal, seed, before).value;
      if e.Deliver? {
        AcceptsExactlyTheNextRecord(seal, seed, (n, b, h) => IdealOpen(s.log, n, b, h), s.log, s.recvSeq, e.record);
      }
    }
  }

  datatype SendError = Exhausted | BaseRefused

  /** secureChannel: the sending half of one direction and the receiving half of the other. */
  class SecureChannel {
    const seal: Seal
    const open: Open
    const sendSeed: Bytes
    const recvSeed: Bytes
    var sendSeq: nat
    var recvSeq: nat

    ghost predicate Valid()
      reads this
    {
      |sendSeed| == SEED_SIZE && |recvSeed| == SEED_SIZE && sendSeq <= MAX_UINT64 && recvSeq <= MAX_UINT64
    }

    constructor (seal: Seal, open: Open, sendSeed: Bytes, recvSeed: Bytes)
      requires |sendSeed| == SEED_SIZE && |recvSeed| == SEED_SIZE
      ensures Valid() && sendSeq == 0 && recvSeq == 0
      ensures this.seal == seal && this.open == open && this.sendSeed == sendSeed && this.recvSeed == recvSeed
    {
      this.seal, this.open, this.sendSeed, this.recvSeed := seal, open, sendSeed, recvSeed;
      sendSeq, recvSeq := 0, 0;
    }

    /** `baseTakes` is the answer of the base to the record. */
    method Send(msg: Bytes, baseTakes: bool, ghost link: Link) returns (error: Option<SendError>, record: Bytes)
      requires Valid() && link.sendSeq == sendSeq
      modifies this`sendSeq
      ensures Valid()
      ensures error == Some(Exhausted) <==> old(sendSeq) == MAX_UINT64
      ensures error.None? <==> old(sendSeq) < MAX_UINT64 && baseTakes
      ensures error.None? ==> Next(seal, sendSeed, link, Event.Send(msg)).Some?
      ensures error.None? ==>
                var next := Next(seal, sendSeed, link, Event.Send(msg)).value;
                next.sendSeq == sendSeq && record == OnWire(next.log[|link.log|])
      ensures error.Some? ==> sendSeq == old(sendSeq)
    {
      if sendSeq == MAX_UINT64 {
        return Some(Exhausted), [];
      }
      var header := RecordHeader(sendSeq);
      var nonce := Nonce(sendSeed, sendSeq);
      record := header + seal(nonce, msg, header);
      if !baseTakes {
        return Some(BaseRefused), record;
      }
      sendSeq := sendSeq + 1;
      return None, record;
    }

    /** On this record the AEAD behaves as the ideal one does after the sender sealed `log`. */
    ghost predicate OpensIdeally(record: Bytes, log: seq<Sealed>)
      requires Valid() && |record| >= HEADER_SIZE
      reads this
    {
      var n, b, h := Nonce(recvSeed, recvSeq), record[HEADER_SIZE..], record[..HEADER_SIZE];
      open(n, b, h) == IdealOpen(log, n, b, h)
    }

    /** With an ideal AEAD a step of Recv is the delivery of its record, and the sequence number never wraps. */
    method Recv(record: Bytes, ghost link: Link, ghost sent: seq<Bytes>) returns (r: Received)
      requires Valid() && link.recvSeq == recvSeq
      requires |record| >= HEADER_SIZE ==> OpensIdeally(record, link.log)
      requires Inv(seal, recvSeed, link, sent)
      modifies this`recvSeq
      ensures Valid() && r == Receive(open, recvSeed, old(recvSeq), record)
      ensures Next(seal, recvSeed, link, Deliver(record)).Some?
      ensures Next(seal, recvSeed, link, Deliver(record)).value.recvSeq == recvSeq
      ensures r.Accepted? <==> recvSeq == old(recvSeq) + 1
      ensures r.Accepted? ==> old(recvSeq) < |sent| && r.plain == sent[old(recvSeq)]
      ensures r.Refused? ==> recvSeq == old(recvSeq)
    {
      AcceptsExactlyTheNextRecord(
        seal, recvSeed, (n, b, h) => IdealOpen(link.log, n, b, h), link.log, recvSeq, record);
      if |record| < HEADER_SIZE {
        return Refused(TooShort);
      }
      var header := record[..HEADER_SIZE];
      if header[..4] != TUNNEL_MAGIC {
        return Refused(WrongMagic);
      }
      var number := FromBigEndian(header[4..]);
      if number != recvSeq {
        return Refused(WrongSequence);
      }
      var plain := open(Nonce(recvSeed, number), record[HEADER_SIZE..], header);
      if plain.None? {
        return Refused(NotAuthentic);
      }
      recvSeq := (recvSeq + 1) % (MAX_UINT64 + 1);
      return Accepted(plain.value);
    }
  }
}
