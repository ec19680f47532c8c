/** Compressed records over the secure channel, as NewClientChannel and NewServerChannel stack them
    (shared/hostrpc/tunnel.go, shared/hostrpc/channel.go). */
module Channel {
  import opened Bytes
  import opened Record
  import opened Tunnel

  /** The messages, compressed or wrapped one by one, are what the run sends. */
  ghost predicate Encodes(c: Codec, threshold: int, messages: seq<Bytes>, sent: seq<Bytes>) {
    && |messages| == |sent|
    && (forall i :: 0 <= i < |sent| ==> EncodeRecord(c, messages[i], threshold) == Some(sent[i]))
  }

  /** Over any base, the n-th record the receiver accepts decodes to the n-th message the other side sent: nothing is
      skipped, repeated, reordered, altered or made up, whichever messages were compressed. */
  lemma ReceivedIsAPrefixOfTheMessages(
      c: Codec, threshold: int, messages: seq<Bytes>, seal: Seal, seed: Bytes, run: seq<Event>)
    requires Lawful(c) && |seed| == SEED_SIZE && Exec(seal, seed, run).Some?
    requires Encodes(c, threshold, messages, Messages(run))
    ensures var accepted := Exec(seal, seed, run).value.accepted;
            && |accepted| <= |messages|
            && (forall i :: 0 <= i < |accepted| ==> DecodeRecord(c, accepted[i]) == Some(messages[i]))
            && (Faithful(seal, seed, run) ==> |accepted| == Deliveries(run))
  {
    hide Next, Exec, DecodeRecord, EncodeRecord;
    AcceptedIsAPrefix(seal, seed, run);
    if Faithful(seal, seed, run) { FaithfulBaseLosesNothing(seal, seed, run); }
    forall i | 0 <= i < |messages| ensures DecodeRecord(c, Messages(run)[i]) == Some(messages[i]) {
      RecordRoundTrip(c, messages[i], threshold);
    }
  }
}
