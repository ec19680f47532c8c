/** Compressed records (shared/hostrpc/channel.go). gzip is a pair of functions with the law that the second undoes the
    first; an error of either is None. */
module Record {
  import opened Bytes

  const RECORD_MAGIC: Bytes := [84, 70, 78, 49]
  const RAW: Byte := 0
  const GZIP: Byte := 1

  datatype Codec = Codec(gzip: Bytes -> Option<Bytes>, gunzip: Bytes -> Option<Bytes>)

  ghost predicate Lawful(c: Codec) {
    forall m: Bytes :: c.gzip(m).Some? ==> c.gunzip(c.gzip(m).value) == Some(m)
  }

  function WrapRecord(encoding: Byte, payload: Bytes): Bytes {
    RECORD_MAGIC + [encoding] + payload
  }

  function EncodeRecord(c: Codec, msg: Bytes, threshold: int): Option<Bytes> {
    if |msg| >= threshold then
      var compressed := c.gzip(msg);
      if compressed.None? then None
      else if |compressed.value| < |msg| then Some(WrapRecord(GZIP, compressed.value))
      else Some(WrapRecord(RAW, msg))
    else Some(WrapRecord(RAW, msg))
  }

  function DecodeRecord(c: Codec, record: Bytes): Option<Bytes> {
    if |record| < |RECORD_MAGIC| + 1 || record[..|RECORD_MAGIC|] != RECORD_MAGIC then Some(record) else
      var encoding, payload := record[|RECORD_MAGIC|], record[|RECORD_MAGIC| + 1..];
      if encoding == RAW then Some(payload)
      else if encoding == GZIP then c.gunzip(payload)
      else None
  }

  lemma UnwrapRecord(encoding: Byte, payload: Bytes)
    ensures var r := WrapRecord(encoding, payload);
            |r| > |RECORD_MAGIC| && r[..|RECORD_MAGIC|] == RECORD_MAGIC && r[|RECORD_MAGIC|] == encoding
            && r[|RECORD_MAGIC| + 1..] == payload
  {}

  /** Whatever the threshold and whatever the message starts with, the receiver reads back the message; encoding fails
      only where compression does, and only from the threshold on; and the message is sent as it is unless compressing
      makes it shorter. */
  lemma RecordRoundTrip(c: Codec, msg: Bytes, threshold: int)
    requires Lawful(c)
    ensures EncodeRecord(c, msg, threshold).None? <==> |msg| >= threshold && c.gzip(msg).None?
    ensures EncodeRecord(c, msg, threshold).Some? ==>
              DecodeRecord(c, EncodeRecord(c, msg, threshold).value) == Some(msg)
    ensures EncodeRecord(c, msg, threshold).Some? ==>
              var payload := EncodeRecord(c, msg, threshold).value[5..];
              if |msg| < threshold || |msg| <= |c.gzip(msg).value| then payload == msg
              else payload == c.gzip(msg).value && |payload| < |msg|
  {
    UnwrapRecord(RAW, msg);
    if c.gzip(msg).Some? { UnwrapRecord(GZIP, c.gzip(msg).value); }
  }
}
