/** The bounded tail buffer that keeps the end of a process's error output (providers/shared/transport/ssh.go). */
module TailBuffer {
  import opened Bytes
  import opened Text

  /** The last n bytes of a stream, or all of it. */
  function Last(stream: Bytes, n: nat): (r: Bytes)
    ensures |r| == if |stream| < n then |stream| else n
  {
    if |stream| <= n then stream else stream[|stream| - n..]
  }

  /** Only the last bytes of what was kept matter for what is kept next. */
  lemma LastOfAppended(stream: Bytes, more: Bytes, n: nat)
    ensures Last(Last(stream, n) + more, n) == Last(stream + more, n)
  {
    var kept := Last(stream, n);
    if |stream| > n {
      assert stream == stream[..|stream| - n] + kept;
      if |kept + more| > n {
        assert (stream + more)[|stream + more| - n..] == (kept + more)[|kept + more| - n..];
      }
    }
  }

  lemma LastSplits(kept: Bytes, p: Bytes, n: nat)
    ensures |Last(kept + p, n)| <= n
    ensures |p| >= n ==> Last(kept + p, n) == p[|p| - n..]
    ensures |p| < n ==> Last(kept + p, n) == Last(kept, n - |p|) + p
  {}

  class BoundedTailBuffer {
    const max: int
    const data: array<Byte>
    var len: nat
    ghost var stream: Bytes      // everything written so far

    ghost function Capacity(): nat {
      if max <= 0 then 0 else max
    }

    ghost predicate Valid()
      reads this, data
    {
      data.Length == Capacity() && len <= data.Length && data[..len] == Last(stream, Capacity())
    }

    constructor (max: int)
      ensures Valid() && this.max == max && stream == [] && fresh(data)
    {
      this.max := max;
      data := new Byte[if max <= 0 then 0 else max](_ => 0);
      len, stream := 0, [];
    }

    /** What the buffer holds. */
    ghost function Kept(): Bytes
      requires len <= data.Length
      reads this, data
    {
      data[..len]
    }

    /** After any writes the buffer holds exactly the last min(max, total) bytes of the stream. */
    method Write(p: Bytes) returns (n: nat)
      requires Valid()
      modifies this, data
      ensures Valid() && stream == old(stream) + p && n == |p|
    {
      hide Last;
      LastOfAppended(stream, p, Capacity());
      LastSplits(Kept(), p, Capacity());
      stream := stream + p;
      n := |p|;
      if max <= 0 {
        assert Kept() == [];
      } else if |p| >= max {
        Replace(p[|p| - max..]);
      } else {
        MakeRoom(|p|);
        Append(p);
      }
    }

    method Replace(p: Bytes)
      requires |p| <= data.Length && len <= data.Length
      modifies this`len, data
      ensures len == |p| && Kept() == p
    {
      Fill(0, p);
      len := |p|;
    }

    method Append(p: Bytes)
      requires len + |p| <= data.Length
      modifies this`len, data
      ensures len == old(len) + |p| && Kept() == old(Kept()) + p
    {
      Fill(len, p);
      assert data[..len + |p|] == data[..len] + data[len..len + |p|];
      len := len + |p|;
    }

    /** Drop what does not fit beside the next bytes. As there are fewer of them than max, fewer bytes are dropped than
        are there: the branch of the source that empties the buffer is never taken. */
    method MakeRoom(next: nat)
      requires next < max == data.Length && len <= data.Length
      modifies this`len, data
      ensures len + next <= data.Length && Kept() == Last(old(Kept()), max - next)
    {
      var needed := len + next - max;
      if needed > 0 {
        assert needed < len;
        ShiftLeft(needed);
        len := len - needed;
      }
    }

    /** copy(data, data[needed:]): the bytes move down, first to last. */
    method ShiftLeft(shift: nat)
      requires shift <= len <= data.Length
      modifies data
      ensures data[..len - shift] == old(data[shift..len])
    {
      for i := 0 to len - shift
        invariant data[..i] == old(data[shift..shift + i])
        invariant data[i..] == old(data[i..])
      {
        assert old(data[i..])[shift] == old(data[shift + i]);
        data[i] := data[shift + i];
      }
    }

    method Fill(from: nat, p: Bytes)
      requires from + |p| <= data.Length
      modifies data
      ensures data[..from] == old(data[..from]) && data[from..from + |p|] == p
    {
      for i := 0 to |p|
        invariant data[..from] == old(data[..from]) && data[from..from + i] == p[..i]
      {
        data[from + i] := p[i];
      }
    }

    /** The tail as text without white space around it; `decode` turns bytes into text. */
    method Snapshot(decode: Bytes -> string) returns (tail: string)
      requires Valid()
      ensures tail == Trim(decode(Last(stream, Capacity())))
    {
      tail := Trim(decode(data[..len]));
    }
  }
}
