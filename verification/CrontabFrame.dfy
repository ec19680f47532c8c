/** What the edits of managed crontab blocks leave alone. */
module CrontabFrame {
  import opened Text
  import opened CrontabFile
  import opened CrontabEdit

  /** No marker is a job: true of every parsed line and of what the edits add. */
  predicate Sound(lines: seq<CrontabLine>) {
    forall i :: 0 <= i < |lines| ==> MarkedName(lines[i]).None? || !IsJobLine(lines[i])
  }

  lemma ParsedIsSound(content: string)
    ensures Sound(ParsedCrontab(content))
  {
    hide Lines;
    var source := Lines(content);
    forall i | 0 <= i < |source| ensures !ParseLine(source[i]).isComment || ParseLine(source[i]).command == "" {
      CommentsHaveNoCommand(source[i]);
    }
    assert Trim("") == "";
  }

  lemma CommentsHaveNoCommand(line: string)
    ensures ParseLine(line).isComment ==> ParseLine(line).command == ""
  {
    hide Trim, IsEnvAssignment, Fields, SplitSchedule;
  }

  /** All blocks of a name: each marker with the job below it. */
  function Blocks(lines: seq<CrontabLine>, name: string): seq<seq<CrontabLine>> {
    if lines == [] then []
    else if Marks(lines[0], name) then
      [if JobAt(lines, 1) then lines[..2] else lines[..1]] + Blocks(lines[1..], name)
    else Blocks(lines[1..], name)
  }

  /** The lines that belong to no block. */
  function Unmanaged(lines: seq<CrontabLine>): seq<CrontabLine> {
    if lines == [] then []
    else if MarkedName(lines[0]).Some? then Unmanaged(if JobAt(lines, 1) then lines[2..] else lines[1..])
    else [lines[0]] + Unmanaged(lines[1..])
  }

  predicate EndsWithMarker(lines: seq<CrontabLine>) {
    lines != [] && MarkedName(lines[|lines| - 1]).Some?
  }

  /** Blocks do not reach over a seam, unless a marker stands before it and a job behind it. */
  lemma {:induction false} BlocksOfSeam(a: seq<CrontabLine>, b: seq<CrontabLine>, name: string)
    requires JobAt(b, 0) ==> a == [] || !Marks(a[|a| - 1], name)
    ensures Blocks(a + b, name) == Blocks(a, name) + Blocks(b, name)
  {
    hide MarkedName, IsJobLine, Marks;
    if a == [] {
      assert a + b == b;
    } else {
      var rest := a[1..];
      assert (a + b)[1..] == rest + b;
      BlocksOfSeam(rest, b, name);
      if |a| > 1 { assert (a + b)[..2] == a[..2]; }
      assert (a + b)[..1] == a[..1];
    }
  }

  lemma {:induction false} UnmanagedOfSeam(a: seq<CrontabLine>, b: seq<CrontabLine>)
    requires JobAt(b, 0) ==> !EndsWithMarker(a)
    ensures Unmanaged(a + b) == Unmanaged(a) + Unmanaged(b)
  {
    hide MarkedName, IsJobLine;
    if a == [] {
      assert a + b == b;
    } else {
      var s := a + b;
      assert s[0] == a[0] && s[1..] == a[1..] + b;
      if MarkedName(a[0]).None? {
        UnmanagedOfSeam(a[1..], b);
        assert Unmanaged(s) == [a[0]] + Unmanaged(s[1..]);
      } else if JobAt(a, 1) {
        assert JobAt(s, 1) && s[2..] == a[2..] + b;
        UnmanagedOfSeam(a[2..], b);
        assert Unmanaged(s) == Unmanaged(s[2..]);
      } else {
        assert !JobAt(s, 1);
        UnmanagedOfSeam(a[1..], b);
        assert Unmanaged(s) == Unmanaged(s[1..]);
      }
    }
  }

  /** A marker of the name and the job below it, or a marker alone. */
  predicate IsBlock(block: seq<CrontabLine>, name: string) {
    && 1 <= |block| <= 2 && Marks(block[0], name) && !IsJobLine(block[0])
    && (|block| == 2 ==> IsJobLine(block[1]) && MarkedName(block[1]).None?)
  }

  lemma BlockAlone(block: seq<CrontabLine>, name: string, other: string)
    requires IsBlock(block, name) && other != name
    ensures Blocks(block, other) == [] && Unmanaged(block) == [] && Blocks(block, name) == [block]
  {
    assert block[..|block|] == block;
    if |block| == 2 {
      assert block[1..][1..] == [] && !Marks(block[1], name) && !Marks(block[1], other);
      assert Blocks(block[1..], name) == [] && Blocks(block[1..], other) == [];
      assert block[2..] == [];
    } else {
      assert block[1..] == [];
    }
  }

  /** A block inside a text hides nothing of what is before and behind it. */
  lemma BlockBetween(a: seq<CrontabLine>, block: seq<CrontabLine>, c: seq<CrontabLine>, name: string, other: string)
    requires IsBlock(block, name) && other != name && (|block| == 1 ==> !JobAt(c, 0))
    ensures Blocks(a + block + c, other) == Blocks(a, other) + Blocks(c, other)
    ensures Unmanaged(a + block + c) == Unmanaged(a) + Unmanaged(c)
  {
    hide Blocks, Unmanaged, IsJobLine, MarkedName;
    assert a + block + c == a + (block + c);
    BlockAlone(block, name, other);
    BlocksOfSeam(block, c, other);
    BlocksOfSeam(a, block + c, other);
    UnmanagedOfSeam(block, c);
    UnmanagedOfSeam(a, block + c);
  }

  /** A block between lines that do not mark its name is what a search for the name finds. */
  lemma FindsBlockBetween(a: seq<CrontabLine>, block: seq<CrontabLine>, c: seq<CrontabLine>, name: string)
    requires IsBlock(block, name) && (|block| == 1 ==> !JobAt(c, 0))
    requires MarkersOf(a, name) == [] && MarkersOf(c, name) == []
    ensures Find(a + block + c, name) == Block(|a|, |block| == 2)
  {
    hide IsJobLine, MarkedName, MarkersOf, Marks, JobAt;
    var s := a + block + c;
    MarkersExact(a, name);
    MarkersExact(c, name);
    SecondIsNoMarker(block, name);
    MarksAround(a, block, c, name);
    OnlyMarker(s, |a|, name);
    JobBehind(a, block, c);
  }

  lemma MarksAround(a: seq<CrontabLine>, block: seq<CrontabLine>, c: seq<CrontabLine>, name: string)
    requires 1 <= |block| <= 2 && Marks(block[0], name) && (|block| == 2 ==> !Marks(block[1], name))
    requires forall j :: 0 <= j < |a| ==> !Marks(a[j], name)
    requires forall j :: 0 <= j < |c| ==> !Marks(c[j], name)
    ensures var s := a + block + c;
            |a| < |s| && forall j :: 0 <= j < |s| ==> (Marks(s[j], name) <==> j == |a|)
  {
    hide Marks;
  }

  lemma JobBehind(a: seq<CrontabLine>, block: seq<CrontabLine>, c: seq<CrontabLine>)
    requires 1 <= |block| <= 2 && (|block| == 2 ==> IsJobLine(block[1])) && (|block| == 1 ==> !JobAt(c, 0))
    ensures JobAt(a + block + c, |a| + 1) == (|block| == 2)
  {
    hide IsJobLine;
  }

  lemma SecondIsNoMarker(block: seq<CrontabLine>, name: string)
    requires IsBlock(block, name)
    ensures Marks(block[0], name)
    ensures |block| == 2 ==> !Marks(block[1], name) && IsJobLine(block[1])
  {}

  lemma {:induction false} OnlyMarker(lines: seq<CrontabLine>, i: nat, name: string)
    requires i < |lines| && Marks(lines[i], name)
    requires forall j :: 0 <= j < |lines| && j != i ==> !Marks(lines[j], name)
    ensures MarkersOf(lines, name) == [i]
  {
    hide Marks;
    var front := lines[..|lines| - 1];
    if i == |front| { MarkersExact(front, name); } else { OnlyMarker(front, i, name); }
  }

  lemma {:induction false} MarkersExact(lines: seq<CrontabLine>, name: string)
    ensures MarkersOf(lines, name) == [] <==> forall j :: 0 <= j < |lines| ==> !Marks(lines[j], name)
    ensures |MarkersOf(lines, name)| == 1 ==>
              forall j :: 0 <= j < |lines| && Marks(lines[j], name) ==> j == MarkersOf(lines, name)[0]
  {
    hide Marks;
    if lines == [] {
    } else {
      var front := lines[..|lines| - 1];
      MarkersExact(front, name);
      assert forall j :: 0 <= j < |front| ==> front[j] == lines[j];
    }
  }

  lemma MarkerMarks(name: string)
    requires ValidName(name)
    ensures Marks(Marker(name), name) && !IsJobLine(Marker(name))
    ensures Tight(MARKER_PREFIX + name) && Tight(name)
  {
    hide IsSpace;
    assert !IsSpace('#') && forall c :: IsNameChar(c) ==> !IsSpace(c) by { NameCharsAreNoSpace(); }
    var comment := MARKER_PREFIX + name;
    assert comment[0] == '#' && comment[|comment| - 1] == name[|name| - 1];
    TrimOfTight(comment);
    assert comment[..|MARKER_PREFIX|] == MARKER_PREFIX && comment[|MARKER_PREFIX|..] == name;
    TrimOfTight(name);
    assert Trim("") == "";
  }

  lemma NameCharsAreNoSpace()
    ensures !IsSpace('#') && forall c :: IsNameChar(c) ==> !IsSpace(c)
  {}

  /** The three parts of a text around the block a search finds. */
  lemma FoundParts(lines: seq<CrontabLine>, name: string)
    requires Sound(lines) && Find(lines, name).Block?
    ensures var f := Find(lines, name);
            && f.marker < BlockEnd(f) <= |lines|
            && lines == lines[..f.marker] + lines[f.marker..BlockEnd(f)] + lines[BlockEnd(f)..]
            && IsBlock(lines[f.marker..BlockEnd(f)], name)
            && (!f.hasJob ==> !JobAt(lines[BlockEnd(f)..], 0))
            && MarkersOf(lines[..f.marker], name) == [] && MarkersOf(lines[BlockEnd(f)..], name) == []
  {
    hide IsJobLine, MarkedName, MarkersOf;
    var f := Find(lines, name);
    MarkersExact(lines, name);
    MarkersExact(lines[..f.marker], name);
    MarkersExact(lines[BlockEnd(f)..], name);
  }

  /** Updating a block replaces it in place: every other block and every unmanaged line stays, in order, and the name
      now finds the desired job. */
  lemma UpdateKeepsTheRest(lines: seq<CrontabLine>, name: string, job: CrontabLine, other: string)
    requires Sound(lines) && ValidName(name) && IsJobLine(job) && !job.isComment && other != name
    requires Updated(lines, name, job).Edited?
    ensures var after := Updated(lines, name, job).lines;
            && Blocks(after, other) == Blocks(lines, other)
            && Unmanaged(after) == Unmanaged(lines)
            && Find(after, name) == Block(Find(lines, name).marker, true)
            && after[Find(lines, name).marker + 1] == job
  {
    hide MarkersOf, IsJobLine, Blocks, Unmanaged, MarkedName, Marker;
    var f := Find(lines, name);
    var a, c := lines[..f.marker], lines[BlockEnd(f)..];
    FoundParts(lines, name);
    MarkerMarks(name);
    CommentOnly(job);
    BlockBetween(a, lines[f.marker..BlockEnd(f)], c, name, other);
    BlockBetween(a, [Marker(name), job], c, name, other);
    FindsBlockBetween(a, [Marker(name), job], c, name);
  }

  /** Creating a block without a match appends it; every other block and every unmanaged line stays, in order. */
  lemma CreateKeepsTheRest(lines: seq<CrontabLine>, name: string, job: CrontabLine, other: string)
    requires Sound(lines) && ValidName(name) && IsJobLine(job) && !job.isComment && other != name
    requires Created(lines, name, job).Edited? && Matches(lines, job) == []
    ensures var after := Created(lines, name, job).lines;
            && Blocks(after, other) == Blocks(lines, other)
            && Unmanaged(after) == Unmanaged(lines)
            && Find(after, name) == Block(|lines|, true) && after[|lines| + 1] == job
  {
    hide MarkersOf, IsJobLine, Blocks, Unmanaged, MarkedName, Marker, Matches;
    MarkerMarks(name);
    CommentOnly(job);
    var block := [Marker(name), job];
    assert lines + block + [] == lines + block;
    NothingInNothing(name, other);
    BlockBetween(lines, block, [], name, other);
    FindsBlockBetween(lines, block, [], name);
  }

  lemma NothingInNothing(name: string, other: string)
    ensures Blocks([], other) == [] && Unmanaged([]) == [] && MarkersOf([], name) == []
  {}

  /** Adopting puts a marker above the one matching job: no line changes or moves, every other block stays, and exactly
      the adopted job is no longer unmanaged. */
  lemma AdoptKeepsTheRest(lines: seq<CrontabLine>, name: string, job: CrontabLine, other: string)
    requires Sound(lines) && ValidName(name) && other != name
    requires Created(lines, name, job).Edited? && Matches(lines, job) != []
    ensures |Matches(lines, job)| == 1
    ensures var k, after := Matches(lines, job)[0], Created(lines, name, job).lines;
            && after[..k] + after[k + 1..] == lines
            && Blocks(after, other) == Blocks(lines, other)
            && Unmanaged(lines) == Unmanaged(lines[..k]) + [lines[k]] + Unmanaged(lines[k + 1..])
            && Unmanaged(after) == Unmanaged(lines[..k]) + Unmanaged(lines[k + 1..])
            && Find(after, name) == Block(k, true)
            && SameCommand(after[k + 1], job)
  {
    hide MarkersOf, IsJobLine, MarkedName, Marker, Matches, SameCommand, Blocks, Unmanaged;
    var k := Matches(lines, job)[0];
    assert IsMatch(lines, k, job);
    AdoptLine(lines, k, name, other);
  }

  lemma AdoptLine(lines: seq<CrontabLine>, k: nat, name: string, other: string)
    requires Sound(lines) && ValidName(name) && other != name && MarkersOf(lines, name) == []
    requires k < |lines| && IsJobLine(lines[k]) && !Managed(lines, k)
    ensures var after := lines[..k] + [Marker(name)] + lines[k..];
            && after[..k] + after[k + 1..] == lines && after[k + 1] == lines[k]
            && Blocks(after, other) == Blocks(lines, other)
            && Unmanaged(lines) == Unmanaged(lines[..k]) + [lines[k]] + Unmanaged(lines[k + 1..])
            && Unmanaged(after) == Unmanaged(lines[..k]) + Unmanaged(lines[k + 1..])
            && Find(after, name) == Block(k, true)
  {
    hide MarkersOf, IsJobLine, MarkedName, Marker, Blocks, Unmanaged, Find;
    var a, b, c := lines[..k], lines[k..], lines[k + 1..];
    var block := [Marker(name), lines[k]];
    MarkerMarks(name);
    MarkersExact(lines, name);
    MarkersExact(a, name);
    MarkersExact(c, name);
    assert lines == a + b && b[1..] == c && a + [Marker(name)] + b == a + block + c;
    BlocksOfSeam(a, b, other);
    UnmanagedOfSeam(a, b);
    BlockBetween(a, block, c, name, other);
    FindsBlockBetween(a, block, c, name);
    JobFirst(b, other);
  }

  lemma JobFirst(b: seq<CrontabLine>, other: string)
    requires b != [] && MarkedName(b[0]).None?
    ensures Blocks(b, other) == Blocks(b[1..], other) && Unmanaged(b) == [b[0]] + Unmanaged(b[1..])
  {}

  /** The one case in which removing a block changes another: a marker without a job stands directly above the block,
      and a job directly below it. The marker then takes that job for its own. */
  predicate Captures(lines: seq<CrontabLine>, name: string) {
    var f := Find(lines, name);
    f.Block? && EndsWithMarker(lines[..f.marker]) && JobAt(lines, BlockEnd(f))
  }

  /** Removing a block leaves every other block and every unmanaged line, in order, exactly when it captures nothing. */
  lemma RemoveKeepsTheRest(lines: seq<CrontabLine>, name: string)
    requires Sound(lines) && Removed(lines, name).Edited?
    ensures var after := Removed(lines, name).lines;
            && ((forall other :: other != name ==> Blocks(after, other) == Blocks(lines, other))
                <==> !Captures(lines, name))
            && (Unmanaged(after) == Unmanaged(lines) <==> !Captures(lines, name))
            && Find(after, name) == Absent
  {
    hide MarkersOf, IsJobLine, MarkedName, Blocks, Unmanaged;
    var f, after := Find(lines, name), Removed(lines, name).lines;
    if f.Block? {
      var a, block, c := lines[..f.marker], lines[f.marker..BlockEnd(f)], lines[BlockEnd(f)..];
      FoundParts(lines, name);
      forall other | other != name
        ensures Blocks(lines, other) == Blocks(a, other) + Blocks(c, other)
      {
        BlockBetween(a, block, c, name, other);
      }
      BlockBetween(a, block, c, name, name + "x");
      MarkersExact(a, name);
      MarkersExact(c, name);
      MarkersExact(after, name);
      if Captures(lines, name) {
        assert c[0] == lines[BlockEnd(f)];
        var last := a[|a| - 1];
        assert MarkedName(last) != Some(name);
        CaptureChanges(a, c, MarkedName(last).value);
      } else {
        UnmanagedOfSeam(a, c);
        forall other | other != name
          ensures Blocks(after, other) == Blocks(a, other) + Blocks(c, other)
        {
          BlocksOfSeam(a, c, other);
        }
      }
    }
  }

  lemma CaptureChanges(a: seq<CrontabLine>, c: seq<CrontabLine>, other: string)
    requires a != [] && MarkedName(a[|a| - 1]) == Some(other) && JobAt(c, 0)
    requires Sound(a) && Sound(c)
    ensures Blocks(a + c, other) != Blocks(a, other) + Blocks(c, other)
    ensures Unmanaged(a + c) != Unmanaged(a) + Unmanaged(c)
  {
    hide IsJobLine, MarkedName, Blocks, Unmanaged;
    var front, last := a[..|a| - 1], a[|a| - 1];
    assert a == front + [last] && a + c == front + ([last] + c);
    BlocksOfSeam(front, [last], other);
    BlocksOfSeam(front, [last] + c, other);
    UnmanagedOfSeam(front, [last]);
    UnmanagedOfSeam(front, [last] + c);
    CapturedJob(last, c, other);
    assert Blocks(a + c, other)[|Blocks(front, other)|] == [last, c[0]];
    assert (Blocks(a, other) + Blocks(c, other))[|Blocks(front, other)|] == [last];
    assert |Unmanaged(a + c)| < |Unmanaged(a) + Unmanaged(c)|;
  }

  /** A marker above a job takes it as its block, and from the unmanaged lines. */
  lemma CapturedJob(marker: CrontabLine, c: seq<CrontabLine>, other: string)
    requires MarkedName(marker) == Some(other) && JobAt(c, 0) && MarkedName(c[0]).None?
    ensures Blocks([marker] + c, other) == [[marker, c[0]]] + Blocks(c, other) && Blocks([marker], other) == [[marker]]
    ensures |Unmanaged([marker] + c)| < |Unmanaged(c)| && Unmanaged([marker]) == []
  {
    hide IsJobLine, MarkedName;
    var b := [marker] + c;
    assert b[1..] == c && b[2..] == c[1..] && b[..2] == [marker, c[0]];
    assert [marker][1..] == [] && [marker][..1] == [marker];
    assert Unmanaged(c) == [c[0]] + Unmanaged(c[1..]);
  }

  /** Only comments are markers. */
  lemma CommentOnly(l: CrontabLine)
    ensures !l.isComment ==> MarkedName(l).None?
  {}
}
