/** Managed blocks of a crontab (guest/packs/linux/files_config/crontab.go): a marker comment that names the entry and,
    directly below it, the job. */
module CrontabEdit {
  import opened Text
  import opened CrontabFile

  const MARKER_PREFIX := "# tf-linux-provider: crontab_entry name="

  predicate IsNameChar(c: char) {
    'a' <= c <= 'z' || 'A' <= c <= 'Z' || '0' <= c <= '9' || c == '.' || c == '_' || c == '-'
  }

  predicate ValidName(name: string) {
    name != "" && forall i :: 0 <= i < |name| ==> IsNameChar(name[i])
  }

  function Marker(name: string): CrontabLine {
    EMPTY.(isComment := true, comment := MARKER_PREFIX + name)
  }

  /** The name a line marks, if it is a marker. */
  function MarkedName(l: CrontabLine): Option<string> {
    if !l.isComment then None else
      var trimmed := Trim(l.comment);
      var comment := if trimmed == "" then Trim(l.raw) else trimmed;
      if !HasPrefix(comment, MARKER_PREFIX) then None else
        var name := Trim(comment[|MARKER_PREFIX|..]);
        if ValidName(name) then Some(name) else None
  }

  predicate Marks(l: CrontabLine, name: string) {
    MarkedName(l) == Some(name)
  }

  predicate IsJobLine(l: CrontabLine) {
    && Trim(l.command) != ""
    && (Trim(l.special) != "" ||
        (Trim(l.minute) != "" && Trim(l.hour) != "" && Trim(l.dayOfMonth) != "" && Trim(l.month) != "" &&
         Trim(l.dayOfWeek) != ""))
  }

  function Canonical(l: CrontabLine): string {
    if Trim(l.special) != "" then ToLower(Trim(l.special))
    else Trim(l.minute) + " " + Trim(l.hour) + " " + Trim(l.dayOfMonth) + " " + Trim(l.month) + " " + Trim(l.dayOfWeek)
  }

  predicate SameCommand(a: CrontabLine, b: CrontabLine) {
    Trim(a.command) == Trim(b.command) && Canonical(a) == Canonical(b)
  }

  /** What a search finds: no marker, one marker and whether a job follows it, or several. */
  datatype Found = Absent | Block(marker: nat, hasJob: bool) | Ambiguous

  predicate JobAt(lines: seq<CrontabLine>, i: nat) {
    i < |lines| && IsJobLine(lines[i])
  }

  function MarkersOf(lines: seq<CrontabLine>, name: string): (indices: seq<nat>)
    ensures forall k :: 0 <= k < |indices| ==> indices[k] < |lines| && Marks(lines[indices[k]], name)
  {
    if lines == [] then [] else
      var before := MarkersOf(lines[..|lines| - 1], name);
      if Marks(lines[|lines| - 1], name) then before + [|lines| - 1] else before
  }

  function Find(lines: seq<CrontabLine>, name: string): Found {
    var found := MarkersOf(lines, name);
    if found == [] then Absent
    else if |found| > 1 then Ambiguous
    else Block(found[0], JobAt(lines, found[0] + 1))
  }

  /** The first line after the block. */
  function BlockEnd(f: Found): nat
    requires f.Block?
  {
    if f.hasJob then f.marker + 2 else f.marker + 1
  }

  predicate Managed(lines: seq<CrontabLine>, i: nat)
    requires i < |lines|
  {
    i > 0 && MarkedName(lines[i - 1]).Some?
  }

  function Matches(lines: seq<CrontabLine>, job: CrontabLine): (indices: seq<nat>)
    ensures forall k :: 0 <= k < |indices| ==> indices[k] < |lines| && IsMatch(lines, indices[k], job)
  {
    if lines == [] then [] else
      var n := |lines| - 1;
      var before := Matches(lines[..n], job);
      assert forall k :: 0 <= k < n ==> IsMatch(lines[..n], k, job) == IsMatch(lines, k, job);
      if IsMatch(lines, n, job) then before + [n] else before
  }

  predicate IsMatch(lines: seq<CrontabLine>, i: nat, job: CrontabLine)
    requires i < |lines|
  {
    IsJobLine(lines[i]) && !Managed(lines, i) && SameCommand(lines[i], job)
  }

  datatype Edited = Edited(lines: seq<CrontabLine>) | ImportRequired | SeveralMatches | SeveralMarkers | NotFound

  function Created(lines: seq<CrontabLine>, name: string, job: CrontabLine): Edited {
    match Find(lines, name)
    case Ambiguous => SeveralMarkers
    case Block(_, _) => ImportRequired
    case Absent =>
      var matches := Matches(lines, job);
      if |matches| > 1 then SeveralMatches
      else if |matches| == 1 then Edited(lines[..matches[0]] + [Marker(name)] + lines[matches[0]..])
      else Edited(lines + [Marker(name), job])
  }

  function Updated(lines: seq<CrontabLine>, name: string, job: CrontabLine): Edited {
    match Find(lines, name)
    case Ambiguous => SeveralMarkers
    case Absent => NotFound
    case Block(i, _) => Edited(lines[..i] + [Marker(name), job] + lines[BlockEnd(Find(lines, name))..])
  }

  /** Removing an absent entry changes nothing. */
  function Removed(lines: seq<CrontabLine>, name: string): Edited {
    match Find(lines, name)
    case Ambiguous => SeveralMarkers
    case Absent => Edited(lines)
    case Block(i, _) => Edited(lines[..i] + lines[BlockEnd(Find(lines, name))..])
  }

  method FindManagedBlock(lines: seq<CrontabLine>, name: string) returns (block: Found)
    ensures block == Find(lines, name)
  {
    hide Marks, IsJobLine;
    block := Absent;
    for i := 0 to |lines|
      invariant block.Absent? || block.Block?
      invariant block.Absent? ==> MarkersOf(lines[..i], name) == []
      invariant block.Block? ==>
                  MarkersOf(lines[..i], name) == [block.marker] && block.hasJob == JobAt(lines, block.marker + 1)
    {
      assert lines[..i + 1][..i] == lines[..i];
      if !Marks(lines[i], name) {
        continue;
      }
      if block != Absent {
        MarkersGrow(lines, i + 1, name);
        return Ambiguous;
      }
      block := Block(i, i + 1 < |lines| && IsJobLine(lines[i + 1]));
    }
    assert lines[..|lines|] == lines;
  }

  lemma {:induction false} MarkersGrow(lines: seq<CrontabLine>, n: nat, name: string)
    requires n <= |lines|
    ensures |MarkersOf(lines[..n], name)| <= |MarkersOf(lines, name)|
  {
    if n < |lines| {
      assert lines[..|lines| - 1][..n] == lines[..n];
      MarkersGrow(lines[..|lines| - 1], n, name);
    } else {
      assert lines[..n] == lines;
    }
  }

  method ExactUnmanagedMatches(lines: seq<CrontabLine>, job: CrontabLine) returns (matches: seq<nat>)
    ensures matches == Matches(lines, job)
  {
    matches := [];
    for i := 0 to |lines|
      invariant matches == Matches(lines[..i], job)
    {
      assert lines[..i + 1][..i] == lines[..i];
      assert IsMatch(lines[..i + 1], i, job) == IsMatch(lines, i, job);
      if !IsJobLine(lines[i]) {
        continue;
      }
      if i > 0 && MarkedName(lines[i - 1]).Some? {
        continue;
      }
      if SameCommand(lines[i], job) {
        matches := matches + [i];
      }
    }
    assert lines[..|lines|] == lines;
  }

  method CreateOrAdopt(lines: seq<CrontabLine>, name: string, job: CrontabLine) returns (edited: Edited)
    ensures edited == Created(lines, name, job)
  {
    var block := FindManagedBlock(lines, name);
    if block.Ambiguous? {
      return SeveralMarkers;
    }
    if block.Block? {
      return ImportRequired;
    }
    var matches := ExactUnmanagedMatches(lines, job);
    if |matches| > 1 {
      return SeveralMatches;
    }
    if |matches| == 1 {
      var index := matches[0];
      return Edited(lines[..index] + [Marker(name)] + lines[index..]);
    }
    return Edited(lines + [Marker(name), job]);
  }

  /** The loop that update and remove share: copy every line but the block, which `instead` replaces. */
  method ReplaceBlock(lines: seq<CrontabLine>, block: Found, instead: seq<CrontabLine>)
    returns (updated: seq<CrontabLine>)
    requires block.Block? && BlockEnd(block) <= |lines|
    ensures updated == lines[..block.marker] + instead + lines[BlockEnd(block)..]
  {
    updated := [];
    var i := 0;
    while i < |lines|
      invariant 0 <= i <= block.marker || BlockEnd(block) <= i <= |lines|
      invariant i <= block.marker ==> updated == lines[..i]
      invariant i > block.marker ==> updated == lines[..block.marker] + instead + lines[BlockEnd(block)..i]
    {
      if i == block.marker {
        updated := updated + instead;
        i := if block.hasJob then block.marker + 1 else i;
      } else {
        updated := updated + [lines[i]];
      }
      i := i + 1;
    }
  }

  method Update(lines: seq<CrontabLine>, name: string, job: CrontabLine) returns (edited: Edited)
    ensures edited == Updated(lines, name, job)
  {
    var block := FindManagedBlock(lines, name);
    if block.Ambiguous? {
      return SeveralMarkers;
    }
    if block.Absent? {
      return NotFound;
    }
    var updated := ReplaceBlock(lines, block, [Marker(name), job]);
    return Edited(updated);
  }

  method Remove(lines: seq<CrontabLine>, name: string) returns (edited: Edited, removed: bool)
    ensures edited == Removed(lines, name)
    ensures removed == Find(lines, name).Block?
  {
    var block := FindManagedBlock(lines, name);
    if block.Ambiguous? {
      return SeveralMarkers, false;
    }
    if block.Absent? {
      return Edited(lines), false;
    }
    var updated := ReplaceBlock(lines, block, []);
    assert lines[..block.marker] + [] == lines[..block.marker];
    return Edited(updated), true;
  }
}
