/** The hosts file parser and printer (guest/sdk/hostsfile/hostsfile.go). */
module HostsFile {
  import opened Text

  datatype HostEntry = HostEntry(
    ip: string, hostname: string, aliases: seq<string>, comment: string, isBlank: bool, raw: string)

  const EMPTY := HostEntry("", "", [], "", false, "")

  /** `strings.IndexByte` for '#': the length of the text when there is none. */
  function HashAt(s: string): (k: nat)
    ensures k <= |s| && (k < |s| ==> s[k] == '#') && forall i :: 0 <= i < k ==> s[i] != '#'
  {
    if s == [] || s[0] == '#' then 0 else 1 + HashAt(s[1..])
  }

  function ParseLine(line: string): HostEntry {
    var trimmed := Trim(line);
    if trimmed == "" then EMPTY.(isBlank := true, raw := line)
    else if HasPrefix(trimmed, "#") then EMPTY.(comment := trimmed, raw := line)
    else ParseEntry(line, trimmed)
  }

  /** A line that may hold an entry, and a comment behind it. */
  function ParseEntry(line: string, trimmed: string): HostEntry {
    var k := HashAt(trimmed);
    if k < |trimmed| then EntryOf(line, Fields(Trim(trimmed[..k])), Trim(trimmed[k..]))
    else EntryOf(line, Fields(trimmed), "")
  }

  function EntryOf(line: string, fields: seq<string>, comment: string): HostEntry {
    if |fields| < 2 then EMPTY.(raw := line)
    else EMPTY.(ip := fields[0], hostname := fields[1], aliases := fields[2..], comment := comment)
  }

  function Tail(aliases: seq<string>): string {
    if aliases == [] then "" else " " + aliases[0] + Tail(aliases[1..])
  }

  function RenderEntry(e: HostEntry): string {
    if e.isBlank then e.raw
    else if e.ip == "" && e.raw != "" then e.raw
    else if e.ip == "" && e.comment != "" then e.comment
    else e.ip + "\t" + e.hostname + Tail(e.aliases) + (if e.comment != "" then " " + e.comment else "")
  }

  function ParseLines(lines: seq<string>): (r: seq<HostEntry>)
    ensures |r| == |lines|
  {
    seq(|lines|, i requires 0 <= i < |lines| => ParseLine(lines[i]))
  }

  function RenderEntries(entries: seq<HostEntry>): (r: seq<string>)
    ensures |r| == |entries|
  {
    seq(|entries|, i requires 0 <= i < |entries| => RenderEntry(entries[i]))
  }

  function ParsedHosts(content: string): seq<HostEntry> {
    ParseLines(SplitLines(content))
  }

  function SerializedHosts(entries: seq<HostEntry>): string {
    JoinLines(RenderEntries(entries))
  }

  method Parse(content: string) returns (entries: seq<HostEntry>)
    ensures entries == ParsedHosts(content)
  {
    hide ParseLine, SplitLines;
    entries := [];
    var lines := SplitLines(content);
    for n := 0 to |lines|
      invariant entries == ParseLines(lines[..n])
    {
      entries := entries + [ParseLine(lines[n])];
    }
    assert lines[..|lines|] == lines;
  }

  method Serialize(entries: seq<HostEntry>) returns (content: string)
    ensures content == SerializedHosts(entries)
  {
    hide RenderEntry;
    content := "";
    for i := 0 to |entries|
      invariant content == JoinLines(RenderEntries(entries[..i]))
    {
      assert RenderEntries(entries[..i + 1])[..i] == RenderEntries(entries[..i]);
      if i > 0 {
        content := content + "\n";
      }
      content := WriteEntry(content, entries[i]);
    }
    assert entries[..|entries|] == entries;
  }

  method WriteEntry(start: string, entry: HostEntry) returns (content: string)
    ensures content == start + RenderEntry(entry)
  {
    hide Tail;
    content := start;
    if entry.isBlank {
      if entry.raw != "" {
        content := content + entry.raw;
      }
      return;
    }
    if entry.ip == "" && entry.raw != "" {
      return content + entry.raw;
    }
    if entry.ip == "" && entry.comment != "" {
      return content + entry.comment;
    }
    content := content + entry.ip + "\t" + entry.hostname;
    content := WriteAliases(content, entry.aliases);
    if entry.comment != "" {
      content := content + " " + entry.comment;
    }
    assert content == start + RenderEntry(entry);
  }

  method WriteAliases(start: string, aliases: seq<string>) returns (content: string)
    ensures content == start + Tail(aliases)
  {
    content := start;
    for i := 0 to |aliases|
      invariant content + Tail(aliases[i..]) == start + Tail(aliases)
    {
      assert aliases[i..][1..] == aliases[i + 1..];
      content := content + " " + aliases[i];
    }
  }

  predicate IsWord(w: string) {
    w != "" && forall i :: 0 <= i < |w| ==> !IsSpace(w[i])
  }

  lemma {:induction false} FieldsAreWords(s: string)
    ensures forall i :: 0 <= i < |Fields(s)| ==> IsWord(Fields(s)[i])
    decreases |s|
  {
    var t := TrimLeft(s);
    if t == [] {
    } else {
      WordEnds(t);
      FieldsAreWords(t[FieldLength(t)..]);
    }
  }

  lemma {:induction false} FieldsArePart(s: string, c: char)
    requires c !in s
    ensures forall i :: 0 <= i < |Fields(s)| ==> c !in Fields(s)[i]
    decreases |s|
  {
    var j := TrimLeftSplits(s);
    var t := TrimLeft(s);
    if t == [] {
    } else {
      FieldsArePart(t[FieldLength(t)..], c);
    }
  }

  lemma {:induction false} WordEnds(t: string)
    ensures forall i :: 0 <= i < FieldLength(t) ==> !IsSpace(t[i])
  {
    if t != [] && !IsSpace(t[0]) { WordEnds(t[1..]); }
  }

  lemma {:induction false} FieldLengthOf(w: string, rest: string)
    requires (forall i :: 0 <= i < |w| ==> !IsSpace(w[i])) && (rest == [] || IsSpace(rest[0]))
    ensures FieldLength(w + rest) == |w|
  {
    if w == [] {
      assert w + rest == rest;
    } else {
      assert (w + rest)[1..] == w[1..] + rest;
      FieldLengthOf(w[1..], rest);
    }
  }

  /** A space, a word and more words. */
  lemma FieldsOfWord(space: char, w: string, rest: string)
    requires IsSpace(space) && IsWord(w) && (rest == [] || IsSpace(rest[0]))
    ensures Fields(w + rest) == [w] + Fields(rest)
    ensures Fields([space] + w + rest) == [w] + Fields(rest)
  {
    FieldLengthOf(w, rest);
    assert TrimLeft(w + rest) == w + rest;
    assert (w + rest)[..|w|] == w && (w + rest)[|w|..] == rest;
    assert ([space] + w + rest)[1..] == w + rest;
  }

  lemma {:induction false} FieldsOfTail(aliases: seq<string>)
    requires forall i :: 0 <= i < |aliases| ==> IsWord(aliases[i])
    ensures Fields(Tail(aliases)) == aliases
    ensures aliases != [] ==> IsSpace(Tail(aliases)[0]) && !IsSpace(Tail(aliases)[|Tail(aliases)| - 1])
  {
    hide FieldLength, TrimLeft;
    if aliases == [] {
      assert Fields("") == [] by { NoFields(); }
    } else {
      hide Fields;
      var rest := Tail(aliases[1..]);
      FieldsOfTail(aliases[1..]);
      FieldsOfWord(' ', aliases[0], rest);
      assert Tail(aliases) == [' '] + aliases[0] + rest;
      assert [aliases[0]] + aliases[1..] == aliases;
      if aliases[1..] == [] { assert rest == ""; }
    }
  }

  lemma NoFields()
    ensures Fields("") == []
  {}

  function Body(e: HostEntry): string {
    e.ip + "\t" + e.hostname + Tail(e.aliases)
  }

  /** What a parsed entry with an address is made of. */
  predicate IsEntry(e: HostEntry) {
    && !e.isBlank && e.raw == "" && IsWord(e.ip) && IsWord(e.hostname)
    && (forall i :: 0 <= i < |e.aliases| ==> IsWord(e.aliases[i]))
    && '#' !in e.ip && '#' !in e.hostname && (forall i :: 0 <= i < |e.aliases| ==> '#' !in e.aliases[i])
    && (e.comment == "" || (e.comment[0] == '#' && Tight(e.comment)))
  }

  lemma ParsedEntry(line: string)
    requires ParseLine(line).ip != ""
    ensures IsEntry(ParseLine(line))
  {
    hide Trim, Fields;
    var t := Trim(line);
    TrimIsTight(line);
    var k := HashAt(t);
    var front := if k < |t| then Trim(t[..k]) else t;
    FieldsAreWords(front);
    TrimIsPart(t[..k]);
    FieldsArePart(front, '#');
    if k < |t| {
      TrimIsTight(t[k..]);
      TrimFromStart(t[k..], 0);
    }
  }

  lemma {:induction false} NoHashInTail(aliases: seq<string>)
    requires forall i :: 0 <= i < |aliases| ==> '#' !in aliases[i]
    ensures '#' !in Tail(aliases)
  {
    if aliases == [] {
    } else {
      NoHashInTail(aliases[1..]);
    }
  }

  lemma BodyOfEntry(e: HostEntry)
    requires IsEntry(e)
    ensures Body(e) != "" && Tight(Body(e)) && '#' !in Body(e)
    ensures Fields(Body(e)) == [e.ip, e.hostname] + e.aliases
  {
    hide Tail, Fields, TrimLeft;
    var rest := "\t" + e.hostname + Tail(e.aliases);
    NoTail(e.aliases);
    FieldsOfTail(e.aliases);
    FieldsOfWord('\t', e.hostname, Tail(e.aliases));
    FieldsOfWord('\t', e.ip, rest);
    assert Body(e) == e.ip + rest;
    assert [e.ip] + ([e.hostname] + e.aliases) == [e.ip, e.hostname] + e.aliases;
    NoHashInTail(e.aliases);
  }

  lemma NoTail(aliases: seq<string>)
    ensures aliases == [] ==> Tail(aliases) == ""
  {}

  lemma {:induction false} HashBehind(s: string, comment: string)
    requires '#' !in s && (comment == "" || comment[0] == '#')
    ensures HashAt(s + comment) == |s|
  {
    if s == [] {
      assert s + comment == comment;
    } else {
      assert (s + comment)[1..] == s[1..] + comment;
      HashBehind(s[1..], comment);
    }
  }

  /** A printed entry reads as itself. */
  lemma EntryReadsBack(e: HostEntry)
    requires IsEntry(e)
    ensures ParseLine(RenderEntry(e)) == e
  {
    hide Trim, Fields, Body, ParseEntry;
    var b, text := Body(e), RenderEntry(e);
    BodyOfEntry(e);
    assert text == b + (if e.comment != "" then " " + e.comment else "") by { TextOfEntry(e); }
    assert text[0] == b[0];
    assert text[..1] != "#" by { assert b[0] in b; }
    TrimOfTight(text);
    EntryOfText(e);
  }

  lemma TextOfEntry(e: HostEntry)
    requires IsEntry(e)
    ensures RenderEntry(e) == Body(e) + (if e.comment != "" then " " + e.comment else "")
  {
    hide Tail;
  }

  lemma EntryOfText(e: HostEntry)
    requires IsEntry(e)
    ensures ParseEntry(RenderEntry(e), RenderEntry(e)) == e
  {
    hide Trim, Fields, Body, RenderEntry;
    var b, text := Body(e), RenderEntry(e);
    BodyOfEntry(e);
    TextOfEntry(e);
    assert ([e.ip, e.hostname] + e.aliases)[2..] == e.aliases;
    if e.comment == "" {
      HashBehind(b, "");
      assert b + "" == b && text == b;
    } else {
      assert text == (b + " ") + e.comment;
      HashBehind(b + " ", e.comment);
      assert text[..|b| + 1] == b + " " && text[|b| + 1..] == e.comment;
      TrimOfTight(e.comment);
      TrimOfSpaced(b);
    }
  }

  lemma TrimOfSpaced(b: string)
    requires b != "" && Tight(b)
    ensures Trim(b + " ") == b
  {
    assert (b + " ")[..|b|] == b;
    assert TrimLeft(b + " ") == b + " ";
    assert TrimRight(b + " ") == TrimRight(b) == b;
  }

  /** Every line that is not a host entry is printed as it was read, byte for byte. */
  lemma OthersAreKept(line: string)
    requires ParseLine(line).ip == ""
    ensures RenderEntry(ParseLine(line)) == line
  {
    hide Trim, Fields;
    TrimIsPart(line);
    var t := Trim(line);
    var k := HashAt(t);
    FieldsAreWords(if k < |t| then Trim(t[..k]) else t);
  }

  lemma LineRoundTrip(line: string)
    ensures ParseLine(RenderEntry(ParseLine(line))) == ParseLine(line)
  {
    hide ParseLine, RenderEntry;
    if ParseLine(line).ip == "" {
      OthersAreKept(line);
    } else {
      ParsedEntry(line);
      EntryReadsBack(ParseLine(line));
    }
  }

  lemma RenderKeepsToALine(line: string)
    requires NoNewline(line)
    ensures NoNewline(RenderEntry(ParseLine(line)))
  {
    hide Trim, Fields, Tail;
    var e := ParseLine(line);
    if e.ip == "" {
      OthersAreKept(line);
    } else {
      ParsedEntry(line);
      WordsKeepToALine(e.aliases);
      var t := Trim(line);
      TrimIsPart(line);
      TrimIsPart(t[HashAt(t)..]);
      assert NoNewline(e.comment);
      assert forall w: string :: IsWord(w) ==> NoNewline(w);
    }
  }

  lemma {:induction false} WordsKeepToALine(aliases: seq<string>)
    requires forall i :: 0 <= i < |aliases| ==> IsWord(aliases[i])
    ensures NoNewline(Tail(aliases))
  {
    if aliases == [] {
    } else {
      WordsKeepToALine(aliases[1..]);
    }
  }

  /** For every content: reading what was printed gives the same entries, the number of lines stays, and every line
      that is not a host entry is reproduced byte for byte. */
  lemma NormalForm(content: string)
    ensures var entries := ParsedHosts(content);
            var printed := SplitLines(SerializedHosts(entries));
            && ParsedHosts(SerializedHosts(entries)) == entries
            && |printed| == |SplitLines(content)| == |entries|
            && (forall i :: 0 <= i < |entries| && entries[i].ip == "" ==> printed[i] == SplitLines(content)[i])
  {
    hide ParseLine, RenderEntry;
    var source, entries := SplitLines(content), ParsedHosts(content);
    SplitHasNoNewlines(content);
    forall i | 0 <= i < |entries|
      ensures NoNewline(RenderEntry(entries[i])) && ParseLine(RenderEntry(entries[i])) == entries[i]
      ensures entries[i].ip == "" ==> RenderEntry(entries[i]) == source[i]
    {
      RenderKeepsToALine(source[i]);
      LineRoundTrip(source[i]);
      if entries[i].ip == "" { OthersAreKept(source[i]); }
    }
    SplitOfJoined(RenderEntries(entries));
  }
}
