/** The crontab parser and printer (guest/sdk/crontab/crontab.go). */
module CrontabFile {
  import opened Text

  datatype Option<T> = None | Some(value: T)

  datatype CrontabLine = CrontabLine(
    raw: string, isBlank: bool, isComment: bool, isEnv: bool, comment: string, special: string,
    minute: string, hour: string, dayOfMonth: string, month: string, dayOfWeek: string, command: string)

  const EMPTY := CrontabLine("", false, false, false, "", "", "", "", "", "", "", "")

  /** isSpace of the schedule scanner. */
  predicate IsBlank(c: char) {
    c == ' ' || c == '\t'
  }

  function DropBlanks(s: string): string {
    if s != [] && IsBlank(s[0]) then DropBlanks(s[1..]) else s
  }

  function WordLength(s: string): (k: nat)
    ensures k <= |s|
  {
    if s == [] || IsBlank(s[0]) then 0 else 1 + WordLength(s[1..])
  }

  /** The first n words of a text and what follows them. */
  function TakeWords(s: string, n: nat): Option<(seq<string>, string)>
    decreases n
  {
    if n == 0 then Some(([], s)) else
      var t := DropBlanks(s);
      if t == [] then None else
        var k := WordLength(t);
        var more := TakeWords(t[k..], n - 1);
        if more.None? then None else Some(([t[..k]] + more.value.0, more.value.1))
  }

  function SplitSchedule(line: string): Option<(seq<string>, string)> {
    var words := TakeWords(line, 5);
    if words.None? then None else
      var rest := DropBlanks(words.value.1);
      var command := Trim(rest);
      if rest == [] || command == [] then None else Some((words.value.0, command))
  }

  predicate IsNameStart(c: char) {
    c == '_' || 'A' <= c <= 'Z' || 'a' <= c <= 'z'
  }

  predicate IsVariable(name: string) {
    && name != [] && IsNameStart(name[0])
    && (forall i :: 0 < i < |name| ==> IsNameStart(name[i]) || '0' <= name[i] <= '9')
  }

  /** `strings.IndexByte` for '=': the length of the text when there is none. */
  function EqualsAt(s: string): (k: nat)
    ensures k <= |s| && (k < |s| ==> s[k] == '=') && forall i :: 0 <= i < k ==> s[i] != '='
  {
    if s == [] || s[0] == '=' then 0 else 1 + EqualsAt(s[1..])
  }

  predicate IsEnvAssignment(line: string) {
    var k := EqualsAt(line);
    0 < k < |line| && IsVariable(Trim(line[..k]))
  }

  function LowerChar(c: char): char {
    if 'A' <= c <= 'Z' then c - 'A' + 'a' else c
  }

  /** `strings.ToLower`, on the ASCII letters. */
  function ToLower(s: string): (t: string)
    ensures |t| == |s|
  {
    seq(|s|, i requires 0 <= i < |s| => LowerChar(s[i]))
  }

  function ParseLine(line: string): CrontabLine {
    var trimmed := Trim(line);
    if trimmed == "" then EMPTY.(isBlank := true, raw := line)
    else if HasPrefix(trimmed, "#") then EMPTY.(isComment := true, comment := trimmed, raw := line)
    else if IsEnvAssignment(trimmed) then EMPTY.(isEnv := true, raw := line)
    else if HasPrefix(trimmed, "@") then ParseSpecial(line, trimmed)
    else ParseSchedule(line, trimmed)
  }

  function ParseSpecial(line: string, trimmed: string): CrontabLine {
    var fields := Fields(trimmed);
    if |fields| < 2 then EMPTY.(raw := line)
    else EMPTY.(special := ToLower(fields[0]), command := Trim(trimmed[|fields[0]|..]))
  }

  function ParseSchedule(line: string, trimmed: string): CrontabLine {
    var schedule := SplitSchedule(trimmed);
    if schedule.None? then EMPTY.(raw := line) else JobLine(schedule.value.0, schedule.value.1)
  }

  function JobLine(fields: seq<string>, command: string): CrontabLine {
    if |fields| != 5 then EMPTY
    else EMPTY.(minute := fields[0], hour := fields[1], dayOfMonth := fields[2], month := fields[3],
                dayOfWeek := fields[4], command := command)
  }

  function ScheduleFields(l: CrontabLine): seq<string> {
    [l.minute, l.hour, l.dayOfMonth, l.month, l.dayOfWeek]
  }

  /** The words and then the text, one space before each but the first. */
  function JoinWords(words: seq<string>, last: string): string {
    if words == [] then last else words[0] + " " + JoinWords(words[1..], last)
  }

  function TrimAll(words: seq<string>): (r: seq<string>)
    ensures |r| == |words|
  {
    seq(|words|, i requires 0 <= i < |words| => Trim(words[i]))
  }

  function RenderComment(l: CrontabLine): string {
    if l.raw != "" then l.raw else
      var comment := Trim(l.comment);
      if comment == "" then "#" else if HasPrefix(comment, "#") then comment else "# " + comment
  }

  function RenderLine(l: CrontabLine): string {
    if l.isBlank then l.raw
    else if l.isComment then RenderComment(l)
    else if l.isEnv || l.raw != "" then l.raw
    else if l.special != "" then ToLower(Trim(l.special)) + " " + Trim(l.command)
    else JoinWords(TrimAll(ScheduleFields(l)), Trim(l.command))
  }

  function Lines(content: string): seq<string> {
    var all := SplitLines(content);
    if content == "" then [] else if all[|all| - 1] == "" then all[..|all| - 1] else all
  }

  function ParseLines(lines: seq<string>): (r: seq<CrontabLine>)
    ensures |r| == |lines|
  {
    seq(|lines|, i requires 0 <= i < |lines| => ParseLine(lines[i]))
  }

  function RenderLines(lines: seq<CrontabLine>): (r: seq<string>)
    ensures |r| == |lines|
  {
    seq(|lines|, i requires 0 <= i < |lines| => RenderLine(lines[i]))
  }

  function ParsedCrontab(content: string): seq<CrontabLine> {
    ParseLines(Lines(content))
  }

  function SerializedCrontab(lines: seq<CrontabLine>): string {
    if lines == [] then "" else JoinLines(RenderLines(lines)) + "\n"
  }

  /** The scanner of splitSchedule moves one position through the line. */
  method ScanSchedule(line: string) returns (schedule: Option<(seq<string>, string)>)
    ensures schedule == SplitSchedule(line)
  {
    hide DropBlanks, WordLength, Trim;
    var fields: seq<string> := [];
    var pos := 0;
    assert line[0..] == line;
    PrependTwice([], [], TakeWords(line, 5));
    while |fields| < 5
      invariant 0 <= pos <= |line| && |fields| <= 5
      invariant TakeWords(line, 5) == Prepend(fields, TakeWords(line[pos..], 5 - |fields|))
      decreases 5 - |fields|
    {
      ghost var before := line[pos..];
      pos := SkipBlanks(line, pos);
      if pos >= |line| {
        return None;
      }
      var start := pos;
      pos := SkipWord(line, start);
      assert TakeWords(before, 5 - |fields|) == Prepend([line[start..pos]], TakeWords(line[pos..], 4 - |fields|));
      PrependTwice(fields, [line[start..pos]], TakeWords(line[pos..], 4 - |fields|));
      fields := fields + [line[start..pos]];
    }
    assert fields + [] == fields;
    pos := SkipBlanks(line, pos);
    if pos >= |line| {
      return None;
    }
    var command := Trim(line[pos..]);
    if command == "" {
      return None;
    }
    return Some((fields, command));
  }

  ghost function Prepend(fields: seq<string>, words: Option<(seq<string>, string)>): Option<(seq<string>, string)> {
    if words.None? then None else Some((fields + words.value.0, words.value.1))
  }

  lemma PrependTwice(a: seq<string>, b: seq<string>, words: Option<(seq<string>, string)>)
    ensures Prepend([], words) == words
    ensures Prepend(a, Prepend(b, words)) == Prepend(a + b, words)
  {
    if words.Some? {
      assert [] + words.value.0 == words.value.0;
      assert a + (b + words.value.0) == a + b + words.value.0;
    }
  }

  method SkipWord(line: string, from: nat) returns (pos: nat)
    requires from <= |line|
    ensures from <= pos <= |line|
    ensures pos - from == WordLength(line[from..])
    ensures line[from..][..pos - from] == line[from..pos] && line[from..][pos - from..] == line[pos..]
  {
    pos := from;
    while pos < |line| && !IsBlank(line[pos])
      invariant from <= pos <= |line|
      invariant WordLength(line[from..]) == pos - from + WordLength(line[pos..])
    {
      assert line[pos..][1..] == line[pos + 1..];
      pos := pos + 1;
    }
  }

  method SkipBlanks(line: string, from: nat) returns (pos: nat)
    requires from <= |line|
    ensures from <= pos <= |line| && line[pos..] == DropBlanks(line[from..])
  {
    pos := from;
    while pos < |line| && IsBlank(line[pos])
      invariant from <= pos <= |line| && DropBlanks(line[pos..]) == DropBlanks(line[from..])
    {
      assert line[pos..][1..] == line[pos + 1..];
      pos := pos + 1;
    }
  }

  method Parse(content: string) returns (lines: seq<CrontabLine>)
    ensures lines == ParsedCrontab(content)
  {
    hide ParseLine, Lines;
    lines := [];
    var source := Lines(content);
    for n := 0 to |source|
      invariant lines == ParseLines(source[..n])
    {
      lines := lines + [ParseLine(source[n])];
    }
    assert source[..|source|] == source;
  }

  method Serialize(lines: seq<CrontabLine>) returns (content: string)
    ensures content == SerializedCrontab(lines)
  {
    if |lines| == 0 {
      return "";
    }
    content := "";
    for i := 0 to |lines|
      invariant content == JoinLines(RenderLines(lines[..i]))
    {
      assert RenderLines(lines[..i + 1])[..i] == RenderLines(lines[..i]);
      if i > 0 {
        content := content + "\n";
      }
      content := content + RenderLine(lines[i]);
    }
    assert lines[..|lines|] == lines;
    content := content + "\n";
  }
}
