/** What a managed crontab entry reads as after it was written (guest/packs/linux/files_config/crontab.go). */
module CrontabReadBack {
  import opened Text
  import opened CrontabFile
  import opened CrontabNormal
  import opened CrontabEdit
  import opened CrontabFrame

  /** The configuration of an entry; a missing value is the empty string. */
  datatype Config = Config(name: string, user: string, command: string, schedule: string, fields: seq<string>)

  predicate HasLineBreak(s: string) {
    '\r' in s || '\n' in s
  }

  /** parseCronScheduleFields: a line with the five fields, still without its command. */
  function FiveFields(fields: seq<string>): Option<CrontabLine> {
    var trimmed := TrimAll(fields);
    if |fields| != 5 || (exists i :: 0 <= i < 5 && BadField(trimmed[i])) then None
    else Some(JobLine(trimmed, ""))
  }

  predicate BadField(f: string) {
    f == "" || ' ' in f || '\t' in f || HasLineBreak(f)
  }

  /** parseCronScheduleString */
  function ScheduleString(text: string): Option<CrontabLine> {
    var value := Trim(text);
    var fields := Fields(value);
    if value == "" then None
    else if HasPrefix(value, "@") then
      if |fields| != 1 || |fields[0]| < 2 then None else Some(EMPTY.(special := ToLower(fields[0])))
    else if |fields| != 5 then None
    else FiveFields(fields)
  }

  /** scheduleFromConfig: exactly one of the two forms, and all five fields or none. */
  function ConfiguredSchedule(c: Config): Option<CrontabLine>
    requires |c.fields| == 5
  {
    var text, fields := Trim(c.schedule), TrimAll(c.fields);
    var none, all := fields == ["", "", "", "", ""], (forall i :: 0 <= i < 5 ==> fields[i] != "");
    if text != "" then (if none then ScheduleString(text) else None)
    else if all then FiveFields(fields) else None
  }

  /** desiredCrontabFromState: the name and the job line of a valid configuration. */
  function Desired(c: Config): Option<(string, CrontabLine)>
    requires |c.fields| == 5
  {
    var name, user, command := Trim(c.name), Trim(c.user), Trim(c.command);
    var schedule := ConfiguredSchedule(c);
    if !ValidName(name) || user == "" || HasLineBreak(user) || command == "" || HasLineBreak(command) || schedule.None?
    then None
    else Some((name, schedule.value.(command := command)))
  }

  /** What every desired line is. */
  predicate GoodJob(l: CrontabLine) {
    && l == EMPTY.(special := l.special, minute := l.minute, hour := l.hour, dayOfMonth := l.dayOfMonth,
                   month := l.month, dayOfWeek := l.dayOfWeek, command := l.command)
    && l.command != "" && Tight(l.command) && NoNewline(l.command)
    && if l.special != "" then GoodToken(l.special) && ScheduleFields(l) == ["", "", "", "", ""]
       else Words(ScheduleFields(l)) && NoNewlines(ScheduleFields(l)) && TrimAll(ScheduleFields(l)) == ScheduleFields(l)
  }

  predicate GoodToken(token: string) {
    && token != "" && token[0] == '@' && ToLower(token) == token
    && (forall i :: 0 <= i < |token| ==> !IsSpace(token[i]))
  }

  lemma FiveFieldsAreGood(fields: seq<string>, command: string)
    requires FiveFields(fields).Some? && command != "" && Tight(command) && NoNewline(command)
    ensures GoodJob(FiveFields(fields).value.(command := command))
  {
    hide Trim;
    var trimmed := TrimAll(fields);
    forall i | 0 <= i < 5 ensures !BadField(trimmed[i]) && Trim(trimmed[i]) == trimmed[i] {
      TrimIsTight(fields[i]);
    }
    assert trimmed == [trimmed[0], trimmed[1], trimmed[2], trimmed[3], trimmed[4]];
    assert TrimAll(trimmed) == trimmed;
    assert ScheduleFields(FiveFields(fields).value.(command := command)) == trimmed;
  }

  lemma TokenIsGood(text: string)
    requires ScheduleString(text).Some? && HasPrefix(Trim(text), "@")
    ensures GoodToken(ScheduleString(text).value.special)
  {
    hide Trim;
    var value := Trim(text);
    TrimIsTight(text);
    FirstField(value);
    FieldEnds(value);
    LowerKeepsTokens(Fields(value)[0]);
  }

  lemma DesiredIsGood(c: Config)
    requires |c.fields| == 5 && Desired(c).Some?
    ensures ValidName(Desired(c).value.0) && GoodJob(Desired(c).value.1)
  {
    hide Trim, FiveFields, GoodToken, Fields;
    var command := Trim(c.command);
    TrimIsTight(c.command);
    var text := Trim(c.schedule);
    if text == "" {
      FiveFieldsAreGood(TrimAll(c.fields), command);
    } else if HasPrefix(Trim(text), "@") {
      TokenIsGood(text);
    } else {
      FiveFieldsAreGood(Fields(Trim(text)), command);
    }
  }

  /** The minute keeps the line from reading as a comment, an @ line or an environment assignment. */
  predicate ReadsBack(l: CrontabLine) {
    l.special != "" ||
    (l.minute != "" && l.hour != "" && l.minute[0] !in {'#', '@'} && !EnvStart(l.minute, l.hour[0]))
  }

  /** The minutes that cron itself knows always read back. */
  lemma CronMinutesReadBack(l: CrontabLine)
    requires GoodJob(l)
    requires l.special == "" ==> l.minute != "" && ('0' <= l.minute[0] <= '9' || l.minute[0] == '*')
    ensures ReadsBack(l)
  {
    if l.special == "" {
      assert ScheduleFields(l)[1] == l.hour;
      var k := EqualsAt(l.minute);
      if 0 < k < |l.minute| { TrimFromStart(l.minute[..k], 0); }
    }
  }

  /** The desired command and schedule, read from a parsed line. */
  predicate ReadsAs(l: CrontabLine, job: CrontabLine) {
    IsJobLine(l) && SameCommand(l, job)
  }

  /** A desired line is printed as its schedule, a space and its command. */
  lemma RenderOfGood(job: CrontabLine)
    requires GoodJob(job)
    ensures RenderLine(job) == Canonical(job) + " " + job.command
    ensures RenderLine(job) == if job.special != "" then job.special + " " + job.command
                               else JoinWords(ScheduleFields(job), job.command)
    ensures NoNewline(RenderLine(job)) && IsJobLine(job)
  {
    hide Trim;
    TrimOfTight(job.command);
    if job.special != "" {
      TrimOfTight(job.special);
    } else {
      var words := ScheduleFields(job);
      CanonicalOfFive(job);
      JoinOfFive(words, job.command);
      JoinedIsPart(words, job.command);
    }
  }

  lemma CanonicalOfFive(job: CrontabLine)
    requires GoodJob(job) && job.special == ""
    ensures Canonical(job) == FiveJoined(ScheduleFields(job)) && IsJobLine(job)
  {
    hide Trim;
    var words := ScheduleFields(job);
    assert forall i :: 0 <= i < 5 ==> Trim(words[i]) == TrimAll(words)[i] == words[i];
    assert words[0] == job.minute && words[1] == job.hour && words[2] == job.dayOfMonth && words[3] == job.month
        && words[4] == job.dayOfWeek;
    TrimOfTight("");
    TrimOfTight(job.command);
  }

  function FiveJoined(words: seq<string>): string
    requires |words| == 5
  {
    words[0] + " " + words[1] + " " + words[2] + " " + words[3] + " " + words[4]
  }

  lemma JoinOfFive(words: seq<string>, last: string)
    requires |words| == 5
    ensures JoinWords(words, last) == FiveJoined(words) + " " + last
    ensures ' ' in FiveJoined(words)
  {
    assert FiveJoined(words)[|words[0]|] == ' ';
    assert words[1..][1..][1..][1..][1..] == [];
    assert JoinWords([], last) == last;
    assert JoinWords(words[1..][1..][1..][1..], last) == words[4] + " " + last;
    assert JoinWords(words[1..][1..][1..], last) == words[3] + " " + (words[4] + " " + last);
    assert JoinWords(words[1..][1..], last) == words[2] + " " + (words[3] + " " + (words[4] + " " + last));
  }

  /** The line of a desired job reads as that job exactly when its minute lets it; otherwise it reads as no job with
      this command and schedule. */
  lemma DesiredLineReadsBack(job: CrontabLine)
    requires GoodJob(job)
    ensures ReadsBack(job) ==> ParseLine(RenderLine(job)) == job && !job.isComment
    ensures !ReadsBack(job) ==> !ReadsAs(ParseLine(RenderLine(job)), job)
  {
    hide Trim, ParseLine, Canonical, SameCommand, IsJobLine;
    RenderOfGood(job);
    if job.special != "" {
      ParseOfSpecial(job.special, job.command);
    } else {
      var words := ScheduleFields(job);
      assert TrimAll(words)[0] == words[0] && TrimAll(words)[1] == words[1];
      assert words[0] == job.minute && words[1] == job.hour;
      TrimIsTight(words[0]);
      TrimIsTight(words[1]);
      ParseOfJoined(words, job.command);
      if !ReadsBack(job) { UnreadableIsNoJob(job); }
    }
  }

  /** What a line that reads differently reads as: a comment, an assignment or an unread line is no job, and an @ line
      has another schedule. */
  lemma UnreadableIsNoJob(job: CrontabLine)
    requires GoodJob(job) && job.special == "" && !ReadsBack(job)
    ensures !ReadsAs(ParseLine(RenderLine(job)), job)
  {
    hide Trim;
    var text := RenderLine(job);
    RenderOfGood(job);
    var words := ScheduleFields(job);
    TrimIsTight(words[0]);
    TrimIsTight(words[1]);
    assert TrimAll(words)[0] == words[0] && TrimAll(words)[1] == words[1];
    assert words[0] == job.minute && words[1] == job.hour;
    ParseOfJoined(words, job.command);
    var l := ParseLine(text);
    if l.special != "" {
      SpecialCanonical(text);
      JoinOfFive(words, job.command);
      assert Canonical(job) == FiveJoined(words) by { CanonicalOfFive(job); }
    } else {
      OnlyJobsHaveCommands(text);
      assert Trim("") == "" by { TrimOfTight(""); }
    }
  }

  lemma OnlyJobsHaveCommands(text: string)
    ensures var l := ParseLine(text); l.isComment || l.isEnv || l.raw != "" ==> l.command == ""
  {
    hide Trim, IsEnvAssignment, Fields, SplitSchedule;
  }

  /** The schedule of an @ line holds no space. */
  lemma SpecialCanonical(text: string)
    requires ParseLine(text).special != ""
    ensures ' ' !in Canonical(ParseLine(text))
    ensures Trim(ParseLine(text).special) == ParseLine(text).special
  {
    hide Trim, IsEnvAssignment;
    var t := Trim(text);
    TrimIsTight(text);
    SpecialShape(t);
    LowerKeepsTokens(t[..FieldLength(t)]);
    TrimOfTight(ParseLine(text).special);
  }

  /** The line is printed on one line and marks the same name when it is read again. */
  predicate Survives(l: CrontabLine) {
    NoNewline(RenderLine(l)) && MarkedName(ParseLine(RenderLine(l))) == MarkedName(l)
  }

  lemma ParsedSurvives(line: string)
    requires NoNewline(line)
    ensures Survives(ParseLine(line))
  {
    hide ParseLine, RenderLine, MarkedName;
    RenderKeepsToALine(line);
    var l := ParseLine(line);
    CommentOnly(l);
    CommentOnly(ParseLine(RenderLine(l)));
    if IsSchedule(l) {
      ScheduleIsNoComment(line);
    } else if IsJob(l) {
      SpecialRoundTrip(line);
    } else {
      OthersAreKept(line);
    }
  }

  /** A printed schedule is no comment, even when its fields are loose: it starts as the line does. */
  lemma ScheduleIsNoComment(line: string)
    requires IsSchedule(ParseLine(line))
    ensures !ParseLine(line).isComment && !ParseLine(RenderLine(ParseLine(line))).isComment
  {
    hide ParseLine, Trim, TakeWords, IsEnvAssignment;
    ScheduleOrigin(line);
    var t, l := Trim(line), ParseLine(line);
    var words := ScheduleFields(l);
    var k, m := FirstTwoWords(t);
    TrimFromStart(words[0], 0);
    var text := RenderLine(l);
    assert TrimAll(words)[0] == Trim(words[0]);
    assert text[0] == t[0];
    TrimFromStart(text, 0);
    assert Trim(text)[0] == t[0];
    NoHashNoComment(text);
  }

  lemma NoHashNoComment(text: string)
    requires Trim(text) != "" && Trim(text)[0] != '#'
    ensures !ParseLine(text).isComment
  {
    hide Trim, IsEnvAssignment, Fields, SplitSchedule;
  }

  lemma MarkerSurvives(name: string)
    requires ValidName(name)
    ensures Survives(Marker(name)) && Marks(Marker(name), name)
  {
    hide MarkedName, RenderLine, ParseLine, IsSpace, ValidName;
    MarkerMarks(name);
    MarkerText(name);
    CommentSurvives(MARKER_PREFIX + name);
  }

  lemma MarkerText(name: string)
    requires ValidName(name)
    ensures NoNewline(MARKER_PREFIX + name) && (MARKER_PREFIX + name)[0] == '#'
  {
    assert '\n' !in MARKER_PREFIX;
  }

  lemma CommentSurvives(comment: string)
    requires comment != "" && comment[0] == '#' && Tight(comment) && NoNewline(comment)
    ensures Survives(EMPTY.(isComment := true, comment := comment))
  {
    hide Trim, IsEnvAssignment, Fields, SplitSchedule;
    TrimOfTight(comment);
    assert comment[..1] == "#";
    assert RenderLine(EMPTY.(isComment := true, comment := comment)) == comment;
    assert ParseLine(comment) == EMPTY.(isComment := true, comment := comment, raw := comment);
  }

  /** Looking the name up in written and reread lines finds one block, whose job is the desired one. */
  predicate ReadsEntry(lines: seq<CrontabLine>, name: string, job: CrontabLine) {
    var f := Find(lines, name);
    f.Block? && f.hasJob && f.marker + 1 < |lines| && ReadsAs(lines[f.marker + 1], job)
  }

  function Reread(lines: seq<CrontabLine>): seq<CrontabLine> {
    ParsedCrontab(SerializedCrontab(lines))
  }

  /** Written and reread, a new block with the text of the desired job is found with that job exactly when the job
      reads back. */
  lemma BlockReadsBack(
      a: seq<CrontabLine>, block: seq<CrontabLine>, c: seq<CrontabLine>, name: string, job: CrontabLine)
    requires GoodJob(job) && ValidName(name)
    requires |block| == 2 && block[0] == Marker(name) && RenderLine(block[1]) == RenderLine(job)
    requires forall i :: 0 <= i < |a| ==> Survives(a[i])
    requires forall i :: 0 <= i < |c| ==> Survives(c[i])
    requires MarkersOf(a, name) == [] && MarkersOf(c, name) == []
    ensures ReadsEntry(Reread(a + block + c), name, job) <==> ReadsBack(job)
  {
    hide ParseLine, RenderLine, Lines, MarkedName, MarkersOf, IsJobLine, GoodJob, ReadsBack, ReadsAs, Marker;
    var s := a + block + c;
    RenderOfGood(job);
    MarkerSurvives(name);
    DesiredLineReadsBack(job);
    NoNewlinesAround(a, block, c);
    RereadLines(s);
    var r := Reread(s);
    MarkersExact(a, name);
    MarkersExact(c, name);
    MarksReread(a, block, c, name, r);
    assert s[|a| + 1] == block[1];
    EntryOfMarks(r, |a|, name, job);
    if ReadsBack(job) { GoodReads(job); }
  }

  lemma NoNewlinesAround(a: seq<CrontabLine>, block: seq<CrontabLine>, c: seq<CrontabLine>)
    requires |block| == 2 && Survives(block[0]) && NoNewline(RenderLine(block[1]))
    requires forall i :: 0 <= i < |a| ==> Survives(a[i])
    requires forall i :: 0 <= i < |c| ==> Survives(c[i])
    ensures NoNewlines(RenderLines(a + block + c))
  {
    hide ParseLine, RenderLine, MarkedName, NoNewline;
    var s := a + block + c;
    forall i | 0 <= i < |s| ensures NoNewline(RenderLine(s[i])) {
      if i < |a| {
        assert s[i] == a[i];
      } else if i >= |a| + 2 {
        assert s[i] == c[i - |a| - 2];
      } else {
        assert s[i] == block[i - |a|];
      }
    }
  }

  lemma RereadLines(s: seq<CrontabLine>)
    requires NoNewlines(RenderLines(s))
    ensures |Reread(s)| == |s| && forall i :: 0 <= i < |s| ==> Reread(s)[i] == ParseLine(RenderLine(s[i]))
  {
    hide ParseLine, RenderLine, Lines;
    LinesOfSerialized(s);
  }

  /** Where only line k marks the name, and perhaps the next, the entry is read exactly from the line after k. */
  lemma EntryOfMarks(r: seq<CrontabLine>, k: nat, name: string, job: CrontabLine)
    requires k + 1 < |r| && Marks(r[k], name)
    requires forall i :: 0 <= i < |r| && i != k && i != k + 1 ==> !Marks(r[i], name)
    ensures ReadsEntry(r, name, job) ==> ReadsAs(r[k + 1], job)
    ensures ReadsAs(r[k + 1], job) && !r[k + 1].isComment ==> ReadsEntry(r, name, job)
  {
    hide MarkersOf, IsJobLine, Marks, SameCommand;
    MarkersExact(r, name);
    if !r[k + 1].isComment {
      NoCommentMarksNothing(r[k + 1], name);
      OnlyMarker(r, k, name);
    }
  }

  lemma NoCommentMarksNothing(l: CrontabLine, name: string)
    requires !l.isComment
    ensures !Marks(l, name)
  {}

  lemma GoodReads(job: CrontabLine)
    requires GoodJob(job)
    ensures ReadsAs(job, job)
  {
    RenderOfGood(job);
  }

  lemma MarksReread(
      a: seq<CrontabLine>, block: seq<CrontabLine>, c: seq<CrontabLine>, name: string, r: seq<CrontabLine>)
    requires |block| == 2 && Survives(block[0]) && Marks(block[0], name)
    requires forall i :: 0 <= i < |a| ==> Survives(a[i]) && !Marks(a[i], name)
    requires forall i :: 0 <= i < |c| ==> Survives(c[i]) && !Marks(c[i], name)
    requires |r| == |a| + 2 + |c|
    requires forall i :: 0 <= i < |r| ==> r[i] == ParseLine(RenderLine((a + block + c)[i]))
    ensures Marks(r[|a|], name)
    ensures forall i :: 0 <= i < |r| && i != |a| && i != |a| + 1 ==> !Marks(r[i], name)
  {
    hide ParseLine, RenderLine, MarkedName;
    var s := a + block + c;
    assert s[|a|] == block[0];
    forall i | 0 <= i < |r| && i != |a| && i != |a| + 1 ensures !Marks(r[i], name) {
      if i < |a| { assert s[i] == a[i]; } else { assert s[i] == c[i - |a| - 2]; }
    }
  }

  /** Create, adopt and update: whatever the crontab held, when the written file is read again the name is found with
      exactly the desired command and schedule, unless the minute makes the line read as something else. */
  lemma EditsReadBack(content: string, name: string, job: CrontabLine, edited: Edited)
    requires GoodJob(job) && ValidName(name) && edited.Edited?
    requires edited in {Created(ParsedCrontab(content), name, job), Updated(ParsedCrontab(content), name, job)}
    ensures ReadsEntry(Reread(edited.lines), name, job) <==> ReadsBack(job)
  {
    hide ParseLine, RenderLine, Lines, MarkersOf, Matches, IsJobLine, GoodJob, ReadsBack, ReadsEntry, Marker,
      MarkedName, Canonical;
    var lines := ParsedCrontab(content);
    LinesKeepToALine(content);
    forall i | 0 <= i < |lines| ensures Survives(lines[i]) { ParsedSurvives(Lines(content)[i]); }
    if edited == Updated(lines, name, job) && edited != Created(lines, name, job) {
      ParsedIsSound(content);
      FoundParts(lines, name);
      var f := Find(lines, name);
      BlockReadsBack(lines[..f.marker], [Marker(name), job], lines[BlockEnd(f)..], name, job);
    } else if Matches(lines, job) == [] {
      assert lines + [Marker(name), job] + [] == lines + [Marker(name), job];
      NothingInNothing(name, name);
      BlockReadsBack(lines, [Marker(name), job], [], name, job);
    } else {
      AdoptReadsBack(content, name, job, Matches(lines, job)[0]);
    }
  }

  /** The same from the configuration on: every valid configuration is read back after create, adopt or update, unless
      its minute makes the line read as something else. */
  lemma ConfiguredEntryReadsBack(content: string, c: Config, edited: Edited)
    requires |c.fields| == 5 && Desired(c).Some? && edited.Edited?
    requires var (name, job) := Desired(c).value;
             edited in {Created(ParsedCrontab(content), name, job), Updated(ParsedCrontab(content), name, job)}
    ensures var (name, job) := Desired(c).value;
            && IsJobLine(job)
            && (ReadsEntry(Reread(edited.lines), name, job) <==> ReadsBack(job))
  {
    hide Desired, GoodJob, Created, Updated, ReadsEntry, ReadsBack, Reread, ParsedCrontab, ValidName, IsJobLine;
    DesiredIsGood(c);
    var (name, job) := Desired(c).value;
    EditsReadBack(content, name, job, edited);
    RenderOfGood(job);
  }

  lemma AdoptReadsBack(content: string, name: string, job: CrontabLine, k: nat)
    requires GoodJob(job) && ValidName(name) && MarkersOf(ParsedCrontab(content), name) == []
    requires k < |ParsedCrontab(content)| && IsMatch(ParsedCrontab(content), k, job)
    ensures var lines := ParsedCrontab(content);
            ReadsEntry(Reread(lines[..k] + [Marker(name)] + lines[k..]), name, job) <==> ReadsBack(job)
  {
    hide ParseLine, RenderLine, Lines, MarkersOf, IsJobLine, GoodJob, ReadsBack, ReadsEntry, Marker, MarkedName,
      Canonical;
    var lines := ParsedCrontab(content);
    var a, block, c := lines[..k], [Marker(name), lines[k]], lines[k + 1..];
    LinesKeepToALine(content);
    forall i | 0 <= i < |lines| ensures Survives(lines[i]) { ParsedSurvives(Lines(content)[i]); }
    assert a + [Marker(name)] + lines[k..] == a + block + c;
    MarkersExact(lines, name);
    MarkersExact(a, name);
    MarkersExact(c, name);
    RenderOfGood(job);
    RenderOfParsedJob(Lines(content)[k]);
    assert RenderLine(lines[k]) == RenderLine(job) by { GoodCommand(job); }
    BlockReadsBack(a, block, c, name, job);
  }

  lemma GoodCommand(job: CrontabLine)
    requires GoodJob(job)
    ensures Trim(job.command) == job.command
  {
    TrimOfTight(job.command);
  }

  /** A parsed job is printed as its schedule, a space and its command. */
  lemma RenderOfParsedJob(line: string)
    requires IsJobLine(ParseLine(line))
    ensures var l := ParseLine(line); RenderLine(l) == Canonical(l) + " " + Trim(l.command)
  {
    hide ParseLine, Trim;
    var l := ParseLine(line);
    TrimOfTight("");
    if l.special != "" {
      SpecialCanonical(line);
      SpecialIsBare(line);
    } else {
      ScheduleOrigin(line);
      var words := TrimAll(ScheduleFields(l));
      JoinOfFive(words, Trim(l.command));
      assert words[0] == Trim(l.minute) && words[1] == Trim(l.hour) && words[2] == Trim(l.dayOfMonth)
          && words[3] == Trim(l.month) && words[4] == Trim(l.dayOfWeek);
    }
  }

  lemma SpecialIsBare(line: string)
    requires ParseLine(line).special != ""
    ensures var l := ParseLine(line); !l.isBlank && !l.isComment && !l.isEnv && l.raw == ""
  {
    hide Trim, IsEnvAssignment, Fields, SplitSchedule;
  }

  /** A valid configuration whose minute makes the written line a comment. */
  lemma CommentMinuteIsNotReadBack() returns (c: Config)
    ensures |c.fields| == 5 && Desired(c).Some? && !ReadsBack(Desired(c).value.1)
    ensures c.fields[0] == "#5"
  {
    hide IsSpace;
    c := Config("n", "u", "cmd", "", ["#5", "2", "3", "4", "5"]);
    assert forall x :: x in {'#', '2', '3', '4', '5', 'n', 'u', 'c', 'd'} ==> !IsSpace(x) by { PlainCharacters(); }
    TrimOfTight("n");
    TrimOfTight("u");
    TrimOfTight("cmd");
    TrimOfTight("");
    forall i | 0 <= i < 5 ensures Trim(c.fields[i]) == c.fields[i] { TrimOfTight(c.fields[i]); }
    assert TrimAll(c.fields) == c.fields;
    assert forall i :: 0 <= i < 5 ==> !BadField(c.fields[i]);
    assert FiveFields(TrimAll(c.fields)) == Some(JobLine(c.fields, ""));
  }

  lemma PlainCharacters()
    ensures forall x :: x in {'#', '2', '3', '4', '5', 'n', 'u', 'c', 'd'} ==> !IsSpace(x)
  {}

  /** A crontab with two markers above two jobs: removing the second entry hands its neighbour's job to the first. */
  lemma RemovalCanCapture() returns (content: string)
    ensures Captures(ParsedCrontab(content), "b")
    ensures Removed(ParsedCrontab(content), "b").Edited?
    ensures Unmanaged(Removed(ParsedCrontab(content), "b").lines) != Unmanaged(ParsedCrontab(content))
  {
    hide ParsedCrontab, Captures, Removed, Unmanaged;
    content := TwoMarkers();
    TwoMarkersCapture(ParsedCrontab(content));
    ParsedIsSound(content);
    RemoveKeepsTheRest(ParsedCrontab(content), "b");
  }

  /** Two markers above two jobs. */
  predicate MarkersAboveJobs(lines: seq<CrontabLine>) {
    && |lines| == 4 && Marks(lines[0], "a") && Marks(lines[1], "b")
    && MarkedName(lines[2]).None? && MarkedName(lines[3]).None? && IsJobLine(lines[2]) && IsJobLine(lines[3])
  }

  lemma TwoMarkers() returns (content: string)
    ensures MarkersAboveJobs(ParsedCrontab(content))
  {
    hide ParseLine, RenderLine, Lines, MarkedName, IsJobLine, Marker, GoodJob, ReadsBack, JobLine;
    var job := JobLine(["1", "2", "3", "4", "5"], "x");
    var lines := [Marker("a"), Marker("b"), job, job];
    content := SerializedCrontab(lines);
    SampleJob(job);
    MarkerSurvives("a");
    MarkerSurvives("b");
    RenderOfGood(job);
    DesiredLineReadsBack(job);
    CommentOnly(job);
    RereadLines(lines);
    var parsed := Reread(lines);
    assert parsed[0] == ParseLine(RenderLine(lines[0])) && parsed[1] == ParseLine(RenderLine(lines[1]));
    assert parsed[2] == job && parsed[3] == job;
  }

  lemma TwoMarkersCapture(lines: seq<CrontabLine>)
    requires MarkersAboveJobs(lines)
    ensures Find(lines, "b") == Block(1, true) && Captures(lines, "b") && Removed(lines, "b").Edited?
  {
    hide MarkedName, IsJobLine, MarkersOf;
    assert forall j :: 0 <= j < 4 && j != 1 ==> !Marks(lines[j], "b");
    OnlyMarker(lines, 1, "b");
  }

  lemma SampleJob(job: CrontabLine)
    requires job == JobLine(["1", "2", "3", "4", "5"], "x")
    ensures GoodJob(job) && ReadsBack(job) && !job.isComment
  {
    var words := ["1", "2", "3", "4", "5"];
    assert ScheduleFields(job) == words;
    forall i | 0 <= i < 5 ensures Trim(words[i]) == words[i] { TrimOfTight(words[i]); }
    assert TrimAll(words) == words;
    CronMinutesReadBack(job);
  }
}
