/** Which crontab line a configuration stands for, and which configurations are valid
    (guest/packs/linux/files_config/crontab.go). */
module CrontabConfig {
  import opened Text
  import opened CrontabFile
  import opened CrontabNormal
  import opened CrontabEdit
  import opened CrontabReadBack

  predicate NoSpace(w: string) {
    forall i :: 0 <= i < |w| ==> !IsSpace(w[i])
  }

  /** Words with one space between each two are read as these words. */
  lemma {:induction false} FieldsOfJoined(words: seq<string>, last: string)
    requires forall i :: 0 <= i < |words| ==> words[i] != "" && NoSpace(words[i])
    requires last != "" && NoSpace(last)
    ensures Fields(JoinWords(words, last)) == words + [last]
    ensures Fields(" " + JoinWords(words, last)) == words + [last]
  {
    hide FieldLength;
    var t := JoinWords(words, last);
    assert (" " + t)[1..] == t;
    if words == [] {
      FieldLengthOf(last, "");
      assert last + "" == last && last[..|last|] == last && last[|last|..] == "";
      FirstField(last);
      assert Fields("") == [];
    } else {
      var w, rest := words[0], " " + JoinWords(words[1..], last);
      assert t == w + rest;
      FieldLengthOf(w, rest);
      FirstField(t);
      assert t[..|w|] == w && t[|w|..] == rest;
      FieldsOfJoined(words[1..], last);
      assert words == [w] + words[1..];
    }
    assert TrimLeft(" " + t) == TrimLeft(t);
  }

  /** A word that strings.Fields finds holds no white space. */
  lemma {:induction false} FieldsAreWords(s: string)
    ensures forall i :: 0 <= i < |Fields(s)| ==> Fields(s)[i] != "" && NoSpace(Fields(s)[i])
    decreases |s|
  {
    var t := TrimLeft(s);
    if t == [] {
    } else {
      var k := FieldLength(t);
      FirstField(t);
      FieldEnds(t);
      FieldsAreWords(t[k..]);
    }
  }

  /** A text without white space is one word. */
  lemma OneWord(text: string)
    requires text != "" && Tight(text)
    ensures |Fields(text)| == 1 <==> NoSpace(text)
    ensures NoSpace(text) ==> Fields(text) == [text]
  {
    FieldEnds(text);
    FirstField(text);
    var k := FieldLength(text);
    if k < |text| {
      FieldsNotEmpty(text[k..], |text| - 1 - k);
    } else {
      assert text[..k] == text && text[k..] == "" && Fields("") == [];
    }
  }

  /** Lower case: no ASCII capital is left, and nothing else changes. */
  lemma LowerHasNoCapitals(text: string, i: nat)
    requires i < |text|
    ensures var c := ToLower(text)[i];
            !('A' <= c <= 'Z') && if 'A' <= text[i] <= 'Z' then c as int == text[i] as int + 32 else c == text[i]
  {
  }

  predicate ValidField(f: string) {
    f != "" && forall c :: c in f ==> c !in {' ', '\t', '\r', '\n'}
  }

  /** Exactly one form of the schedule is given: five fields, or a text of five words or of one @ token. */
  predicate ValidSchedule(c: Config)
    requires |c.fields| == 5
  {
    var text := Trim(c.schedule);
    if text == "" then forall i :: 0 <= i < 5 ==> ValidField(Trim(c.fields[i]))
    else
      && (forall i :: 0 <= i < 5 ==> Trim(c.fields[i]) == "")
      && if text[0] == '@' then |text| > 1 && NoSpace(text) else |Fields(text)| == 5
  }

  predicate ValidText(t: string) {
    Trim(t) != "" && forall c :: c in Trim(t) ==> c !in {'\r', '\n'}
  }

  /** Letters, digits and the given marks, at least one of them. */
  predicate PlainName(name: string, marks: set<char>) {
    name != "" && forall c :: c in name ==>
      c in marks || 'a' <= c <= 'z' || 'A' <= c <= 'Z' || '0' <= c <= '9'
  }

  lemma NamesArePlain(name: string)
    ensures ValidName(name) <==> PlainName(name, {'.', '_', '-'})
    ensures IsVariable(name) <==> PlainName(name, {'_'}) && !('0' <= name[0] <= '9')
  {
    assert (forall i :: 0 <= i < |name| ==> IsNameChar(name[i])) <==> (forall c :: c in name ==> IsNameChar(c));
    if name != "" {
      assert name[0] in name;
      if IsVariable(name) {
        forall c | c in name ensures IsNameStart(c) || '0' <= c <= '9' {
          var i :| 0 <= i < |name| && name[i] == c;
        }
      } else if PlainName(name, {'_'}) {
        assert forall i :: 0 <= i < |name| ==> name[i] in name;
      }
    }
  }

  /** A line that assigns a value to a variable is read as an assignment, never as a job, whatever the value. */
  lemma AssignmentsAreRead(name: string, value: string)
    requires PlainName(name, {'_'}) && !('0' <= name[0] <= '9')
    ensures ParseLine(name + "=" + value).isEnv && ParseLine(name + "=" + value).command == ""
    ensures RenderLine(ParseLine(name + "=" + value)) == name + "=" + value
  {
    hide Trim, IsVariable, TakeWords, Fields;
    NamesArePlain(name);
    var line := name + "=" + value;
    PlainIsNoSpace(name);
    assert line[0] == name[0] && line[|name|] == '=';
    TrimFromStart(line, |name|);
    var t := Trim(line);
    assert t[..|name|] == name && t[|name|] == '=';
    assert forall i :: 0 <= i < |name| ==> t[i] == name[i];
    assert EqualsAt(t) == |name|;
    TrimOfTight(name);
    assert t[..1] == [t[0]];
  }

  lemma PlainIsNoSpace(name: string)
    requires PlainName(name, {'_'})
    ensures NoSpace(name) && '=' !in name && name[0] != '#' && !IsSpace('=')
  {
    assert name[0] in name;
    forall i | 0 <= i < |name| ensures !IsSpace(name[i]) { assert name[i] in name; }
  }

  predicate ValidConfig(c: Config)
    requires |c.fields| == 5
  {
    PlainName(Trim(c.name), {'.', '_', '-'}) && ValidText(c.user) && ValidText(c.command) && ValidSchedule(c)
  }

  /** The five words, or the token, that the configuration asks for. */
  function Asked(c: Config): seq<string>
    requires |c.fields| == 5
  {
    var text := Trim(c.schedule);
    if text == "" then [Trim(c.fields[0]), Trim(c.fields[1]), Trim(c.fields[2]), Trim(c.fields[3]), Trim(c.fields[4])]
    else if text[0] == '@' then [ToLower(text)]
    else Fields(text)
  }

  /** A job has the words as minute, hour, day of month, month and day of week, in that order, or the token. */
  predicate HasSchedule(job: CrontabLine, asked: seq<string>) {
    if |asked| == 5 then
      && job.special == "" && job.minute == asked[0] && job.hour == asked[1] && job.dayOfMonth == asked[2]
      && job.month == asked[3] && job.dayOfWeek == asked[4]
    else
      |asked| == 1 && job.special == asked[0] && ScheduleFields(job) == ["", "", "", "", ""]
  }

  lemma ScheduleOfFields(fields: seq<string>)
    requires |fields| == 5
    ensures FiveFields(fields).Some? <==> forall i :: 0 <= i < 5 ==> ValidField(Trim(fields[i]))
    ensures FiveFields(fields).Some? ==>
              HasSchedule(FiveFields(fields).value, [Trim(fields[0]), Trim(fields[1]), Trim(fields[2]), Trim(fields[3]),
                                                     Trim(fields[4])])
  {
    hide Trim;
    var trimmed := TrimAll(fields);
    forall i | 0 <= i < 5 ensures BadField(trimmed[i]) <==> !ValidField(Trim(fields[i])) {}
  }

  lemma ScheduleOfText(text: string)
    requires text != "" && Tight(text)
    ensures ScheduleString(text).Some? <==>
              if text[0] == '@' then |text| > 1 && NoSpace(text) else |Fields(text)| == 5
    ensures ScheduleString(text).Some? ==>
              HasSchedule(ScheduleString(text).value, if text[0] == '@' then [ToLower(text)] else Fields(text))
  {
    hide Trim, FiveFields;
    TrimOfTight(text);
    OneWord(text);
    assert HasPrefix(text, "@") <==> text[0] == '@' by { assert text[..1] == [text[0]]; }
    var words := Fields(text);
    if text[0] != '@' && |words| == 5 {
      FieldsAreWords(text);
      forall i | 0 <= i < 5 ensures Trim(words[i]) == words[i] && ValidField(words[i]) { TrimOfTight(words[i]); }
      ScheduleOfFields(words);
    }
  }

  /** The configurations that are accepted are exactly the valid ones, and the job has what they ask for, field by
      field, with their command. */
  lemma DesiredIsConfigured(c: Config)
    requires |c.fields| == 5
    ensures Desired(c).Some? <==> ValidConfig(c)
    ensures ValidConfig(c) ==>
              var (name, job) := Desired(c).value;
              name == Trim(c.name) && job.command == Trim(c.command) && HasSchedule(job, Asked(c))
  {
    hide Trim, FiveFields, ScheduleString, ValidName, PlainName, ToLower, Fields, ValidField;
    NamesArePlain(Trim(c.name));
    var text, fields := Trim(c.schedule), TrimAll(c.fields);
    TrimIsTight(c.schedule);
    forall i | 0 <= i < 5 ensures fields[i] == Trim(c.fields[i]) == Trim(fields[i]) { TrimIsTight(c.fields[i]); }
    assert fields == ["", "", "", "", ""] <==> forall i :: 0 <= i < 5 ==> Trim(c.fields[i]) == "";
    if text == "" {
      ScheduleOfFields(fields);
      assert forall i :: 0 <= i < 5 && ValidField(fields[i]) ==> fields[i] != "" by { ValidIsNotEmpty(); }
    } else {
      ScheduleOfText(text);
    }
  }

  lemma ValidIsNotEmpty()
    ensures forall f :: ValidField(f) ==> f != ""
  {
  }

  /** What is written is what was configured: the five values, or the token in lower case, and the command, with one
      space between each two. */
  lemma ConfiguredLineIsPrinted(c: Config)
    requires |c.fields| == 5 && ValidConfig(c)
    ensures Desired(c).Some? && RenderLine(Desired(c).value.1) == JoinWords(Asked(c), Trim(c.command))
  {
    hide Trim, Desired, ValidConfig, GoodJob, Asked;
    DesiredIsConfigured(c);
    DesiredIsGood(c);
    var job := Desired(c).value.1;
    RenderOfGood(job);
    var asked := Asked(c);
    if |asked| == 5 {
      assert asked == ScheduleFields(job);
    } else {
      assert JoinWords(asked[1..], job.command) == job.command;
    }
    GoodHasASchedule(job);
  }

  lemma GoodHasASchedule(job: CrontabLine)
    requires GoodJob(job)
    ensures job.special == "" ==> ScheduleFields(job) != ["", "", "", "", ""]
  {
    if job.special == "" { assert ScheduleFields(job)[0] != ""; }
  }

  /** A schedule text of five words is written word by word. */
  lemma TextIsPrinted(c: Config, words: seq<string>, last: string)
    requires |c.fields| == 5 && ValidConfig(c) && |words| == 4 && Trim(c.schedule) == JoinWords(words, last)
    requires last != "" && NoSpace(last) && forall i :: 0 <= i < 4 ==> words[i] != "" && NoSpace(words[i])
    requires words[0][0] != '@'
    ensures Desired(c).Some?
    ensures RenderLine(Desired(c).value.1) == JoinWords(words + [last], Trim(c.command))
  {
    hide Trim, Desired, ValidConfig;
    ConfiguredLineIsPrinted(c);
    FieldsOfJoined(words, last);
    assert JoinWords(words, last)[0] == words[0][0];
  }
}
